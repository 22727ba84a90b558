/**
 * Plug addressing (core/utils/attributes.py). Maya addresses an attribute of a
 * node by the text "node.attr"; the model keeps the two parts apart in a `Plug`
 * and `PlugText` renders the text Maya would see.
 */
module Attributes {
  import opened Text
  import opened Verification

  /** An attribute: plain, an element of an array attribute, or a child of one. */
  datatype Attr =
    | Named(name: string)                                // translate, offsetParentMatrix
    | Indexed(name: string, index: nat)                  // worldMatrix[0], matrixIn[2]
    | Element(arrayName: string, index: nat, child: string)  // target[1].targetMatrix

  datatype Plug = Plug(node: string, attr: Attr)

  function AttrText(a: Attr): string {
    match a
    case Named(n) => n
    case Indexed(n, i) => n + "[" + NatText(i) + "]"
    case Element(n, i, c) => n + "[" + NatText(i) + "]." + c
  }

  /** The "node.attr" text of a plug. */
  function PlugText(p: Plug): string {
    p.node + "." + AttrText(p.attr)
  }

  /** The text of element 0 of an array attribute. */
  lemma FirstElementText(obj: string, name: string)
    ensures PlugText(Plug(obj, Indexed(name, 0))) == obj + "." + name + "[0]"
  {
    assert NatText(0) == "0";
  }

  /** `get_world_matrix(obj)` */
  function GetWorldMatrix(obj: string): (p: Plug)
    ensures p.node == obj && PlugText(p) == obj + ".worldMatrix[0]"
  {
    FirstElementText(obj, "worldMatrix");
    Plug(obj, Indexed("worldMatrix", 0))
  }

  /** `get_world_inverse_matrix(obj)` */
  function GetWorldInverseMatrix(obj: string): (p: Plug)
    ensures p.node == obj && PlugText(p) == obj + ".worldInverseMatrix[0]"
  {
    FirstElementText(obj, "worldInverseMatrix");
    Plug(obj, Indexed("worldInverseMatrix", 0))
  }

  /** `get_offset_parent_matrix(obj)` */
  function GetOffsetParentMatrix(obj: string): (p: Plug)
    ensures p.node == obj && PlugText(p) == obj + ".offsetParentMatrix"
  {
    Plug(obj, Named("offsetParentMatrix"))
  }

  /** `get_in_matrix(obj)`, where `kind` is the node type of `obj`. */
  function GetInMatrix(obj: string, kind: string): (p: Plug)
    ensures p.node == obj
    ensures kind in {"pickMatrix", "decomposeMatrix", "inverseMatrix"} ==> PlugText(p) == obj + ".inputMatrix"
    ensures kind !in {"pickMatrix", "decomposeMatrix", "inverseMatrix"} ==> PlugText(p) == obj + ".inMatrix"
  {
    if IsPickMatrix(kind) || IsDecomposeMatrix(kind) || IsInverseMatrix(kind) then
      Plug(obj, Named("inputMatrix"))
    else
      Plug(obj, Named("inMatrix"))
  }

  /** `get_out_matrix(obj)`, where `kind` is the node type of `obj`. */
  function GetOutMatrix(obj: string, kind: string): (p: Plug)
    ensures p.node == obj
    ensures kind in {"pickMatrix", "composeMatrix", "inverseMatrix"} ==> PlugText(p) == obj + ".outputMatrix"
    ensures kind == "multMatrix" ==> PlugText(p) == obj + ".matrixSum"
    ensures kind !in {"pickMatrix", "composeMatrix", "inverseMatrix", "multMatrix"} ==> PlugText(p) == obj + ".outMatrix"
  {
    if IsPickMatrix(kind) || IsComposeMatrix(kind) || IsInverseMatrix(kind) then
      Plug(obj, Named("outputMatrix"))
    else if IsMultMatrix(kind) then
      Plug(obj, Named("matrixSum"))
    else
      Plug(obj, Named("outMatrix"))
  }

  /** The text of every plug the helpers build is the node, a dot and a non-empty attribute. */
  lemma HelperPlugsAreNodeDotAttr(obj: string, kind: string, p: Plug)
    requires p in {GetWorldMatrix(obj), GetWorldInverseMatrix(obj), GetOffsetParentMatrix(obj),
                   GetInMatrix(obj, kind), GetOutMatrix(obj, kind)}
    ensures |AttrText(p.attr)| > 0 && PlugText(p) == obj + "." + AttrText(p.attr)
  {
  }

  /**
   * A holdMatrix resolves to ".inMatrix" and ".outMatrix", the same output plug
   * that the constraint builder's `hold_matrix` hands on.
   */
  lemma HoldMatrixPlugs(obj: string)
    ensures GetInMatrix(obj, "holdMatrix") == Plug(obj, Named("inMatrix"))
    ensures GetOutMatrix(obj, "holdMatrix") == Plug(obj, Named("outMatrix"))
  {
  }
}
