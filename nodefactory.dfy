/**
 * The matrix-node factory the constraint builder calls (`nodes.Matrix()` in
 * core/parent_con.py). Its source is not part of this model; each factory
 * method here creates one node of its kind, through `createNode` (so a clash
 * renames it), and wires the given inputs into that new node and nothing else.
 */
module NodeFactory {
  import opened Wrappers
  import opened Attributes
  import opened SceneGraph

  function MatrixIn(n: string, i: nat): Plug {
    Plug(n, Indexed("matrixIn", i))
  }

  /** The connections a multMatrix `n` receives: the k-th input into `matrixIn[k]`. */
  function MultInputs(ins: seq<Plug>, n: string): (r: map<Plug, Plug>)
    ensures forall d :: d in r ==> d.node == n
    ensures forall i :: 0 <= i < |ins| ==> MatrixIn(n, i) in r && r[MatrixIn(n, i)] == ins[i]
    ensures forall d :: d in r ==> r[d] in ins
  {
    map i | 0 <= i < |ins| :: MatrixIn(n, i) := ins[i]
  }

  /** `mult_matrix(inputs, name=name)`: returns the node and its `matrixSum` plug. */
  method MultMatrix(scene: Scene, ins: seq<Plug>, name: string) returns (node: string, out: Plug)
    requires scene.Valid()
    requires forall i :: 0 <= i < |ins| ==> ins[i].node in scene.kinds
    modifies scene`kinds, scene`links
    ensures scene.Valid()
    ensures node !in old(scene.kinds) && scene.kinds == old(scene.kinds)[node := "multMatrix"]
    ensures RenamedFrom(node, name) && (name !in old(scene.kinds) ==> node == name)
    ensures scene.links == old(scene.links) + MultInputs(ins, node)
    ensures out == Plug(node, Named("matrixSum"))
  {
    node := scene.CreateNode("multMatrix", name);
    scene.AddLinks(MultInputs(ins, node));
    out := GetOutMatrix(node, "multMatrix");
  }

  /** `hold_matrix(input=node, name=name)`: the input node's output feeds `inMatrix`. */
  method HoldMatrix(scene: Scene, input: string, name: string) returns (node: string)
    requires scene.Valid()
    requires input in scene.kinds
    modifies scene`kinds, scene`links
    ensures scene.Valid()
    ensures node !in old(scene.kinds) && scene.kinds == old(scene.kinds)[node := "holdMatrix"]
    ensures RenamedFrom(node, name) && (name !in old(scene.kinds) ==> node == name)
    ensures scene.links == old(scene.links)[Plug(node, Named("inMatrix")) := GetOutMatrix(input, old(scene.kinds)[input])]
  {
    var kind := scene.kinds[input];
    node := scene.CreateNode("holdMatrix", name);
    scene.Connect(GetOutMatrix(input, kind), GetInMatrix(node, "holdMatrix"), false);
  }

  /** The values after switching a pickMatrix's channels; an unspecified shear switch keeps its default. */
  function WithPickFlags(values: map<Plug, Value>, n: string, t: bool, r: bool, s: bool, shear: Option<bool>): map<Plug, Value> {
    var v := values[Plug(n, Named("useTranslate")) := Flag(t)][Plug(n, Named("useRotate")) := Flag(r)]
                   [Plug(n, Named("useScale")) := Flag(s)];
    if shear.Some? then v[Plug(n, Named("useShear")) := Flag(shear.value)] else v
  }

  /** The switches read back as given, and plugs of other nodes keep their values. */
  lemma PickFlagValues(values: map<Plug, Value>, n: string, t: bool, r: bool, s: bool, shear: Option<bool>, p: Plug)
    ensures var m := WithPickFlags(values, n, t, r, s, shear);
      && m[Plug(n, Named("useTranslate"))] == Flag(t)
      && m[Plug(n, Named("useRotate"))] == Flag(r)
      && m[Plug(n, Named("useScale"))] == Flag(s)
      && (shear.Some? ==> m[Plug(n, Named("useShear"))] == Flag(shear.value))
      && (shear.None? ==> (Plug(n, Named("useShear")) in m <==> Plug(n, Named("useShear")) in values))
      && (p.node != n ==> (p in m <==> p in values) && (p in values ==> m[p] == values[p]))
  {
  }

  /** `pick_matrix(input=plug, name=name, ...)`: returns the node and its `outputMatrix` plug. */
  method PickMatrix(scene: Scene, input: Plug, name: string, t: bool, r: bool, s: bool, shear: Option<bool>)
    returns (node: string, out: Plug)
    requires scene.Valid()
    requires input.node in scene.kinds
    modifies scene`kinds, scene`links, scene`values
    ensures scene.Valid()
    ensures node !in old(scene.kinds) && scene.kinds == old(scene.kinds)[node := "pickMatrix"]
    ensures RenamedFrom(node, name) && (name !in old(scene.kinds) ==> node == name)
    ensures scene.links == old(scene.links)[Plug(node, Named("inputMatrix")) := input]
    ensures scene.values == WithPickFlags(old(scene.values), node, t, r, s, shear)
    ensures out == Plug(node, Named("outputMatrix"))
  {
    node := scene.CreateNode("pickMatrix", name);
    scene.Connect(input, GetInMatrix(node, "pickMatrix"), false);
    SetPickFlags(scene, node, t, r, s, shear);
    out := GetOutMatrix(node, "pickMatrix");
  }

  /** The `setAttr` calls that switch a new pickMatrix's channels on or off. */
  method SetPickFlags(scene: Scene, node: string, t: bool, r: bool, s: bool, shear: Option<bool>)
    requires scene.Valid()
    requires node in scene.kinds && forall p :: p in scene.locked ==> p.node != node
    modifies scene`values
    ensures scene.Valid()
    ensures scene.values == WithPickFlags(old(scene.values), node, t, r, s, shear)
  {
    scene.SetAttr(Plug(node, Named("useTranslate")), Flag(t));
    scene.SetAttr(Plug(node, Named("useRotate")), Flag(r));
    scene.SetAttr(Plug(node, Named("useScale")), Flag(s));
    if shear.Some? {
      scene.SetAttr(Plug(node, Named("useShear")), Flag(shear.value));
    }
  }

  /** `decompose_matrix(input=plug, name=name)`: returns the node. */
  method DecomposeMatrix(scene: Scene, input: Plug, name: string) returns (node: string)
    requires scene.Valid()
    requires input.node in scene.kinds
    modifies scene`kinds, scene`links
    ensures scene.Valid()
    ensures node !in old(scene.kinds) && scene.kinds == old(scene.kinds)[node := "decomposeMatrix"]
    ensures RenamedFrom(node, name) && (name !in old(scene.kinds) ==> node == name)
    ensures scene.links == old(scene.links)[Plug(node, Named("inputMatrix")) := input]
  {
    node := scene.CreateNode("decomposeMatrix", name);
    scene.Connect(input, GetInMatrix(node, "decomposeMatrix"), false);
  }

  /** Two texts that differ only in their last character are different. */
  lemma LastInjective(p: string)
    ensures forall a: char, b: char {:trigger p + [a], p + [b]} :: p + [a] == p + [b] ==> a == b
  {
    forall a: char, b: char | p + [a] == p + [b]
      ensures a == b
    {
      assert (p + [a])[|p|] == a && (p + [b])[|p|] == b;
    }
  }

  /** For each axis listed, `dec.output<Channel><Axis>` feeds `comp.input<Channel><Axis>`. */
  function ChannelLinks(dec: string, comp: string, channel: string, axes: string): (m: map<Plug, Plug>)
    ensures forall d :: d in m ==> d.node == comp && m[d].node == dec
    ensures forall i :: 0 <= i < |axes| ==>
      Plug(comp, Named("input" + channel + [axes[i]])) in m
      && m[Plug(comp, Named("input" + channel + [axes[i]]))] == Plug(dec, Named("output" + channel + [axes[i]]))
  {
    if axes == [] then map[]
    else
      var a := axes[|axes| - 1];
      assert forall i :: 0 <= i < |axes| - 1 ==> axes[..|axes| - 1][i] == axes[i];
      LastInjective("input" + channel);
      ChannelLinks(dec, comp, channel, axes[..|axes| - 1])[Plug(comp, Named("input" + channel + [a])) := Plug(dec, Named("output" + channel + [a]))]
  }

  /** The connections from a decomposeMatrix into a composeMatrix for the chosen axes. */
  function ComposeInputs(dec: string, comp: string, t: string, r: string, s: string, sh: string): map<Plug, Plug> {
    ChannelLinks(dec, comp, "Translate", t) + ChannelLinks(dec, comp, "Rotate", r)
    + ChannelLinks(dec, comp, "Scale", s) + ChannelLinks(dec, comp, "Shear", sh)
  }

  /** `compose_matrix(input=dec, name=name, translate=..., ...)`: returns the node and its `outputMatrix` plug. */
  method ComposeMatrix(scene: Scene, dec: string, name: string, t: string, r: string, s: string, sh: string)
    returns (node: string, out: Plug)
    requires scene.Valid()
    requires dec in scene.kinds
    modifies scene`kinds, scene`links
    ensures scene.Valid()
    ensures node !in old(scene.kinds) && scene.kinds == old(scene.kinds)[node := "composeMatrix"]
    ensures RenamedFrom(node, name) && (name !in old(scene.kinds) ==> node == name)
    ensures scene.links == old(scene.links) + ComposeInputs(dec, node, t, r, s, sh)
    ensures out == Plug(node, Named("outputMatrix"))
  {
    node := scene.CreateNode("composeMatrix", name);
    scene.AddLinks(ComposeInputs(dec, node, t, r, s, sh));
    out := GetOutMatrix(node, "composeMatrix");
  }
}
