/** `idtransform` of core/utils/transform.py. */
module Transform {
  import opened Attributes
  import opened Verification
  import opened SceneGraph

  /** The plugs `idtransform` writes on `obj`, a node of type `kind`. */
  function IdentityPlugs(obj: string, kind: string): set<Plug> {
    {Plug(obj, Named("translate")), Plug(obj, Named("rotate")), Plug(obj, Named("scale"))}
    + (if IsJoint(kind) then {Plug(obj, Named("jointOrient"))} else {})
  }

  /** The attribute values after `idtransform(obj)` on a node of type `kind`. */
  function WithIdentity(values: map<Plug, Value>, obj: string, kind: string): map<Plug, Value> {
    var v := values[Plug(obj, Named("translate")) := Vec3(0, 0, 0)][Plug(obj, Named("rotate")) := Vec3(0, 0, 0)]
                   [Plug(obj, Named("scale")) := Vec3(1, 1, 1)];
    if IsJoint(kind) then v[Plug(obj, Named("jointOrient")) := Vec3(0, 0, 0)] else v
  }

  /**
   * After `idtransform`, translate and rotate read (0, 0, 0) and scale reads
   * (1, 1, 1); a joint's orient reads (0, 0, 0); every other plug, including a
   * non-joint's orient, keeps its value.
   */
  lemma IdentityValues(values: map<Plug, Value>, obj: string, kind: string, p: Plug)
    ensures var r := WithIdentity(values, obj, kind);
      && r[Plug(obj, Named("translate"))] == Vec3(0, 0, 0)
      && r[Plug(obj, Named("rotate"))] == Vec3(0, 0, 0)
      && r[Plug(obj, Named("scale"))] == Vec3(1, 1, 1)
      && (kind == "joint" ==> r[Plug(obj, Named("jointOrient"))] == Vec3(0, 0, 0))
      && (p !in IdentityPlugs(obj, kind) ==> (p in r <==> p in values) && (p in values ==> r[p] == values[p]))
      && r.Keys == values.Keys + IdentityPlugs(obj, kind)
  {
  }

  /** The channels of `obj` that `idtransform` needs to be able to write. */
  predicate IdentityWritable(scene: Scene, obj: string)
    reads scene
  {
    forall p :: p in IdentityPlugs(obj, scene.KindOf(obj)) ==> p !in scene.locked
  }

  /**
   * `idtransform(obj)`: translate and rotate to zero, scale to one, and for a
   * joint the joint orient to zero.
   */
  method IdTransform(scene: Scene, obj: string)
    requires scene.Valid()
    requires obj in scene.kinds && IdentityWritable(scene, obj)
    modifies scene`values
    ensures scene.Valid()
    ensures scene.values == WithIdentity(old(scene.values), obj, scene.kinds[obj])
  {
    scene.SetAttr(Plug(obj, Named("translate")), Vec3(0, 0, 0));
    scene.SetAttr(Plug(obj, Named("rotate")), Vec3(0, 0, 0));
    scene.SetAttr(Plug(obj, Named("scale")), Vec3(1, 1, 1));
    if IsJoint(scene.KindOf(obj)) {
      scene.SetAttr(Plug(obj, Named("jointOrient")), Vec3(0, 0, 0));
    }
  }
}
