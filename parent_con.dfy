/**
 * The matrix parent-constraint builder `ParentCon` of core/parent_con.py. The
 * settings given to the constructor are a `Config` value; the one field the
 * builder updates, `blend_matrix_node`, is a field of the class `ParentCon`,
 * whose methods drive a `Scene`.
 */
module ParentConstraint {
  import opened Wrappers
  import opened Text
  import opened Attributes
  import opened SceneGraph
  import NodeFactory
  import opened Transform

  // ----- Settings -----

  /** `[axis for axis, flag in zip(names, flags) if flag]` */
  function Axes(names: string, flags: seq<bool>): (r: string)
    ensures |r| <= |names|
  {
    if names == [] || flags == [] then []
    else (if flags[0] then [names[0]] else []) + Axes(names[1..], flags[1..])
  }

  /** The axis list for one channel; an omitted flag list means all three axes. */
  function AxisList(flags: Option<seq<bool>>): string {
    Axes("XYZ", if flags.Some? then flags.value else [true, true, true])
  }

  /** The axis list keeps, in X, Y, Z order, exactly the axes whose flag is true; `zip` stops at the shorter list. */
  lemma {:induction false} AxisListSpec(flags: Option<seq<bool>>)
    ensures var f := if flags.Some? then flags.value else [true, true, true];
      AxisList(flags) == (if |f| > 0 && f[0] then "X" else "") + (if |f| > 1 && f[1] then "Y" else "")
                         + (if |f| > 2 && f[2] then "Z" else "")
  {
    var f := if flags.Some? then flags.value else [true, true, true];
    assert "XYZ"[1..] == "YZ" && "YZ"[1..] == "Z" && "Z"[1..] == "";
    if |f| > 0 {
      if |f| > 1 {
        if |f| > 2 {
          assert Axes("Z"[1..], f[1..][1..][1..]) == "";
        }
        assert Axes("YZ"[1..], f[1..][1..]) == (if |f| > 2 && f[2] then "Z" else "");
      }
      assert Axes("XYZ"[1..], f[1..]) == (if |f| > 1 && f[1] then "Y" else "") + (if |f| > 2 && f[2] then "Z" else "");
    }
  }

  /** Omitting a channel's flags selects X, Y and Z; an empty flag list selects none. */
  lemma AxisListDefaults()
    ensures AxisList(None) == "XYZ"
    ensures AxisList(Some([])) == ""
  {
    AxisListSpec(None);
  }

  /** The keyword arguments of `ParentCon(...)` other than `object_list`. */
  datatype Options = Options(
    translateBlend: Value, rotateBlend: Value, scaleBlend: Value,
    offset: bool, hold: bool, pickMatrix: bool,
    translateAll: bool, rotateAll: bool, scaleAll: bool, shearAll: bool,
    translate: Option<seq<bool>>, rotate: Option<seq<bool>>, scale: Option<seq<bool>>, shear: Option<seq<bool>>)

  /** What `ParentCon.__init__` stores: the objects, the constrained (last) one, the options and the axis lists. */
  datatype Config = Config(
    objects: seq<string>, constrained: string, opts: Options,
    translate: string, rotate: string, scale: string, shear: string)

  /**
   * `ParentCon.__init__`: an empty or missing object list falls back to the
   * selection, and the constrained object is the last one (an empty list
   * raises IndexError).
   */
  function NewConfig(objectList: Option<seq<string>>, selection: seq<string>, opts: Options): (r: Result<Config>)
    ensures var objs := if objectList.Some? && objectList.value != [] then objectList.value else selection;
      && (r.Err? <==> objs == [])
      && (r.Err? ==> r.error == IndexError)
      && (r.Ok? ==> r.value.objects == objs && r.value.constrained == objs[|objs| - 1] && r.value.opts == opts
                    && r.value.translate == AxisList(opts.translate) && r.value.rotate == AxisList(opts.rotate)
                    && r.value.scale == AxisList(opts.scale) && r.value.shear == AxisList(opts.shear))
  {
    var objs := if objectList.Some? && objectList.value != [] then objectList.value else selection;
    if objs == [] then Err(IndexError)
    else Ok(Config(objs, objs[|objs| - 1], opts, AxisList(opts.translate), AxisList(opts.rotate),
                   AxisList(opts.scale), AxisList(opts.shear)))
  }

  /** The drivers: every object but the last, in order. */
  function Drivers(cfg: Config): seq<string>
    requires cfg.objects != []
  {
    cfg.objects[..|cfg.objects| - 1]
  }

  /** The object list is the drivers followed by the constrained object. */
  lemma DriversThenConstrained(objectList: Option<seq<string>>, selection: seq<string>, opts: Options)
    requires NewConfig(objectList, selection, opts).Ok?
    ensures var cfg := NewConfig(objectList, selection, opts).value;
      cfg.objects != [] && Drivers(cfg) + [cfg.constrained] == cfg.objects
  {
    var cfg := NewConfig(objectList, selection, opts).value;
    assert cfg.objects == cfg.objects[..|cfg.objects| - 1] + [cfg.objects[|cfg.objects| - 1]];
  }

  // ----- Choice of the driver matrix (`_driver_node`) -----

  datatype Channel = Channel(all: bool, axes: string)

  /** The translate, rotate, scale and shear channels, in that order. */
  function Channels(cfg: Config): seq<Channel> {
    [Channel(cfg.opts.translateAll, cfg.translate), Channel(cfg.opts.rotateAll, cfg.rotate),
     Channel(cfg.opts.scaleAll, cfg.scale), Channel(cfg.opts.shearAll, cfg.shear)]
  }

  /** `len([k for k in channels if all])` */
  function CountAll(cs: seq<Channel>): nat {
    if cs == [] then 0 else (if cs[0].all then 1 else 0) + CountAll(cs[1..])
  }

  /** `len([k for k in channels if not all and not axes])` */
  function CountInactiveEmpty(cs: seq<Channel>): nat {
    if cs == [] then 0 else (if !cs[0].all && cs[0].axes == [] then 1 else 0) + CountInactiveEmpty(cs[1..])
  }

  datatype DriverSource = WorldMatrix | PickMatrixNode | DecomposeCompose

  /** The case `_driver_node` takes; the first case that applies wins. */
  function ChooseDriverSource(cfg: Config): DriverSource {
    var cs := Channels(cfg);
    if cfg.opts.translateAll && cfg.opts.rotateAll && cfg.opts.scaleAll && cfg.opts.shearAll then WorldMatrix
    else if CountAll(cs) == 1 && CountInactiveEmpty(cs) == 3 then PickMatrixNode
    else if cfg.translate != [] || cfg.rotate != [] || cfg.scale != [] || cfg.shear != [] then DecomposeCompose
    else WorldMatrix
  }

  /** Exactly channel `k` is `*_all`, and every other channel has no axes. */
  predicate OnlyChannel(cs: seq<Channel>, k: nat)
    requires k < |cs|
  {
    cs[k].all && forall j :: 0 <= j < |cs| && j != k ==> !cs[j].all && cs[j].axes == []
  }

  function Count1(b: bool): nat { if b then 1 else 0 }

  /** The two counts over four channels, written out. */
  lemma {:induction false} CountsOfFour(cs: seq<Channel>)
    requires |cs| == 4
    ensures CountAll(cs) == Count1(cs[0].all) + Count1(cs[1].all) + Count1(cs[2].all) + Count1(cs[3].all)
    ensures CountInactiveEmpty(cs) == Count1(!cs[0].all && cs[0].axes == []) + Count1(!cs[1].all && cs[1].axes == [])
                                      + Count1(!cs[2].all && cs[2].axes == []) + Count1(!cs[3].all && cs[3].axes == [])
  {
    assert cs[1..][1..] == cs[2..] && cs[2..][1..] == cs[3..] && cs[3..][1..] == [];
    assert CountAll(cs[3..]) == Count1(cs[3].all);
    assert CountAll(cs[2..]) == Count1(cs[2].all) + CountAll(cs[3..]);
    assert CountAll(cs[1..]) == Count1(cs[1].all) + CountAll(cs[2..]);
    assert CountInactiveEmpty(cs[3..]) == Count1(!cs[3].all && cs[3].axes == []);
    assert CountInactiveEmpty(cs[2..]) == Count1(!cs[2].all && cs[2].axes == []) + CountInactiveEmpty(cs[3..]);
    assert CountInactiveEmpty(cs[1..]) == Count1(!cs[1].all && cs[1].axes == []) + CountInactiveEmpty(cs[2..]);
  }

  /** The two counts of the pick case hold exactly when one channel is `*_all` and the other three are off and empty. */
  lemma PickCaseIsOnlyChannel(cfg: Config)
    ensures var cs := Channels(cfg);
      (CountAll(cs) == 1 && CountInactiveEmpty(cs) == 3)
      <==> (OnlyChannel(cs, 0) || OnlyChannel(cs, 1) || OnlyChannel(cs, 2) || OnlyChannel(cs, 3))
  {
    CountsOfFour(Channels(cfg));
  }

  /**
   * The choice in terms of the channels: all four `*_all` gives the world
   * matrix whatever the axes; otherwise exactly one `*_all` with the rest
   * empty gives a pickMatrix; otherwise any axis gives decompose+compose; and
   * with no axis at all the world matrix again.
   */
  lemma DriverSourceCases(cfg: Config)
    ensures var cs := Channels(cfg);
      && (cs[0].all && cs[1].all && cs[2].all && cs[3].all ==> ChooseDriverSource(cfg) == WorldMatrix)
      && (ChooseDriverSource(cfg) == PickMatrixNode
          <==> OnlyChannel(cs, 0) || OnlyChannel(cs, 1) || OnlyChannel(cs, 2) || OnlyChannel(cs, 3))
      && (ChooseDriverSource(cfg) == DecomposeCompose
          <==> !(OnlyChannel(cs, 0) || OnlyChannel(cs, 1) || OnlyChannel(cs, 2) || OnlyChannel(cs, 3))
               && (exists j :: 0 <= j < 4 && !cs[j].all) && (exists j :: 0 <= j < 4 && cs[j].axes != []))
  {
    PickCaseIsOnlyChannel(cfg);
    var cs := Channels(cfg);
    if cfg.translate != [] { assert cs[0].axes != []; }
    if cfg.rotate != [] { assert cs[1].axes != []; }
    if cfg.scale != [] { assert cs[2].axes != []; }
    if cfg.shear != [] { assert cs[3].axes != []; }
    if !cs[0].all { assert exists j :: 0 <= j < 4 && !cs[j].all; }
  }

  // ----- Names -----

  /** `f"{prefix}{constrained}_constrainedby_{driver}"` */
  function ChainName(prefix: string, c: string, d: string): string {
    prefix + c + "_constrainedby_" + d
  }

  function MultName(c: string, d: string): string { ChainName("multmatrix_", c, d) }

  function HoldName(c: string, d: string): string { ChainName("holdmatrix_", c, d) }

  function PickName(c: string, d: string): string { ChainName("pickmatrix_", c, d) }

  /** The scratch multMatrix `hold_matrix` creates and deletes. */
  const TmpMult: string := "tmp_multmatrix"

  /** `f"{constrained}_off"`, the offset group made for a constrained object without a parent. */
  function OffName(c: string): string { c + "_off" }

  /** Names built from the same prefix and constrained object differ for different drivers. */
  lemma ChainNameInjective(prefix: string, c: string, d1: string, d2: string)
    ensures ChainName(prefix, c, d1) == ChainName(prefix, c, d2) ==> d1 == d2
  {
    var k := |prefix + c + "_constrainedby_"|;
    assert d1 == ChainName(prefix, c, d1)[k..];
    assert d2 == ChainName(prefix, c, d2)[k..];
  }

  /** A chain name has '_' right after the prefix and the constrained object's name. */
  lemma ChainNameShape(prefix: string, c: string, d: string)
    ensures |ChainName(prefix, c, d)| > |prefix| + |c| && ChainName(prefix, c, d)[|prefix| + |c|] == '_'
    ensures ChainName(prefix, c, d)[..|prefix|] == prefix
  {
    assert ChainName(prefix, c, d) == prefix + (c + "_constrainedby_" + d);
  }

  /**
   * The node names the builder asks for never clash with each other: the three
   * chain prefixes differ in their first letter, the scratch node's name has
   * no room for a chain name, and a chain name has '_' where the offset group
   * (even renamed) has '1'.
   */
  lemma BuilderNamesDistinct(c: string, d: string, e: string, off: string)
    requires RenamedFrom(off, OffName(c))
    ensures MultName(c, d) != HoldName(c, e) && MultName(c, d) != PickName(c, e) && HoldName(c, d) != PickName(c, e)
    ensures TmpMult !in {MultName(c, d), HoldName(c, d), PickName(c, d), off}
    ensures off !in {MultName(c, d), HoldName(c, d), PickName(c, d)}
  {
    ChainNameShape("multmatrix_", c, d);
    ChainNameShape("holdmatrix_", c, d);
    ChainNameShape("pickmatrix_", c, d);
    ChainNameShape("holdmatrix_", c, e);
    ChainNameShape("pickmatrix_", c, e);
    assert "multmatrix_"[0] == 'm' && "holdmatrix_"[0] == 'h' && "pickmatrix_"[0] == 'p';
    assert |off| > 11 + |c| ==> off[11 + |c|] == '1';
    assert off[|c|] == '_' && off[|c| + 1] == 'o';
    assert forall i :: 0 <= i < |TmpMult| - 1 && TmpMult[i] == '_' ==> TmpMult[i + 1] == 'm';
  }

  /** The constrained object is never one of the nodes named after it. */
  lemma ChainNamesAreNew(c: string, d: string)
    ensures c !in {MultName(c, d), HoldName(c, d), PickName(c, d)}
  {
    ChainNameShape("multmatrix_", c, d);
    ChainNameShape("holdmatrix_", c, d);
    ChainNameShape("pickmatrix_", c, d);
  }


  // ----- The chain of one driver (`_mount_system`) -----

  /** The driver's matrix as the chain sees it: a pickMatrix output, or the driver's world matrix. */
  function DriverMatrix(cfg: Config, d: string): Plug {
    if cfg.opts.pickMatrix then Plug(PickName(cfg.constrained, d), Named("outputMatrix")) else GetWorldMatrix(d)
  }

  /** The inputs of one driver's multMatrix, in order. */
  function ChainInputs(cfg: Config, d: string, parent: string): seq<Plug> {
    if cfg.opts.offset then
      [Plug(HoldName(cfg.constrained, d), Named("outMatrix")), DriverMatrix(cfg, d), GetWorldInverseMatrix(parent)]
    else
      [DriverMatrix(cfg, d), GetWorldInverseMatrix(parent)]
  }

  /**
   * With offset the chain is [hold output, driver matrix, parent's inverse],
   * without it [driver matrix, parent's inverse].
   */
  lemma ChainInputsShape(cfg: Config, d: string, parent: string)
    ensures var ins := ChainInputs(cfg, d, parent);
      && |ins| == (if cfg.opts.offset then 3 else 2)
      && ins[|ins| - 2] == DriverMatrix(cfg, d)
      && ins[|ins| - 1] == GetWorldInverseMatrix(parent)
      && PlugText(ins[|ins| - 1]) == parent + ".worldInverseMatrix[0]"
      && (cfg.opts.offset ==> PlugText(ins[0]) == HoldName(cfg.constrained, d) + ".outMatrix")
      && (!cfg.opts.pickMatrix ==> PlugText(ins[|ins| - 2]) == d + ".worldMatrix[0]")
  {
  }

  /** The names `_mount_system` for driver `d` asks for and then uses as given are free. */
  predicate MountNamesFree(kinds: map<string, string>, cfg: Config, d: string) {
    && MultName(cfg.constrained, d) !in kinds
    && (cfg.opts.offset ==> HoldName(cfg.constrained, d) !in kinds && TmpMult !in kinds)
    && (cfg.opts.pickMatrix ==> PickName(cfg.constrained, d) !in kinds)
  }

  /** The node types after the driver matrix of `_mount_system`: a pickMatrix is added when `pick_matrix` is on. */
  function MountDriverKinds(kinds: map<string, string>, cfg: Config, d: string): map<string, string> {
    if cfg.opts.pickMatrix then kinds[PickName(cfg.constrained, d) := "pickMatrix"] else kinds
  }

  /** The node types after `_mount_system` for driver `d`. */
  function MountKinds(kinds: map<string, string>, cfg: Config, d: string): map<string, string> {
    var c := cfg.constrained;
    var k1 := MountDriverKinds(kinds, cfg, d);
    var k2 := if cfg.opts.offset then k1[HoldName(c, d) := "holdMatrix"] else k1;
    k2[MultName(c, d) := "multMatrix"]
  }

  /** The connections the chain of driver `d` adds: the pickMatrix input, if any, and the multMatrix inputs. */
  function ChainLinks(links: map<Plug, Plug>, cfg: Config, d: string, parent: string): map<Plug, Plug> {
    var c := cfg.constrained;
    var l1 := if cfg.opts.pickMatrix then links[Plug(PickName(c, d), Named("inputMatrix")) := GetWorldMatrix(d)] else links;
    l1 + NodeFactory.MultInputs(ChainInputs(cfg, d, parent), MultName(c, d))
  }

  /** The connections after `_mount_system` for driver `d` whose constrained object has parent `parent`. */
  function MountLinks(links: map<Plug, Plug>, cfg: Config, d: string, parent: string): map<Plug, Plug> {
    var c := cfg.constrained;
    ChainLinks(links - {GetOffsetParentMatrix(c)}, cfg, d, parent)[GetOffsetParentMatrix(c) := Plug(MultName(c, d), Named("matrixSum"))]
  }

  /** The values after the driver matrix of `_mount_system`: a new pickMatrix's switches. */
  function DriverValues(values: map<Plug, Value>, cfg: Config, d: string): map<Plug, Value> {
    if cfg.opts.pickMatrix
    then NodeFactory.WithPickFlags(values, PickName(cfg.constrained, d), cfg.opts.translateAll, cfg.opts.rotateAll, cfg.opts.scaleAll, None)
    else values
  }

  /** No connection or value is on the hold output after the chain is built, when nothing was on the hold node before. */
  lemma HoldOutFree(links: map<Plug, Plug>, values: map<Plug, Value>, cfg: Config, d: string, parent: string)
    requires forall p :: p in links ==> p.node != HoldName(cfg.constrained, d)
    requires forall p :: p in values ==> p.node != HoldName(cfg.constrained, d)
    ensures Plug(HoldName(cfg.constrained, d), Named("outMatrix")) !in ChainLinks(links, cfg, d, parent)
    ensures Plug(HoldName(cfg.constrained, d), Named("outMatrix")) !in DriverValues(values, cfg, d)
  {
    var c := cfg.constrained;
    BuilderNamesDistinct(c, d, d, OffName(c));
    NodeFactory.PickFlagValues(values, PickName(c, d), cfg.opts.translateAll, cfg.opts.rotateAll, cfg.opts.scaleAll, None,
                               Plug(HoldName(c, d), Named("outMatrix")));
  }

  /** The values the chain of driver `d` writes: the pickMatrix switches and, for an unheld offset, the baked `matrixIn[0]`. */
  function ChainValues(values: map<Plug, Value>, cfg: Config, d: string): map<Plug, Value> {
    Baked(DriverValues(values, cfg, d), cfg, d)
  }

  /** With offset but no hold, `matrixIn[0]` of the multMatrix holds what the hold output read. */
  function Baked(values: map<Plug, Value>, cfg: Config, d: string): map<Plug, Value> {
    var c := cfg.constrained;
    if cfg.opts.offset && !cfg.opts.hold
    then values[NodeFactory.MatrixIn(MultName(c, d), 0) := Evaluated(Plug(HoldName(c, d), Named("outMatrix")))]
    else values
  }

  /** The attribute values after `_mount_system` for driver `d`; `kind` is the constrained object's type. */
  function MountValues(values: map<Plug, Value>, cfg: Config, d: string, kind: string): map<Plug, Value> {
    WithIdentity(ChainValues(values, cfg, d), cfg.constrained, kind)
  }

  /** The chain touches no connection into a plug of a node outside it. */
  lemma ChainLinksFrame(links: map<Plug, Plug>, cfg: Config, d: string, parent: string, dst: Plug)
    requires dst.node !in ChainNodes(cfg, d)
    ensures var r := ChainLinks(links, cfg, d, parent); (dst in r <==> dst in links) && (dst in links ==> r[dst] == links[dst])
  {
  }

  /** The nodes one `_mount_system` call leaves behind. */
  function ChainNodes(cfg: Config, d: string): set<string> {
    {MultName(cfg.constrained, d)}
    + (if cfg.opts.offset then {HoldName(cfg.constrained, d)} else {})
    + (if cfg.opts.pickMatrix then {PickName(cfg.constrained, d)} else {})
  }

  /** The chain adds its multMatrix, and the hold and pick nodes its options ask for, and retypes nothing. */
  lemma MountKindsSpec(kinds: map<string, string>, cfg: Config, d: string, n: string)
    ensures var r := MountKinds(kinds, cfg, d);
      && r.Keys == kinds.Keys + ChainNodes(cfg, d)
      && r[MultName(cfg.constrained, d)] == "multMatrix"
      && (cfg.opts.offset ==> r[HoldName(cfg.constrained, d)] == "holdMatrix")
      && (cfg.opts.pickMatrix ==> r[PickName(cfg.constrained, d)] == "pickMatrix")
      && (n in kinds && n !in ChainNodes(cfg, d) ==> r[n] == kinds[n])
  {
    BuilderNamesDistinct(cfg.constrained, d, d, OffName(cfg.constrained));
  }

  /**
   * After `_mount_system` the constrained object's offsetParentMatrix has this
   * chain's output as its one source; the multMatrix inputs are the chain
   * inputs in order; a pickMatrix reads the driver's world matrix; every other
   * connection into a plug of another node is as before.
   */
  lemma MountLinksSpec(links: map<Plug, Plug>, cfg: Config, d: string, parent: string, dst: Plug)
    ensures var r := MountLinks(links, cfg, d, parent); var c := cfg.constrained;
      var mm := MultName(c, d); var ins := ChainInputs(cfg, d, parent);
      && GetOffsetParentMatrix(c) in r && r[GetOffsetParentMatrix(c)] == Plug(mm, Named("matrixSum"))
      && (forall i :: 0 <= i < |ins| ==> NodeFactory.MatrixIn(mm, i) in r && r[NodeFactory.MatrixIn(mm, i)] == ins[i])
      && (cfg.opts.pickMatrix ==> r[Plug(PickName(c, d), Named("inputMatrix"))] == GetWorldMatrix(d))
      && (dst.node != mm && (cfg.opts.pickMatrix ==> dst.node != PickName(c, d)) && dst != GetOffsetParentMatrix(c) ==>
            (dst in r <==> dst in links) && (dst in links ==> r[dst] == links[dst]))
  {
    MountLinksWired(links, cfg, d, parent);
    MountLinksFrame(links, cfg, d, parent, dst);
  }

  /** The connections `_mount_system` makes. */
  lemma MountLinksWired(links: map<Plug, Plug>, cfg: Config, d: string, parent: string)
    ensures var r := MountLinks(links, cfg, d, parent); var c := cfg.constrained;
      var mm := MultName(c, d); var ins := ChainInputs(cfg, d, parent);
      && GetOffsetParentMatrix(c) in r && r[GetOffsetParentMatrix(c)] == Plug(mm, Named("matrixSum"))
      && (forall i :: 0 <= i < |ins| ==> NodeFactory.MatrixIn(mm, i) in r && r[NodeFactory.MatrixIn(mm, i)] == ins[i])
      && (cfg.opts.pickMatrix ==> r[Plug(PickName(c, d), Named("inputMatrix"))] == GetWorldMatrix(d))
  {
    ChainNamesAreNew(cfg.constrained, d);
    BuilderNamesDistinct(cfg.constrained, d, d, OffName(cfg.constrained));
    MountLinksInputs(links, cfg, d, parent);
  }

  /** The multMatrix inputs `_mount_system` connects. */
  lemma MountLinksInputs(links: map<Plug, Plug>, cfg: Config, d: string, parent: string)
    ensures var r := MountLinks(links, cfg, d, parent); var mm := MultName(cfg.constrained, d);
      var ins := ChainInputs(cfg, d, parent);
      forall i :: 0 <= i < |ins| ==> NodeFactory.MatrixIn(mm, i) in r && r[NodeFactory.MatrixIn(mm, i)] == ins[i]
  {
    ChainNamesAreNew(cfg.constrained, d);
  }

  /** The connections `_mount_system` leaves alone. */
  lemma MountLinksFrame(links: map<Plug, Plug>, cfg: Config, d: string, parent: string, dst: Plug)
    ensures var r := MountLinks(links, cfg, d, parent); var c := cfg.constrained; var mm := MultName(c, d);
      dst.node != mm && (cfg.opts.pickMatrix ==> dst.node != PickName(c, d)) && dst != GetOffsetParentMatrix(c) ==>
        (dst in r <==> dst in links) && (dst in links ==> r[dst] == links[dst])
  {
  }

  /**
   * After `_mount_system` the constrained object is at identity; a pickMatrix
   * has its translate, rotate and scale switches set from the `*_all` flags;
   * with offset but no hold, `matrixIn[0]` holds the value read from the hold
   * output; plugs of other nodes keep their values.
   */
  lemma MountValuesSpec(values: map<Plug, Value>, cfg: Config, d: string, kind: string, p: Plug)
    ensures var r := MountValues(values, cfg, d, kind); var c := cfg.constrained;
      var mm := MultName(c, d); var pk := PickName(c, d);
      && r[Plug(c, Named("translate"))] == Vec3(0, 0, 0)
      && r[Plug(c, Named("rotate"))] == Vec3(0, 0, 0)
      && r[Plug(c, Named("scale"))] == Vec3(1, 1, 1)
      && (cfg.opts.pickMatrix ==>
            && r[Plug(pk, Named("useTranslate"))] == Flag(cfg.opts.translateAll)
            && r[Plug(pk, Named("useRotate"))] == Flag(cfg.opts.rotateAll)
            && r[Plug(pk, Named("useScale"))] == Flag(cfg.opts.scaleAll))
      && (cfg.opts.offset && !cfg.opts.hold ==>
            r[NodeFactory.MatrixIn(mm, 0)] == Evaluated(Plug(HoldName(c, d), Named("outMatrix"))))
      && (p.node != c && p.node != mm && (cfg.opts.pickMatrix ==> p.node != pk) ==>
            (p in r <==> p in values) && (p in values ==> r[p] == values[p]))
  {
    var c := cfg.constrained;
    ChainNamesAreNew(c, d);
    NodeFactory.PickFlagValues(values, PickName(c, d), cfg.opts.translateAll, cfg.opts.rotateAll, cfg.opts.scaleAll, None, p);
    var v2 := ChainValues(values, cfg, d);
    IdentityValues(v2, c, kind, p);
    IdentityValues(v2, c, kind, Plug(PickName(c, d), Named("useTranslate")));
    IdentityValues(v2, c, kind, Plug(PickName(c, d), Named("useRotate")));
    IdentityValues(v2, c, kind, Plug(PickName(c, d), Named("useScale")));
    IdentityValues(v2, c, kind, NodeFactory.MatrixIn(MultName(c, d), 0));
  }

  // ----- Blend wiring -----

  function TargetMatrix(b: string, i: nat): Plug {
    Plug(b, Element("target", i, "targetMatrix"))
  }

  function WeightPlug(b: string, i: nat, w: string): Plug {
    Plug(b, Element("target", i, w))
  }

  predicate IsTargetMatrix(d: Plug, b: string) {
    d.node == b && d.attr.Element? && d.attr.arrayName == "target" && d.attr.child == "targetMatrix"
  }

  /** The indices of `b.target[i]` in use; `getAttr(b + ".target", size=True)` counts them. */
  function TargetIndices(links: map<Plug, Plug>, b: string): set<nat> {
    set d | d in links && IsTargetMatrix(d, b) :: d.attr.index
  }

  function TargetCount(links: map<Plug, Plug>, b: string): nat {
    |TargetIndices(links, b)|
  }

  /** Chain i+1 feeds `target[i].targetMatrix` of the blend, for the chains below `upto`. */
  function TargetInputs(mms: seq<string>, b: string, upto: nat): map<Plug, Plug>
    requires upto <= |mms|
  {
    if upto <= 1 then map[]
    else TargetInputs(mms, b, upto - 1)[TargetMatrix(b, upto - 2) := Plug(mms[upto - 1], Named("matrixSum"))]
  }

  /** Chain i+1 feeds target i for every i below `upto - 1`, and nothing else is wired. */
  lemma {:induction false} TargetInputsSpec(mms: seq<string>, b: string, upto: nat)
    requires upto <= |mms|
    ensures var r := TargetInputs(mms, b, upto);
      && (forall i: nat :: i + 1 < upto ==> TargetMatrix(b, i) in r && r[TargetMatrix(b, i)] == Plug(mms[i + 1], Named("matrixSum")))
      && (forall d :: d in r ==> IsTargetMatrix(d, b) && d.attr.index + 1 < upto)
  {
    if upto > 1 {
      TargetInputsSpec(mms, b, upto - 1);
    }
  }

  /** One more target connection extends the wiring by the next chain. */
  lemma TargetStep(links: map<Plug, Plug>, mms: seq<string>, b: string, idx: nat)
    requires 1 <= idx < |mms|
    requires forall d :: d in links ==> !IsTargetMatrix(d, b)
    ensures TargetMatrix(b, idx - 1) !in links + TargetInputs(mms, b, idx)
    ensures (links + TargetInputs(mms, b, idx))[TargetMatrix(b, idx - 1) := Plug(mms[idx], Named("matrixSum"))]
            == links + TargetInputs(mms, b, idx + 1)
  {
    TargetInputsSpec(mms, b, idx);
  }

  /** The connections after `_create_blend_matrix` wires the chains `mms` into blend `b` and `b` into the offsetParentMatrix of `c`. */
  function BlendLinks(links: map<Plug, Plug>, mms: seq<string>, b: string, c: string): map<Plug, Plug>
    requires |mms| >= 1
  {
    ((links[Plug(b, Named("inputMatrix")) := Plug(mms[0], Named("matrixSum"))] + TargetInputs(mms, b, |mms|))
      - {GetOffsetParentMatrix(c)})[GetOffsetParentMatrix(c) := Plug(b, Named("outputMatrix"))]
  }

  /** A set of naturals that is exactly 0 .. n-1 has n elements. */
  lemma {:induction false} RangeCount(s: set<nat>, n: nat)
    requires forall i: nat :: i in s <==> i < n
    ensures |s| == n
  {
    if n > 0 {
      RangeCount(s - {n - 1}, n - 1);
    } else {
      assert s == {};
    }
  }

  /** The blend's targets in use are exactly 0 .. |mms|-2. */
  lemma {:induction false} BlendTargets(links: map<Plug, Plug>, mms: seq<string>, b: string, c: string, i: nat)
    requires |mms| >= 1 && b != c
    requires forall d :: d in links ==> d.node != b
    ensures i in TargetIndices(BlendLinks(links, mms, b, c), b) <==> i + 1 < |mms|
  {
    var r := BlendLinks(links, mms, b, c);
    var t := TargetInputs(mms, b, |mms|);
    TargetInputsSpec(mms, b, |mms|);
    if i + 1 < |mms| {
      assert TargetMatrix(b, i) in t;
      assert TargetMatrix(b, i) in r && IsTargetMatrix(TargetMatrix(b, i), b);
    }
    if i in TargetIndices(r, b) {
      var d :| d in r && IsTargetMatrix(d, b) && d.attr.index == i;
      assert d in t;
    }
  }

  /**
   * Chain 0 feeds the blend's `inputMatrix`, chain i+1 feeds `target[i]`, the
   * blend output is the source of the offsetParentMatrix, the blend has
   * |mms| - 1 targets, and connections into other nodes' plugs are as before.
   */
  lemma BlendLinksSpec(links: map<Plug, Plug>, mms: seq<string>, b: string, c: string, dst: Plug)
    requires |mms| >= 1 && b != c
    requires forall d :: d in links ==> d.node != b
    ensures var r := BlendLinks(links, mms, b, c);
      && GetOffsetParentMatrix(c) in r && r[GetOffsetParentMatrix(c)] == Plug(b, Named("outputMatrix"))
      && Plug(b, Named("inputMatrix")) in r && r[Plug(b, Named("inputMatrix"))] == Plug(mms[0], Named("matrixSum"))
      && (forall i: nat :: i + 1 < |mms| ==> TargetMatrix(b, i) in r && r[TargetMatrix(b, i)] == Plug(mms[i + 1], Named("matrixSum")))
      && TargetCount(r, b) == |mms| - 1
      && (dst.node != b && dst != GetOffsetParentMatrix(c) ==> (dst in r <==> dst in links) && (dst in links ==> r[dst] == links[dst]))
  {
    TargetInputsSpec(mms, b, |mms|);
    var s := TargetIndices(BlendLinks(links, mms, b, c), b);
    forall i: nat
      ensures i in s <==> i < |mms| - 1
    {
      BlendTargets(links, mms, b, c, i);
    }
    RangeCount(s, |mms| - 1);
  }

  /** The weights `_blend_matrix_weights` writes on targets 0 .. count-1. */
  function WithWeights(values: map<Plug, Value>, b: string, count: nat, tw: Value, rw: Value, sw: Value): map<Plug, Value> {
    if count == 0 then values
    else
      WithWeights(values, b, count - 1, tw, rw, sw)
        [WeightPlug(b, count - 1, "translateWeight") := tw]
        [WeightPlug(b, count - 1, "rotateWeight") := rw]
        [WeightPlug(b, count - 1, "scaleWeight") := sw]
  }

  /** The plugs that get a weight: the three weights of each target below `count`. */
  predicate IsWeightPlug(p: Plug, b: string, count: nat) {
    p.node == b && p.attr.Element? && p.attr.arrayName == "target" && p.attr.index < count
    && p.attr.child in {"translateWeight", "rotateWeight", "scaleWeight"}
  }

  /**
   * Every target below `count` gets the three configured weights, and every
   * other plug keeps its value; with no target nothing is written.
   */
  lemma {:induction false} WeightsSpec(values: map<Plug, Value>, b: string, count: nat, tw: Value, rw: Value, sw: Value, p: Plug)
    ensures var m := WithWeights(values, b, count, tw, rw, sw);
      && (IsWeightPlug(p, b, count) ==> p in m && m[p] == (if p.attr.child == "translateWeight" then tw
                                                           else if p.attr.child == "rotateWeight" then rw else sw))
      && (!IsWeightPlug(p, b, count) ==> (p in m <==> p in values) && (p in values ==> m[p] == values[p]))
  {
    if count > 0 {
      WeightsSpec(values, b, count - 1, tw, rw, sw, p);
    }
  }

  /** `ParentCon.__init__` leaves the constrained object last in a non-empty object list. */
  predicate ConfigOk(cfg: Config) {
    cfg.objects != [] && cfg.constrained == cfg.objects[|cfg.objects| - 1]
  }

  lemma NewConfigOk(objectList: Option<seq<string>>, selection: seq<string>, opts: Options)
    requires NewConfig(objectList, selection, opts).Ok?
    ensures ConfigOk(NewConfig(objectList, selection, opts).value)
  {
  }

  // ----- All drivers (`create_constraint`) -----

  predicate Distinct(s: seq<string>) {
    forall i, j :: 0 <= i < j < |s| ==> s[i] != s[j]
  }

  /** The chain of driver `d` is wired: its multMatrix inputs in order, and its pickMatrix's input. */
  predicate ChainWired(links: map<Plug, Plug>, cfg: Config, d: string, parent: string) {
    var c := cfg.constrained;
    var ins := ChainInputs(cfg, d, parent);
    && (forall k :: 0 <= k < |ins| ==>
          NodeFactory.MatrixIn(MultName(c, d), k) in links && links[NodeFactory.MatrixIn(MultName(c, d), k)] == ins[k])
    && (cfg.opts.pickMatrix ==>
          Plug(PickName(c, d), Named("inputMatrix")) in links && links[Plug(PickName(c, d), Named("inputMatrix"))] == GetWorldMatrix(d))
  }

  /** The constrained object's channels read identity. */
  predicate AtIdentity(values: map<Plug, Value>, c: string, kind: string) {
    && Plug(c, Named("translate")) in values && values[Plug(c, Named("translate"))] == Vec3(0, 0, 0)
    && Plug(c, Named("rotate")) in values && values[Plug(c, Named("rotate"))] == Vec3(0, 0, 0)
    && Plug(c, Named("scale")) in values && values[Plug(c, Named("scale"))] == Vec3(1, 1, 1)
    && (kind == "joint" ==> Plug(c, Named("jointOrient")) in values && values[Plug(c, Named("jointOrient"))] == Vec3(0, 0, 0))
  }

  /** The nodes of two different drivers' chains are different. */
  lemma ChainNodesApart(c: string, d: string, e: string)
    requires d != e
    ensures HoldName(c, e) !in {MultName(c, d), HoldName(c, d), PickName(c, d)}
    ensures PickName(c, e) !in {MultName(c, d), HoldName(c, d), PickName(c, d)}
    ensures MultName(c, e) !in {MultName(c, d), HoldName(c, d), PickName(c, d)}
  {
    BuilderNamesDistinct(c, d, e, OffName(c));
    BuilderNamesDistinct(c, e, d, OffName(c));
    ChainNameInjective("multmatrix_", c, d, e);
    ChainNameInjective("holdmatrix_", c, d, e);
    ChainNameInjective("pickmatrix_", c, d, e);
  }

  /** Mounting driver `d` leaves the chain of another driver `e` wired. */
  lemma MountKeepsChain(links: map<Plug, Plug>, cfg: Config, d: string, e: string, parent: string)
    requires d != e && ChainWired(links, cfg, e, parent)
    ensures ChainWired(MountLinks(links, cfg, d, parent), cfg, e, parent)
  {
    var c := cfg.constrained;
    var r := MountLinks(links, cfg, d, parent);
    ChainNodesApart(c, d, e);
    ChainNamesAreNew(c, e);
    var ins := ChainInputs(cfg, e, parent);
    forall k | 0 <= k < |ins|
      ensures NodeFactory.MatrixIn(MultName(c, e), k) in r && r[NodeFactory.MatrixIn(MultName(c, e), k)] == ins[k]
    {
      MountLinksSpec(links, cfg, d, parent, NodeFactory.MatrixIn(MultName(c, e), k));
    }
    MountLinksSpec(links, cfg, d, parent, Plug(PickName(c, e), Named("inputMatrix")));
  }

  /** Mounting driver `drivers[i]` wires its chain and leaves the chains of the drivers before it wired. */
  lemma MountKeepsChains(links: map<Plug, Plug>, cfg: Config, drivers: seq<string>, i: nat, parent: string)
    requires i < |drivers| && Distinct(drivers)
    requires forall j :: 0 <= j < i ==> ChainWired(links, cfg, drivers[j], parent)
    ensures forall j :: 0 <= j <= i ==> ChainWired(MountLinks(links, cfg, drivers[i], parent), cfg, drivers[j], parent)
  {
    MountLinksSpec(links, cfg, drivers[i], parent, GetOffsetParentMatrix(cfg.constrained));
    forall j | 0 <= j < i
      ensures ChainWired(MountLinks(links, cfg, drivers[i], parent), cfg, drivers[j], parent)
    {
      MountKeepsChain(links, cfg, drivers[i], drivers[j], parent);
    }
  }

  /** Mounting one driver leaves the names of every other driver's chain free. */
  lemma MountKeepsNamesFree(kinds: map<string, string>, cfg: Config, d: string, e: string)
    requires d != e && MountNamesFree(kinds, cfg, e)
    ensures MountNamesFree(MountKinds(kinds, cfg, d), cfg, e)
  {
    ChainNodesApart(cfg.constrained, d, e);
    BuilderNamesDistinct(cfg.constrained, d, d, OffName(cfg.constrained));
    MountKindsSpec(kinds, cfg, d, "");
  }

  /** `_mount_system` leaves the constrained object at identity. */
  lemma MountAtIdentity(values: map<Plug, Value>, cfg: Config, d: string, kind: string)
    ensures AtIdentity(MountValues(values, cfg, d, kind), cfg.constrained, kind)
  {
    IdentityValues(ChainValues(values, cfg, d), cfg.constrained, kind, Plug(cfg.constrained, Named("translate")));
  }

  /** Wiring a new blend `b` keeps every chain wired: the blend touches only its own plugs and the offsetParentMatrix. */
  lemma BlendKeepsChains(links: map<Plug, Plug>, mms: seq<string>, b: string, cfg: Config, drivers: seq<string>, parent: string)
    requires |mms| >= 1 && b != cfg.constrained
    requires forall d :: d in links ==> d.node != b
    requires forall j :: 0 <= j < |drivers| ==> b !in ChainNodes(cfg, drivers[j])
    requires forall j :: 0 <= j < |drivers| ==> ChainWired(links, cfg, drivers[j], parent)
    ensures forall j :: 0 <= j < |drivers| ==> ChainWired(BlendLinks(links, mms, b, cfg.constrained), cfg, drivers[j], parent)
  {
    var c := cfg.constrained;
    var r := BlendLinks(links, mms, b, c);
    forall j | 0 <= j < |drivers|
      ensures ChainWired(r, cfg, drivers[j], parent)
    {
      var d := drivers[j];
      ChainNamesAreNew(c, d);
      var ins := ChainInputs(cfg, d, parent);
      forall k | 0 <= k < |ins|
        ensures NodeFactory.MatrixIn(MultName(c, d), k) in r && r[NodeFactory.MatrixIn(MultName(c, d), k)] == ins[k]
      {
        BlendLinksSpec(links, mms, b, c, NodeFactory.MatrixIn(MultName(c, d), k));
      }
      BlendLinksSpec(links, mms, b, c, Plug(PickName(c, d), Named("inputMatrix")));
    }
  }

  /** The nodes after the first `i` drivers are mounted: their multMatrix nodes exist, the later drivers' names are free. */
  predicate MountedNodes(kinds: map<string, string>, cfg: Config, drivers: seq<string>, i: nat, parent: string)
    requires i <= |drivers|
  {
    && cfg.constrained in kinds && parent in kinds
    && (forall j :: i <= j < |drivers| ==> drivers[j] in kinds && MountNamesFree(kinds, cfg, drivers[j]))
    && (forall j :: 0 <= j < i ==> ChainNodes(cfg, drivers[j]) <= kinds.Keys)
  }

  /** The connections after the first `i` drivers are mounted: their chains are wired, the last one into the offsetParentMatrix. */
  predicate MountedLinks(links: map<Plug, Plug>, cfg: Config, drivers: seq<string>, i: nat, parent: string)
    requires i <= |drivers|
  {
    var c := cfg.constrained;
    && (forall j :: 0 <= j < i ==> ChainWired(links, cfg, drivers[j], parent))
    && (i > 0 ==> GetOffsetParentMatrix(c) in links
                  && links[GetOffsetParentMatrix(c)] == Plug(MultName(c, drivers[i - 1]), Named("matrixSum")))
  }

  /** Mounting driver `i` adds its nodes, keeps the later drivers' names free and retypes no existing node. */
  lemma MountStepNodes(kinds: map<string, string>, cfg: Config, drivers: seq<string>, i: nat, parent: string)
    requires i < |drivers| && Distinct(drivers)
    requires MountedNodes(kinds, cfg, drivers, i, parent)
    ensures var k := MountKinds(kinds, cfg, drivers[i]);
      && kinds.Keys <= k.Keys && k[cfg.constrained] == kinds[cfg.constrained]
      && MountedNodes(k, cfg, drivers, i + 1, parent)
  {
    var c := cfg.constrained;
    ChainNamesAreNew(c, drivers[i]);
    MountKindsSpec(kinds, cfg, drivers[i], c);
    forall j | i < j < |drivers|
      ensures MountNamesFree(MountKinds(kinds, cfg, drivers[i]), cfg, drivers[j])
    {
      MountKeepsNamesFree(kinds, cfg, drivers[i], drivers[j]);
    }
  }

  /** The multMatrix of each driver, in driver order. */
  function MultNames(c: string, drivers: seq<string>): seq<string> {
    seq(|drivers|, j requires 0 <= j < |drivers| => MultName(c, drivers[j]))
  }

  /** The multMatrix names of the first `i` drivers, in driver order. */
  predicate MultNamesOf(mms: seq<string>, c: string, drivers: seq<string>, i: nat)
    requires i <= |drivers|
  {
    |mms| == i && forall j :: 0 <= j < i ==> mms[j] == MultName(c, drivers[j])
  }

  /** Appending driver `i`'s multMatrix extends the names by one driver. */
  lemma MultNamesStep(mms: seq<string>, c: string, drivers: seq<string>, i: nat)
    requires i < |drivers| && MultNamesOf(mms, c, drivers, i)
    ensures MultNamesOf(mms + [MultName(c, drivers[i])], c, drivers, i + 1)
  {
  }

  lemma MultNamesAll(mms: seq<string>, c: string, drivers: seq<string>)
    requires MultNamesOf(mms, c, drivers, |drivers|)
    ensures mms == MultNames(c, drivers)
  {
  }

  /** The node types after `_mount_system` has run for each driver in turn. */
  function MountAllKinds(kinds: map<string, string>, cfg: Config, drivers: seq<string>): map<string, string>
    decreases |drivers|
  {
    if drivers == [] then kinds
    else MountKinds(MountAllKinds(kinds, cfg, drivers[..|drivers| - 1]), cfg, drivers[|drivers| - 1])
  }

  /** The node types once `create_constraint` has its parent: a new offset group `parent` is a transform. */
  function ResolvedKinds(kinds: map<string, string>, parents: map<string, string>, c: string, parent: string): map<string, string> {
    if c in parents then kinds else kinds[parent := "transform"]
  }

  /**
   * After the parent is resolved and every driver mounted, the nodes are the
   * old ones, the parent and the chains' nodes, and no new node is a blendMatrix.
   */
  lemma ResolvedMountKinds(kinds: map<string, string>, parents: map<string, string>, cfg: Config, parent: string)
    requires cfg.constrained in parents ==> parent in kinds
    requires ConfigOk(cfg)
    ensures var r := MountAllKinds(ResolvedKinds(kinds, parents, cfg.constrained, parent), cfg, Drivers(cfg));
      && r.Keys == kinds.Keys + {parent} + AllChainNodes(cfg, Drivers(cfg))
      && forall n :: n in r && r[n] == "blendMatrix" ==> n in kinds && kinds[n] == "blendMatrix"
  {
    MountAllAddsNoBlend(ResolvedKinds(kinds, parents, cfg.constrained, parent), cfg, Drivers(cfg));
  }

  /** Setting a key adds it to the keys. */
  lemma UpdatedKeys(m: map<string, string>, k: string, v: string)
    ensures m[k := v].Keys == m.Keys + {k}
  {
  }

  /** Mounting driver `i` after the first `i` drivers gives the node types of the first `i + 1`. */
  lemma MountAllKindsStep(kinds: map<string, string>, cfg: Config, drivers: seq<string>, i: nat)
    requires i < |drivers|
    ensures MountKinds(MountAllKinds(kinds, cfg, drivers[..i]), cfg, drivers[i]) == MountAllKinds(kinds, cfg, drivers[..i + 1])
  {
    assert drivers[..i + 1][..i] == drivers[..i];
  }

  /** The nodes the chains of all drivers leave behind. */
  function AllChainNodes(cfg: Config, drivers: seq<string>): set<string>
    decreases |drivers|
  {
    if drivers == [] then {} else AllChainNodes(cfg, drivers[..|drivers| - 1]) + ChainNodes(cfg, drivers[|drivers| - 1])
  }

  /**
   * Mounting every driver adds exactly the chains' nodes, each a multMatrix,
   * holdMatrix or pickMatrix, and retypes no node outside the chains.
   */
  lemma {:induction false} MountAllKindsSpec(kinds: map<string, string>, cfg: Config, drivers: seq<string>, n: string)
    ensures var r := MountAllKinds(kinds, cfg, drivers);
      && r.Keys == kinds.Keys + AllChainNodes(cfg, drivers)
      && (n in kinds && n !in AllChainNodes(cfg, drivers) ==> r[n] == kinds[n])
      && (n in AllChainNodes(cfg, drivers) ==> r[n] in {"multMatrix", "holdMatrix", "pickMatrix"})
    decreases |drivers|
  {
    if drivers != [] {
      var init := drivers[..|drivers| - 1];
      MountAllKindsSpec(kinds, cfg, init, n);
      MountKindsSpec(MountAllKinds(kinds, cfg, init), cfg, drivers[|drivers| - 1], n);
    }
  }

  /** The constrained object is none of the chains' nodes. */
  lemma {:induction false} ConstrainedNotChained(cfg: Config, drivers: seq<string>)
    ensures cfg.constrained !in AllChainNodes(cfg, drivers)
    decreases |drivers|
  {
    if drivers != [] {
      ConstrainedNotChained(cfg, drivers[..|drivers| - 1]);
      ChainNamesAreNew(cfg.constrained, drivers[|drivers| - 1]);
    }
  }

  /** Mounting keeps every node, and the constrained object's type. */
  lemma MountAllKeepsOld(kinds: map<string, string>, cfg: Config, drivers: seq<string>)
    ensures kinds.Keys <= MountAllKinds(kinds, cfg, drivers).Keys
    ensures cfg.constrained in kinds ==> MountAllKinds(kinds, cfg, drivers)[cfg.constrained] == kinds[cfg.constrained]
  {
    ConstrainedNotChained(cfg, drivers);
    MountAllKindsSpec(kinds, cfg, drivers, cfg.constrained);
  }

  /** Hence mounting creates no blendMatrix: every blendMatrix afterwards was one before. */
  lemma MountAllAddsNoBlend(kinds: map<string, string>, cfg: Config, drivers: seq<string>)
    ensures var r := MountAllKinds(kinds, cfg, drivers);
      && r.Keys == kinds.Keys + AllChainNodes(cfg, drivers)
      && forall n :: n in r && r[n] == "blendMatrix" ==> n in kinds && kinds[n] == "blendMatrix"
  {
    MountAllKindsSpec(kinds, cfg, drivers, "");
    forall n | n in MountAllKinds(kinds, cfg, drivers) && MountAllKinds(kinds, cfg, drivers)[n] == "blendMatrix"
      ensures n in kinds && kinds[n] == "blendMatrix"
    {
      MountAllKindsSpec(kinds, cfg, drivers, n);
    }
  }

  /** Mounting driver `i` wires its chain into the offsetParentMatrix and keeps the earlier chains wired. */
  lemma MountStepLinks(links: map<Plug, Plug>, cfg: Config, drivers: seq<string>, i: nat, parent: string)
    requires i < |drivers| && Distinct(drivers)
    requires MountedLinks(links, cfg, drivers, i, parent)
    ensures MountedLinks(MountLinks(links, cfg, drivers[i], parent), cfg, drivers, i + 1, parent)
  {
    MountKeepsChains(links, cfg, drivers, i, parent);
    MountLinksSpec(links, cfg, drivers[i], parent, GetOffsetParentMatrix(cfg.constrained));
  }

  /** The offset group `create_constraint` creates takes none of the names the chains need. */
  lemma OffKeepsNamesFree(kinds: map<string, string>, cfg: Config, drivers: seq<string>, off: string)
    requires RenamedFrom(off, OffName(cfg.constrained))
    requires forall j :: 0 <= j < |drivers| ==> MountNamesFree(kinds, cfg, drivers[j])
    ensures forall j :: 0 <= j < |drivers| ==> MountNamesFree(kinds[off := "transform"], cfg, drivers[j])
  {
    forall j | 0 <= j < |drivers|
      ensures MountNamesFree(kinds[off := "transform"], cfg, drivers[j])
    {
      BuilderNamesDistinct(cfg.constrained, drivers[j], drivers[j], off);
    }
  }

  /** The constraint is in place for drivers `drivers` under `parent`: every chain wired, the constrained object at identity. */
  predicate ChainsInPlace(links: map<Plug, Plug>, values: map<Plug, Value>, kind: string, cfg: Config, drivers: seq<string>, parent: string) {
    && (forall j :: 0 <= j < |drivers| ==> ChainWired(links, cfg, drivers[j], parent))
    && AtIdentity(values, cfg.constrained, kind)
  }

  /**
   * The blend `b` over the chains `mms` is in place: chain 0 is its base, chain
   * i+1 its target i, it has |mms|-1 targets, each with the configured weights,
   * and its output is the constrained object's one offsetParentMatrix source.
   */
  predicate BlendWired(links: map<Plug, Plug>, values: map<Plug, Value>, cfg: Config, mms: seq<string>, b: string)
    requires |mms| >= 1
  {
    BlendLinked(links, cfg.constrained, mms, b) && BlendWeighted(values, cfg, mms, b)
  }

  /** The connections of a blend in place. */
  predicate BlendLinked(links: map<Plug, Plug>, c: string, mms: seq<string>, b: string)
    requires |mms| >= 1
  {
    && GetOffsetParentMatrix(c) in links && links[GetOffsetParentMatrix(c)] == Plug(b, Named("outputMatrix"))
    && Plug(b, Named("inputMatrix")) in links && links[Plug(b, Named("inputMatrix"))] == Plug(mms[0], Named("matrixSum"))
    && (forall i: nat :: i + 1 < |mms| ==>
          TargetMatrix(b, i) in links && links[TargetMatrix(b, i)] == Plug(mms[i + 1], Named("matrixSum")))
    && TargetCount(links, b) == |mms| - 1
  }

  /** The weights of a blend in place. */
  predicate BlendWeighted(values: map<Plug, Value>, cfg: Config, mms: seq<string>, b: string)
  {
    forall i: nat :: i + 1 < |mms| ==>
      && WeightPlug(b, i, "translateWeight") in values && values[WeightPlug(b, i, "translateWeight")] == cfg.opts.translateBlend
      && WeightPlug(b, i, "rotateWeight") in values && values[WeightPlug(b, i, "rotateWeight")] == cfg.opts.rotateBlend
      && WeightPlug(b, i, "scaleWeight") in values && values[WeightPlug(b, i, "scaleWeight")] == cfg.opts.scaleBlend
  }

  /** The weights the blend writes touch no plug of the constrained object. */
  lemma WeightsKeepIdentity(values: map<Plug, Value>, b: string, count: nat, tw: Value, rw: Value, sw: Value, c: string, kind: string)
    requires b != c && AtIdentity(values, c, kind)
    ensures AtIdentity(WithWeights(values, b, count, tw, rw, sw), c, kind)
  {
    WeightsSpec(values, b, count, tw, rw, sw, Plug(c, Named("translate")));
    WeightsSpec(values, b, count, tw, rw, sw, Plug(c, Named("rotate")));
    WeightsSpec(values, b, count, tw, rw, sw, Plug(c, Named("scale")));
    WeightsSpec(values, b, count, tw, rw, sw, Plug(c, Named("jointOrient")));
  }

  /** Every target below `count` carries the three weights. */
  lemma WeightsWritten(values: map<Plug, Value>, b: string, count: nat, tw: Value, rw: Value, sw: Value)
    ensures var m := WithWeights(values, b, count, tw, rw, sw);
      forall i: nat :: i < count ==>
        && WeightPlug(b, i, "translateWeight") in m && m[WeightPlug(b, i, "translateWeight")] == tw
        && WeightPlug(b, i, "rotateWeight") in m && m[WeightPlug(b, i, "rotateWeight")] == rw
        && WeightPlug(b, i, "scaleWeight") in m && m[WeightPlug(b, i, "scaleWeight")] == sw
  {
    forall i: nat | i < count
      ensures var m := WithWeights(values, b, count, tw, rw, sw);
        && WeightPlug(b, i, "translateWeight") in m && m[WeightPlug(b, i, "translateWeight")] == tw
        && WeightPlug(b, i, "rotateWeight") in m && m[WeightPlug(b, i, "rotateWeight")] == rw
        && WeightPlug(b, i, "scaleWeight") in m && m[WeightPlug(b, i, "scaleWeight")] == sw
    {
      WeightsSpec(values, b, count, tw, rw, sw, WeightPlug(b, i, "translateWeight"));
      WeightsSpec(values, b, count, tw, rw, sw, WeightPlug(b, i, "rotateWeight"));
      WeightsSpec(values, b, count, tw, rw, sw, WeightPlug(b, i, "scaleWeight"));
    }
  }

  /** The blend keeps every chain wired and the constrained object at identity. */
  lemma BlendKeepsInPlace(links: map<Plug, Plug>, values: map<Plug, Value>, kind: string, cfg: Config,
                          drivers: seq<string>, parent: string, mms: seq<string>, b: string)
    requires |mms| >= 1 && b != cfg.constrained
    requires forall d :: d in links ==> d.node != b
    requires forall j :: 0 <= j < |drivers| ==> b !in ChainNodes(cfg, drivers[j])
    requires ChainsInPlace(links, values, kind, cfg, drivers, parent)
    ensures ChainsInPlace(BlendLinks(links, mms, b, cfg.constrained),
                          WithWeights(values, b, |mms| - 1, cfg.opts.translateBlend, cfg.opts.rotateBlend, cfg.opts.scaleBlend),
                          kind, cfg, drivers, parent)
  {
    BlendKeepsChains(links, mms, b, cfg, drivers, parent);
    WeightsKeepIdentity(values, b, |mms| - 1, cfg.opts.translateBlend, cfg.opts.rotateBlend, cfg.opts.scaleBlend, cfg.constrained, kind);
  }

  /** The blend over `mms` is wired and weighted. */
  lemma BlendIsWired(links: map<Plug, Plug>, values: map<Plug, Value>, cfg: Config, mms: seq<string>, b: string)
    requires |mms| >= 1 && b != cfg.constrained
    requires forall d :: d in links ==> d.node != b
    ensures BlendWired(BlendLinks(links, mms, b, cfg.constrained),
                       WithWeights(values, b, |mms| - 1, cfg.opts.translateBlend, cfg.opts.rotateBlend, cfg.opts.scaleBlend),
                       cfg, mms, b)
  {
    BlendIsLinked(links, cfg.constrained, mms, b);
    BlendIsWeighted(values, cfg, mms, b);
  }

  lemma BlendIsLinked(links: map<Plug, Plug>, c: string, mms: seq<string>, b: string)
    requires |mms| >= 1 && b != c
    requires forall d :: d in links ==> d.node != b
    ensures BlendLinked(BlendLinks(links, mms, b, c), c, mms, b)
  {
    BlendLinksSpec(links, mms, b, c, GetOffsetParentMatrix(c));
  }

  lemma BlendIsWeighted(values: map<Plug, Value>, cfg: Config, mms: seq<string>, b: string)
    requires |mms| >= 1
    ensures BlendWeighted(WithWeights(values, b, |mms| - 1, cfg.opts.translateBlend, cfg.opts.rotateBlend, cfg.opts.scaleBlend), cfg, mms, b)
  {
    WeightsWritten(values, b, |mms| - 1, cfg.opts.translateBlend, cfg.opts.rotateBlend, cfg.opts.scaleBlend);
  }

  /**
   * `_create_blend_matrix` over the chains of all drivers puts the blend in
   * place and keeps every chain wired and the constrained object at identity.
   */
  lemma BlendInPlace(links: map<Plug, Plug>, values: map<Plug, Value>, kind: string, cfg: Config,
                     drivers: seq<string>, parent: string, mms: seq<string>, b: string)
    requires |mms| >= 1 && b != cfg.constrained
    requires forall d :: d in links ==> d.node != b
    requires forall j :: 0 <= j < |drivers| ==> b !in ChainNodes(cfg, drivers[j])
    requires ChainsInPlace(links, values, kind, cfg, drivers, parent)
    ensures var l := BlendLinks(links, mms, b, cfg.constrained);
      var v := WithWeights(values, b, |mms| - 1, cfg.opts.translateBlend, cfg.opts.rotateBlend, cfg.opts.scaleBlend);
      ChainsInPlace(l, v, kind, cfg, drivers, parent) && BlendWired(l, v, cfg, mms, b)
  {
    BlendKeepsInPlace(links, values, kind, cfg, drivers, parent, mms, b);
    BlendIsWired(links, values, cfg, mms, b);
  }

  // ----- The builder -----

  /** What the end of `_mount_system` needs of the scene the chain leaves, when the chain's names were free. */
  lemma MountPrereqs(kinds: map<string, string>, links: map<Plug, Plug>, values: map<Plug, Value>, locked: set<Plug>,
                     cfg: Config, d: string, parent: string)
    requires forall p :: p in links ==> p.node in kinds
    requires forall p :: p in values ==> p.node in kinds
    requires forall p :: p in locked ==> p.node in kinds
    requires cfg.constrained in kinds && MountNamesFree(kinds, cfg, d)
    requires GetOffsetParentMatrix(cfg.constrained) !in links
    ensures var k := MountKinds(kinds, cfg, d); var l := ChainLinks(links, cfg, d, parent);
      var v := DriverValues(values, cfg, d); var c := cfg.constrained; var hold := HoldName(c, d);
      && c in k && k[c] == kinds[c] && MultName(c, d) in k
      && (cfg.opts.offset ==> hold in k && k[hold] == "holdMatrix"
                              && Plug(hold, Named("outMatrix")) !in l && Plug(hold, Named("outMatrix")) !in v
                              && Plug(hold, Named("outMatrix")) !in locked)
      && NodeFactory.MatrixIn(MultName(c, d), 0) !in locked
      && GetOffsetParentMatrix(c) !in l
  {
    var c := cfg.constrained;
    ChainNamesAreNew(c, d);
    MountKindsSpec(kinds, cfg, d, c);
    ChainLinksFrame(links, cfg, d, parent, GetOffsetParentMatrix(c));
    if cfg.opts.offset {
      HoldOutFree(links, values, cfg, d, parent);
    }
  }

  /** Creating a scratch node and another node, then deleting the scratch node, leaves just the other. */
  lemma ScratchThenDelete(kinds: map<string, string>, t: string, n: string, kt: string, kn: string)
    requires t !in kinds && t != n
    ensures kinds[t := kt][n := kn] - {t} == kinds[n := kn]
  {
  }

  /** `disconnect_input(attr)`: every incoming connection of `attr` is cut. */
  method DisconnectInput(scene: Scene, attr: Plug)
    requires scene.Valid() && attr !in scene.locked
    modifies scene`links
    ensures scene.Valid()
    ensures scene.links == old(scene.links) - {attr}
  {
    var connections := scene.Sources(attr);
    var i := 0;
    while i < |connections|
      invariant 0 <= i <= |connections|
      invariant scene.Valid()
      invariant scene.links == if i == 0 then old(scene.links) else old(scene.links) - {attr}
    {
      scene.Disconnect(connections[i], attr);
      i := i + 1;
    }
  }

  class ParentCon {
    const cfg: Config
    var blendMatrixNode: Option<string>

    constructor (cfg: Config)
      ensures this.cfg == cfg && blendMatrixNode == None
    {
      this.cfg := cfg;
      blendMatrixNode := None;
    }

    /**
     * `hold_matrix(constrainer, constrained, name)`: a holdMatrix is fed by a
     * scratch multMatrix of the constrained's world matrix and the
     * constrainer's inverse, then cut off from it and the scratch node deleted,
     * so the hold keeps the offset as a constant. Returns its output plug.
     */
    method HoldMatrix(scene: Scene, constrainer: string, constrained: string, name: string) returns (out: Plug)
      requires scene.Valid()
      requires constrainer in scene.kinds && constrained in scene.kinds
      requires name !in scene.kinds && TmpMult !in scene.kinds && name != TmpMult
      modifies scene`kinds, scene`links, scene`values, scene`parents, scene`locked, scene`userAttrs
      ensures scene.Valid()
      ensures out == Plug(name, Named("outMatrix"))
      ensures scene.kinds == old(scene.kinds)[name := "holdMatrix"]
      ensures scene.links == old(scene.links)
      ensures scene.values == old(scene.values) && scene.parents == old(scene.parents)
      ensures scene.locked == old(scene.locked) && scene.userAttrs == old(scene.userAttrs)
    {
      DeleteUnreferenced(scene.kinds, scene.links, scene.values, scene.userAttrs, scene.parents, scene.locked, scene.lockedNodes, TmpMult);
      ScratchThenDelete(scene.kinds, TmpMult, name, "multMatrix", "holdMatrix");
      var ins := [GetWorldMatrix(constrained), GetWorldInverseMatrix(constrainer)];
      LinksOffAdded(scene.links, NodeFactory.MultInputs(ins, TmpMult), TmpMult);
      FeedHold(scene, ins, name);
      scene.DeleteNode(TmpMult);
      out := Plug(name, Named("outMatrix"));
    }

    /** The part of `hold_matrix` before the scratch node is deleted: the hold ends up with no input. */
    method FeedHold(scene: Scene, ins: seq<Plug>, name: string)
      requires scene.Valid()
      requires forall i :: 0 <= i < |ins| ==> ins[i].node in scene.kinds
      requires name !in scene.kinds && TmpMult !in scene.kinds && name != TmpMult
      modifies scene`kinds, scene`links
      ensures scene.Valid()
      ensures scene.kinds == old(scene.kinds)[TmpMult := "multMatrix"][name := "holdMatrix"]
      ensures scene.links == old(scene.links) + NodeFactory.MultInputs(ins, TmpMult)
    {
      var tmp, _ := NodeFactory.MultMatrix(scene, ins, TmpMult);
      ConnectThenCut(scene.links, Plug(name, Named("inMatrix")), Plug(TmpMult, Named("matrixSum")));
      var h := NodeFactory.HoldMatrix(scene, TmpMult, name);
      DisconnectInput(scene, GetInMatrix(name, scene.KindOf(name)));
    }

    /** The decompose/compose pair of `_driver_node`, fed by the driver's world matrix. */
    method DecomposedDriver(scene: Scene, d: string) returns (dec: string, comp: string, out: Plug)
      requires scene.Valid() && d in scene.kinds
      modifies scene`kinds, scene`links
      ensures scene.Valid()
      ensures dec !in old(scene.kinds) && comp !in old(scene.kinds) && dec != comp && comp != d
      ensures RenamedFrom(dec, "decompose_" + d) && RenamedFrom(comp, d)
      ensures out == Plug(comp, Named("outputMatrix"))
      ensures scene.values == old(scene.values)
      ensures scene.kinds == old(scene.kinds)[dec := "decomposeMatrix"][comp := "composeMatrix"]
      ensures scene.links == old(scene.links)[Plug(dec, Named("inputMatrix")) := GetWorldMatrix(d)]
                             + NodeFactory.ComposeInputs(dec, comp, cfg.translate, cfg.rotate, cfg.scale, cfg.shear)
    {
      dec := NodeFactory.DecomposeMatrix(scene, GetWorldMatrix(d), "decompose_" + d);
      comp, out := NodeFactory.ComposeMatrix(scene, dec, d, cfg.translate, cfg.rotate, cfg.scale, cfg.shear);
    }

    /**
     * `_driver_node(d)`: the driver's matrix from the source
     * `ChooseDriverSource` picks. `made` are the nodes it creates.
     */
    method DriverNode(scene: Scene, d: string) returns (out: Plug, ghost made: seq<string>)
      requires scene.Valid() && d in scene.kinds
      modifies scene`kinds, scene`links, scene`values
      ensures scene.Valid()
      ensures ChooseDriverSource(cfg) == WorldMatrix ==>
        out == GetWorldMatrix(d) && made == [] && scene.kinds == old(scene.kinds)
        && scene.links == old(scene.links)
      ensures ChooseDriverSource(cfg) == PickMatrixNode ==>
        && |made| == 1 && made[0] !in old(scene.kinds) && RenamedFrom(made[0], PickName(cfg.constrained, d))
        && out == Plug(made[0], Named("outputMatrix"))
        && scene.kinds == old(scene.kinds)[made[0] := "pickMatrix"]
        && scene.links == old(scene.links)[Plug(made[0], Named("inputMatrix")) := GetWorldMatrix(d)]
      ensures ChooseDriverSource(cfg) == DecomposeCompose ==>
        && |made| == 2 && made[0] !in old(scene.kinds) && made[1] !in old(scene.kinds) && made[0] != made[1]
        && RenamedFrom(made[0], "decompose_" + d) && RenamedFrom(made[1], d) && made[1] != d
        && out == Plug(made[1], Named("outputMatrix"))
        && scene.kinds == old(scene.kinds)[made[0] := "decomposeMatrix"][made[1] := "composeMatrix"]
        && scene.links == old(scene.links)[Plug(made[0], Named("inputMatrix")) := GetWorldMatrix(d)]
                          + NodeFactory.ComposeInputs(made[0], made[1], cfg.translate, cfg.rotate, cfg.scale, cfg.shear)
      ensures ChooseDriverSource(cfg) == PickMatrixNode ==>
        scene.values == NodeFactory.WithPickFlags(old(scene.values), made[0], cfg.opts.translateAll,
                          cfg.opts.rotateAll, cfg.opts.scaleAll, Some(cfg.opts.shearAll))
      ensures ChooseDriverSource(cfg) != PickMatrixNode ==> scene.values == old(scene.values)
    {
      var source := ChooseDriverSource(cfg);
      if source == PickMatrixNode {
        var pk;
        pk, out := NodeFactory.PickMatrix(scene, GetWorldMatrix(d), PickName(cfg.constrained, d),
                                          cfg.opts.translateAll, cfg.opts.rotateAll, cfg.opts.scaleAll, Some(cfg.opts.shearAll));
        made := [pk];
      } else if source == DecomposeCompose {
        var dec, comp;
        dec, comp, out := DecomposedDriver(scene, d);
        made := [dec, comp];
      } else {
        out := GetWorldMatrix(d);
        made := [];
      }
    }

    /**
     * `_mount_system(d, parent)`: cuts the constrained object's
     * offsetParentMatrix input, builds the driver's chain (its pickMatrix, its
     * hold, its multMatrix), bakes the hold value into `matrixIn[0]` when the
     * offset is not held, feeds the chain into the offsetParentMatrix and
     * resets the constrained object to identity. Returns the multMatrix name.
     */
    method MountSystem(scene: Scene, d: string, parent: string) returns (mm: string)
      requires scene.Valid()
      requires cfg.constrained in scene.kinds && d in scene.kinds && parent in scene.kinds
      requires MountNamesFree(scene.kinds, cfg, d)
      requires GetOffsetParentMatrix(cfg.constrained) !in scene.locked && IdentityWritable(scene, cfg.constrained)
      modifies scene`kinds, scene`links, scene`values, scene`parents, scene`locked, scene`userAttrs
      ensures scene.Valid()
      ensures mm == MultName(cfg.constrained, d)
      ensures scene.kinds == MountKinds(old(scene.kinds), cfg, d)
      ensures scene.links == MountLinks(old(scene.links), cfg, d, parent)
      ensures scene.values == MountValues(old(scene.values), cfg, d, old(scene.kinds)[cfg.constrained])
      ensures scene.parents == old(scene.parents) && scene.locked == old(scene.locked) && scene.userAttrs == old(scene.userAttrs)
    {
      var c := cfg.constrained;
      DisconnectInput(scene, GetOffsetParentMatrix(c));
      MountPrereqs(scene.kinds, scene.links, scene.values, scene.locked, cfg, d, parent);
      var out;
      mm, out := BuildChain(scene, d, parent);
      FinishMount(scene, d);
    }

    /**
     * The driver loop of `create_constraint`: `_mount_system` for each driver
     * in turn, collecting the multMatrix names. Every chain stays wired, and
     * the last chain feeds the offsetParentMatrix.
     */
    method MountAll(scene: Scene, drivers: seq<string>, parent: string) returns (mms: seq<string>)
      requires scene.Valid() && Distinct(drivers)
      requires cfg.constrained in scene.kinds && parent in scene.kinds
      requires forall j :: 0 <= j < |drivers| ==> drivers[j] in scene.kinds && MountNamesFree(scene.kinds, cfg, drivers[j])
      requires GetOffsetParentMatrix(cfg.constrained) !in scene.locked && IdentityWritable(scene, cfg.constrained)
      modifies scene`kinds, scene`links, scene`values, scene`parents, scene`locked, scene`userAttrs
      ensures scene.Valid()
      ensures mms == MultNames(cfg.constrained, drivers)
      ensures forall j :: 0 <= j < |drivers| ==>
        ChainWired(scene.links, cfg, drivers[j], parent) && mms[j] in scene.kinds && ChainNodes(cfg, drivers[j]) <= scene.kinds.Keys
      ensures |drivers| > 0 ==>
        && GetOffsetParentMatrix(cfg.constrained) in scene.links
        && scene.links[GetOffsetParentMatrix(cfg.constrained)] == Plug(mms[|drivers| - 1], Named("matrixSum"))
        && AtIdentity(scene.values, cfg.constrained, scene.kinds[cfg.constrained])
      ensures old(scene.kinds).Keys <= scene.kinds.Keys && scene.kinds[cfg.constrained] == old(scene.kinds)[cfg.constrained]
      ensures scene.kinds == MountAllKinds(old(scene.kinds), cfg, drivers)
      ensures scene.parents == old(scene.parents) && scene.locked == old(scene.locked) && scene.userAttrs == old(scene.userAttrs)
    {
      var c := cfg.constrained;
      ghost var kinds0 := scene.kinds;
      mms := [];
      for i := 0 to |drivers|
        invariant scene.Valid()
        invariant scene.parents == old(scene.parents) && scene.locked == old(scene.locked) && scene.userAttrs == old(scene.userAttrs)
        invariant IdentityWritable(scene, c)
        invariant MountedNodes(scene.kinds, cfg, drivers, i, parent)
        invariant MountedLinks(scene.links, cfg, drivers, i, parent)
        invariant i > 0 ==> AtIdentity(scene.values, c, scene.kinds[c])
        invariant MultNamesOf(mms, c, drivers, i)
        invariant scene.kinds == MountAllKinds(kinds0, cfg, drivers[..i])
      {
        var mm := MountNext(scene, drivers, i, parent, kinds0);
        MultNamesStep(mms, c, drivers, i);
        mms := mms + [mm];
      }
      MultNamesAll(mms, c, drivers);
      assert drivers[..|drivers|] == drivers;
      MountAllKeepsOld(kinds0, cfg, drivers);
    }

    /** One round of `MountAll`: mounting driver `i` after the first `i` drivers. */
    method MountNext(scene: Scene, drivers: seq<string>, i: nat, parent: string, ghost kinds0: map<string, string>) returns (mm: string)
      requires scene.Valid() && Distinct(drivers) && i < |drivers|
      requires GetOffsetParentMatrix(cfg.constrained) !in scene.locked && IdentityWritable(scene, cfg.constrained)
      requires MountedNodes(scene.kinds, cfg, drivers, i, parent) && MountedLinks(scene.links, cfg, drivers, i, parent)
      requires scene.kinds == MountAllKinds(kinds0, cfg, drivers[..i])
      modifies scene`kinds, scene`links, scene`values, scene`parents, scene`locked, scene`userAttrs
      ensures scene.Valid() && IdentityWritable(scene, cfg.constrained)
      ensures mm == MultName(cfg.constrained, drivers[i])
      ensures scene.kinds == MountAllKinds(kinds0, cfg, drivers[..i + 1])
      ensures old(scene.kinds).Keys <= scene.kinds.Keys && scene.kinds[cfg.constrained] == old(scene.kinds)[cfg.constrained]
      ensures MountedNodes(scene.kinds, cfg, drivers, i + 1, parent) && MountedLinks(scene.links, cfg, drivers, i + 1, parent)
      ensures AtIdentity(scene.values, cfg.constrained, scene.kinds[cfg.constrained])
      ensures scene.parents == old(scene.parents) && scene.locked == old(scene.locked) && scene.userAttrs == old(scene.userAttrs)
    {
      ghost var k0, l0, v0 := scene.kinds, scene.links, scene.values;
      mm := MountSystem(scene, drivers[i], parent);
      MountAllKindsStep(kinds0, cfg, drivers, i);
      MountStepNodes(k0, cfg, drivers, i, parent);
      MountStepLinks(l0, cfg, drivers, i, parent);
      MountAtIdentity(v0, cfg, drivers[i], k0[cfg.constrained]);
    }

    /**
     * The parent `create_constraint` mounts under: the constrained object's
     * parent, or else a new `<constrained>_off` transform the object is
     * parented under (the selection is cleared).
     */
    method ResolveParent(scene: Scene) returns (parent: string)
      requires scene.Valid() && cfg.constrained in scene.kinds
      modifies scene`kinds, scene`parents, scene`selection
      ensures scene.Valid() && parent in scene.kinds
      ensures scene.kinds == ResolvedKinds(old(scene.kinds), old(scene.parents), cfg.constrained, parent)
      ensures cfg.constrained in old(scene.parents) ==>
        && parent == old(scene.parents)[cfg.constrained]
        && scene.kinds == old(scene.kinds) && scene.parents == old(scene.parents) && scene.selection == old(scene.selection)
      ensures cfg.constrained !in old(scene.parents) ==>
        && parent !in old(scene.kinds) && RenamedFrom(parent, OffName(cfg.constrained))
        && scene.kinds == old(scene.kinds)[parent := "transform"]
        && scene.parents == old(scene.parents)[cfg.constrained := parent] && scene.selection == []
    {
      var c := cfg.constrained;
      if c in scene.parents {
        parent := scene.parents[c];
      } else {
        parent := scene.CreateNode("transform", OffName(c));
        scene.SetParent(c, parent);
        scene.ClearSelection();
      }
    }

    /**
     * `create_constraint()`: with fewer than two objects it raises before
     * touching the scene. Otherwise every driver's chain is mounted under the
     * resolved parent; with several drivers a blend takes over the
     * offsetParentMatrix and its requested name is returned, with one driver
     * that driver's chain drives it and the result is `None`.
     */
    method CreateConstraint(scene: Scene) returns (r: Result<Option<string>>, ghost parent: string)
      requires scene.Valid() && ConfigOk(cfg)
      requires forall i :: 0 <= i < |cfg.objects| ==> cfg.objects[i] in scene.kinds
      requires Distinct(Drivers(cfg))
      requires forall j :: 0 <= j < |Drivers(cfg)| ==> MountNamesFree(scene.kinds, cfg, Drivers(cfg)[j])
      requires GetOffsetParentMatrix(cfg.constrained) !in scene.locked && IdentityWritable(scene, cfg.constrained)
      modifies scene`kinds, scene`links, scene`values, scene`parents, scene`locked, scene`userAttrs, scene`selection
      modifies this`blendMatrixNode
      ensures scene.Valid()
      ensures |cfg.objects| < 2 ==>
        && r == Err(ValueError("Please select at least two objects."))
        && scene.kinds == old(scene.kinds) && scene.links == old(scene.links) && scene.values == old(scene.values)
        && scene.parents == old(scene.parents) && blendMatrixNode == old(blendMatrixNode)
      ensures |cfg.objects| >= 2 ==>
        && (cfg.constrained in old(scene.parents) ==> parent == old(scene.parents)[cfg.constrained])
        && (cfg.constrained !in old(scene.parents) ==>
              RenamedFrom(parent, OffName(cfg.constrained)) && parent !in old(scene.kinds)
              && cfg.constrained in scene.parents && scene.parents[cfg.constrained] == parent)
        && ChainsInPlace(scene.links, scene.values, old(scene.kinds)[cfg.constrained], cfg, Drivers(cfg), parent)
      ensures |cfg.objects| == 2 ==>
        && r == Ok(None)
        && GetOffsetParentMatrix(cfg.constrained) in scene.links
        && scene.links[GetOffsetParentMatrix(cfg.constrained)] == Plug(MultName(cfg.constrained, cfg.objects[0]), Named("matrixSum"))
        && blendMatrixNode == old(blendMatrixNode)
        && scene.kinds == MountAllKinds(ResolvedKinds(old(scene.kinds), old(scene.parents), cfg.constrained, parent), cfg, Drivers(cfg))
        && scene.kinds.Keys == old(scene.kinds).Keys + {parent} + AllChainNodes(cfg, Drivers(cfg))
        && forall n :: n in scene.kinds && scene.kinds[n] == "blendMatrix" ==> n in old(scene.kinds) && old(scene.kinds)[n] == "blendMatrix"
      ensures |cfg.objects| > 2 ==>
        && r == Ok(Some("blendmat_" + cfg.constrained))
        && blendMatrixNode.Some? && RenamedFrom(blendMatrixNode.value, "blendmat_" + cfg.constrained)
        && blendMatrixNode.value !in old(scene.kinds) && blendMatrixNode.value in scene.kinds
        && scene.kinds[blendMatrixNode.value] == "blendMatrix"
        && BlendWired(scene.links, scene.values, cfg, MultNames(cfg.constrained, Drivers(cfg)), blendMatrixNode.value)
        && scene.kinds == MountAllKinds(ResolvedKinds(old(scene.kinds), old(scene.parents), cfg.constrained, parent), cfg, Drivers(cfg))
                            [blendMatrixNode.value := "blendMatrix"]
        && scene.kinds.Keys == old(scene.kinds).Keys + {parent} + AllChainNodes(cfg, Drivers(cfg)) + {blendMatrixNode.value}
    {
      if |cfg.objects| < 2 {
        r := Err(ValueError("Please select at least two objects."));
        parent := "";
        return;
      }
      var drivers := Drivers(cfg);
      var p := ResolveParent(scene);
      parent := p;
      if cfg.constrained !in old(scene.parents) {
        OffKeepsNamesFree(old(scene.kinds), cfg, drivers, p);
      }
      r := BuildChains(scene, p);
      ResolvedMountKinds(old(scene.kinds), old(scene.parents), cfg, p);
      if |cfg.objects| > 2 {
        UpdatedKeys(MountAllKinds(ResolvedKinds(old(scene.kinds), old(scene.parents), cfg.constrained, p), cfg, drivers),
                    blendMatrixNode.value, "blendMatrix");
      }
    }

    /**
     * The part of `create_constraint()` after the parent is known: every
     * driver's chain, then a blend when there are several drivers. With one
     * driver no blend is created and the result is `None`.
     */
    method BuildChains(scene: Scene, parent: string) returns (r: Result<Option<string>>)
      requires scene.Valid() && ConfigOk(cfg) && |cfg.objects| >= 2
      requires forall i :: 0 <= i < |Drivers(cfg)| ==> Drivers(cfg)[i] in scene.kinds
      requires cfg.constrained in scene.kinds && parent in scene.kinds && Distinct(Drivers(cfg))
      requires forall j :: 0 <= j < |Drivers(cfg)| ==> MountNamesFree(scene.kinds, cfg, Drivers(cfg)[j])
      requires GetOffsetParentMatrix(cfg.constrained) !in scene.locked && IdentityWritable(scene, cfg.constrained)
      modifies scene`kinds, scene`links, scene`values, scene`parents, scene`locked, scene`userAttrs
      modifies this`blendMatrixNode
      ensures scene.Valid() && scene.parents == old(scene.parents)
      ensures ChainsInPlace(scene.links, scene.values, old(scene.kinds)[cfg.constrained], cfg, Drivers(cfg), parent)
      ensures |cfg.objects| == 2 ==>
        && r == Ok(None) && blendMatrixNode == old(blendMatrixNode)
        && GetOffsetParentMatrix(cfg.constrained) in scene.links
        && scene.links[GetOffsetParentMatrix(cfg.constrained)] == Plug(MultName(cfg.constrained, cfg.objects[0]), Named("matrixSum"))
        && scene.kinds == MountAllKinds(old(scene.kinds), cfg, Drivers(cfg))
      ensures |cfg.objects| > 2 ==>
        && r == Ok(Some("blendmat_" + cfg.constrained))
        && blendMatrixNode.Some? && RenamedFrom(blendMatrixNode.value, "blendmat_" + cfg.constrained)
        && blendMatrixNode.value !in old(scene.kinds)
        && BlendWired(scene.links, scene.values, cfg, MultNames(cfg.constrained, Drivers(cfg)), blendMatrixNode.value)
        && scene.kinds == MountAllKinds(old(scene.kinds), cfg, Drivers(cfg))[blendMatrixNode.value := "blendMatrix"]
    {
      var drivers := Drivers(cfg);
      var mms := MountAll(scene, drivers, parent);
      if |drivers| > 1 {
        ghost var kinds1 := scene.kinds;
        var name := BlendChains(scene, drivers, parent, mms);
        MountAllKeepsOld(old(scene.kinds), cfg, drivers);
        r := Ok(Some(name));
      } else {
        r := Ok(None);
      }
    }

    /** `_create_blend_matrix` over the chains of all drivers, which are wired and in place. */
    method BlendChains(scene: Scene, ghost drivers: seq<string>, ghost parent: string, mms: seq<string>) returns (name: string)
      requires scene.Valid() && |mms| >= 1
      requires forall i :: 0 <= i < |mms| ==> mms[i] in scene.kinds
      requires cfg.constrained in scene.kinds && GetOffsetParentMatrix(cfg.constrained) !in scene.locked
      requires forall j :: 0 <= j < |drivers| ==> ChainNodes(cfg, drivers[j]) <= scene.kinds.Keys
      requires ChainsInPlace(scene.links, scene.values, scene.kinds[cfg.constrained], cfg, drivers, parent)
      modifies scene`kinds, scene`links, scene`values, this`blendMatrixNode
      ensures scene.Valid()
      ensures name == "blendmat_" + cfg.constrained
      ensures blendMatrixNode.Some? && blendMatrixNode.value !in old(scene.kinds) && RenamedFrom(blendMatrixNode.value, name)
      ensures scene.kinds == old(scene.kinds)[blendMatrixNode.value := "blendMatrix"]
      ensures ChainsInPlace(scene.links, scene.values, old(scene.kinds)[cfg.constrained], cfg, drivers, parent)
      ensures BlendWired(scene.links, scene.values, cfg, mms, blendMatrixNode.value)
    {
      ghost var l0, v0, k0 := scene.links, scene.values, scene.kinds;
      assert forall d :: d in l0 ==> d.node in k0;
      name := CreateBlendMatrix(scene, mms);
      BlendInPlace(l0, v0, k0[cfg.constrained], cfg, drivers, parent, mms, blendMatrixNode.value);
    }

    /** The end of `_mount_system`: the baked hold value, the chain into the offsetParentMatrix, the identity reset. */
    method FinishMount(scene: Scene, d: string)
      requires scene.Valid()
      requires cfg.constrained in scene.kinds && MultName(cfg.constrained, d) in scene.kinds
      requires cfg.opts.offset ==> var hold := HoldName(cfg.constrained, d);
        && scene.KindOf(hold) == "holdMatrix"
        && Plug(hold, Named("outMatrix")) !in scene.links && Plug(hold, Named("outMatrix")) !in scene.values
        && Plug(hold, Named("outMatrix")) !in scene.locked
      requires NodeFactory.MatrixIn(MultName(cfg.constrained, d), 0) !in scene.locked
      requires GetOffsetParentMatrix(cfg.constrained) !in scene.locked && GetOffsetParentMatrix(cfg.constrained) !in scene.links
      requires IdentityWritable(scene, cfg.constrained)
      modifies scene`links, scene`values
      ensures scene.Valid()
      ensures scene.links == old(scene.links)[GetOffsetParentMatrix(cfg.constrained) := Plug(MultName(cfg.constrained, d), Named("matrixSum"))]
      ensures scene.values == WithIdentity(Baked(old(scene.values), cfg, d), cfg.constrained, scene.kinds[cfg.constrained])
    {
      var c := cfg.constrained;
      var mm := MultName(c, d);
      if cfg.opts.offset && !cfg.opts.hold {
        BakeHold(scene, mm, HoldName(c, d));
      }
      scene.Connect(Plug(mm, Named("matrixSum")), GetOffsetParentMatrix(c), false);
      IdTransform(scene, c);
    }

    /** The middle of `_mount_system`: the driver matrix, the hold and the multMatrix. */
    method BuildChain(scene: Scene, d: string, parent: string) returns (mm: string, out: Plug)
      requires scene.Valid()
      requires cfg.constrained in scene.kinds && d in scene.kinds && parent in scene.kinds
      requires MountNamesFree(scene.kinds, cfg, d)
      modifies scene`kinds, scene`links, scene`values, scene`parents, scene`locked, scene`userAttrs
      ensures scene.Valid()
      ensures mm == MultName(cfg.constrained, d) && out == Plug(mm, Named("matrixSum"))
      ensures scene.kinds == MountKinds(old(scene.kinds), cfg, d)
      ensures scene.links == ChainLinks(old(scene.links), cfg, d, parent)
      ensures scene.values == DriverValues(old(scene.values), cfg, d)
      ensures scene.parents == old(scene.parents) && scene.locked == old(scene.locked) && scene.userAttrs == old(scene.userAttrs)
    {
      var c := cfg.constrained;
      BuilderNamesDistinct(c, d, d, OffName(c));
      var driverMatrix := MountDriverMatrix(scene, d);
      var ins;
      if cfg.opts.offset {
        var holdOut := HoldMatrix(scene, d, c, HoldName(c, d));
        ins := [holdOut, driverMatrix, GetWorldInverseMatrix(parent)];
      } else {
        ins := [driverMatrix, GetWorldInverseMatrix(parent)];
      }
      assert ins == ChainInputs(cfg, d, parent);
      mm, out := NodeFactory.MultMatrix(scene, ins, MultName(c, d));
    }

    /** The driver matrix `_mount_system` uses: a new pickMatrix's output when `pick_matrix` is on, else the world matrix. */
    method MountDriverMatrix(scene: Scene, d: string) returns (out: Plug)
      requires scene.Valid() && d in scene.kinds
      requires cfg.opts.pickMatrix ==> PickName(cfg.constrained, d) !in scene.kinds
      modifies scene`kinds, scene`links, scene`values
      ensures scene.Valid()
      ensures out == DriverMatrix(cfg, d)
      ensures scene.kinds == MountDriverKinds(old(scene.kinds), cfg, d)
      ensures scene.links == if cfg.opts.pickMatrix
                             then old(scene.links)[Plug(PickName(cfg.constrained, d), Named("inputMatrix")) := GetWorldMatrix(d)]
                             else old(scene.links)
      ensures scene.values == DriverValues(old(scene.values), cfg, d)
    {
      if cfg.opts.pickMatrix {
        var pk;
        pk, out := NodeFactory.PickMatrix(scene, GetWorldMatrix(d), PickName(cfg.constrained, d),
                                          cfg.opts.translateAll, cfg.opts.rotateAll, cfg.opts.scaleAll, None);
      } else {
        out := GetWorldMatrix(d);
      }
    }

    /**
     * Lines 192-198 of `_mount_system`: read the hold output, call
     * `disconnectAttr` with the multMatrix plug first (which matches no
     * connection, so nothing is cut), and store the value read in `matrixIn[0]`.
     */
    method BakeHold(scene: Scene, mm: string, hold: string)
      requires scene.Valid()
      requires mm in scene.kinds && hold in scene.kinds
      requires NodeFactory.MatrixIn(mm, 0) !in scene.locked && Plug(hold, Named("outMatrix")) !in scene.locked
      requires Plug(hold, Named("outMatrix")) !in scene.links && Plug(hold, Named("outMatrix")) !in scene.values
      requires scene.KindOf(hold) == "holdMatrix"
      modifies scene`links, scene`values
      ensures scene.Valid()
      ensures scene.links == old(scene.links)
      ensures scene.values == old(scene.values)[NodeFactory.MatrixIn(mm, 0) := Evaluated(Plug(hold, Named("outMatrix")))]
    {
      var holdOut := GetOutMatrix(hold, scene.KindOf(hold));
      var matrixValue := scene.Read(holdOut);
      scene.Disconnect(NodeFactory.MatrixIn(mm, 0), holdOut);
      scene.SetAttr(NodeFactory.MatrixIn(mm, 0), matrixValue);
    }

    /** Whether `_blend_matrix_weights` goes past its guard: a blend name is set, non-empty, and names a node. */
    predicate BlendExists(scene: Scene)
      reads this, scene
    {
      blendMatrixNode.Some? && blendMatrixNode.value != "" && blendMatrixNode.value in scene.kinds
    }

    /**
     * `_blend_matrix_weights()`: every target index below the blend's target
     * count gets the three configured weights; nothing is written when the
     * node is missing or has no target.
     */
    method BlendMatrixWeights(scene: Scene)
      requires scene.Valid()
      requires BlendExists(scene) ==> forall p :: p in scene.locked ==> p.node != blendMatrixNode.value
      modifies scene`values
      ensures scene.Valid()
      ensures !BlendExists(scene) ==> scene.values == old(scene.values)
      ensures BlendExists(scene) ==>
        scene.values == WithWeights(old(scene.values), blendMatrixNode.value, TargetCount(scene.links, blendMatrixNode.value),
                                    cfg.opts.translateBlend, cfg.opts.rotateBlend, cfg.opts.scaleBlend)
    {
      if !BlendExists(scene) {
        return;
      }
      var b := blendMatrixNode.value;
      var targetCount := TargetCount(scene.links, b);
      if targetCount == 0 {
        return;
      }
      for i := 0 to targetCount
        invariant scene.Valid()
        invariant scene.values == WithWeights(old(scene.values), b, i, cfg.opts.translateBlend, cfg.opts.rotateBlend, cfg.opts.scaleBlend)
      {
        scene.SetAttr(WeightPlug(b, i, "translateWeight"), cfg.opts.translateBlend);
        scene.SetAttr(WeightPlug(b, i, "rotateWeight"), cfg.opts.rotateBlend);
        scene.SetAttr(WeightPlug(b, i, "scaleWeight"), cfg.opts.scaleBlend);
      }
    }

    /**
     * `_create_blend_matrix(mms)`: a blendMatrix fed by chain 0 as its base and
     * the other chains as targets drives the constrained object's
     * offsetParentMatrix, with the configured weights on every target. Returns
     * the requested name; `blendMatrixNode` holds the node actually created.
     */
    method CreateBlendMatrix(scene: Scene, mms: seq<string>) returns (name: string)
      requires scene.Valid() && |mms| >= 1
      requires forall i :: 0 <= i < |mms| ==> mms[i] in scene.kinds
      requires cfg.constrained in scene.kinds && GetOffsetParentMatrix(cfg.constrained) !in scene.locked
      modifies scene`kinds, scene`links, scene`values, this`blendMatrixNode
      ensures scene.Valid()
      ensures name == "blendmat_" + cfg.constrained
      ensures blendMatrixNode.Some? && blendMatrixNode.value !in old(scene.kinds) && RenamedFrom(blendMatrixNode.value, name)
      ensures (name !in old(scene.kinds) ==> blendMatrixNode.value == name)
      ensures scene.kinds == old(scene.kinds)[blendMatrixNode.value := "blendMatrix"]
      ensures scene.links == BlendLinks(old(scene.links), mms, blendMatrixNode.value, cfg.constrained)
      ensures scene.values == WithWeights(old(scene.values), blendMatrixNode.value, |mms| - 1,
                                          cfg.opts.translateBlend, cfg.opts.rotateBlend, cfg.opts.scaleBlend)
    {
      var c := cfg.constrained;
      name := "blendmat_" + c;
      ghost var l0 := scene.links;
      assert forall d :: d in l0 ==> d.node in scene.kinds;
      assert forall p :: p in scene.locked ==> p.node in scene.kinds;
      var b := scene.CreateNode("blendMatrix", name);
      blendMatrixNode := Some(b);
      WireBlend(scene, mms, b);
      BlendLinksSpec(l0, mms, b, c, GetOffsetParentMatrix(c));
      BlendMatrixWeights(scene);
    }

    /** The connections `_create_blend_matrix` makes for a new blend `b`. */
    method WireBlend(scene: Scene, mms: seq<string>, b: string)
      requires scene.Valid() && |mms| >= 1
      requires forall i :: 0 <= i < |mms| ==> mms[i] in scene.kinds
      requires b in scene.kinds && b != cfg.constrained && forall d :: d in scene.links ==> d.node != b
      requires cfg.constrained in scene.kinds && GetOffsetParentMatrix(cfg.constrained) !in scene.locked
      requires forall p :: p in scene.locked ==> p.node != b
      modifies scene`links
      ensures scene.Valid()
      ensures scene.links == BlendLinks(old(scene.links), mms, b, cfg.constrained)
    {
      var c := cfg.constrained;
      WireBlendInputs(scene, mms, b);
      DisconnectInput(scene, GetOffsetParentMatrix(c));
      scene.Connect(Plug(b, Named("outputMatrix")), GetOffsetParentMatrix(c), false);
    }

    /** The chains into a new blend `b`: chain 0 into `inputMatrix`, chain i+1 into `target[i].targetMatrix`. */
    method WireBlendInputs(scene: Scene, mms: seq<string>, b: string)
      requires scene.Valid() && |mms| >= 1
      requires forall i :: 0 <= i < |mms| ==> mms[i] in scene.kinds
      requires b in scene.kinds && forall d :: d in scene.links ==> d.node != b
      requires forall p :: p in scene.locked ==> p.node != b
      modifies scene`links
      ensures scene.Valid()
      ensures scene.links == old(scene.links)[Plug(b, Named("inputMatrix")) := Plug(mms[0], Named("matrixSum"))]
                             + TargetInputs(mms, b, |mms|)
    {
      scene.Connect(Plug(mms[0], Named("matrixSum")), Plug(b, Named("inputMatrix")), false);
      WireTargets(scene, mms, b);
    }

    /** The target loop of `_create_blend_matrix`: chain i+1 into `target[i].targetMatrix`, for every later chain. */
    method WireTargets(scene: Scene, mms: seq<string>, b: string)
      requires scene.Valid() && |mms| >= 1
      requires forall i :: 0 <= i < |mms| ==> mms[i] in scene.kinds
      requires b in scene.kinds && forall d :: d in scene.links ==> !IsTargetMatrix(d, b)
      requires forall p :: p in scene.locked ==> p.node != b
      modifies scene`links
      ensures scene.Valid()
      ensures scene.links == old(scene.links) + TargetInputs(mms, b, |mms|)
    {
      ghost var l1 := scene.links;
      for idx := 1 to |mms|
        invariant scene.Valid()
        invariant scene.kinds == old(scene.kinds) && scene.locked == old(scene.locked)
        invariant scene.links == l1 + TargetInputs(mms, b, idx)
      {
        ConnectTarget(scene, l1, mms, b, idx);
      }
    }

    /** One turn of the target loop of `_create_blend_matrix`: chain `idx` into `target[idx-1]`. */
    method ConnectTarget(scene: Scene, ghost l1: map<Plug, Plug>, mms: seq<string>, b: string, idx: nat)
      requires scene.Valid() && 1 <= idx < |mms| && mms[idx] in scene.kinds && b in scene.kinds
      requires forall d :: d in l1 ==> !IsTargetMatrix(d, b)
      requires forall p :: p in scene.locked ==> p.node != b
      requires scene.links == l1 + TargetInputs(mms, b, idx)
      modifies scene`links
      ensures scene.Valid()
      ensures scene.links == l1 + TargetInputs(mms, b, idx + 1)
    {
      TargetStep(l1, mms, b, idx);
      scene.Connect(Plug(mms[idx], Named("matrixSum")), TargetMatrix(b, idx - 1), false);
    }
  }
}
