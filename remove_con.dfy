/**
 * `RemoveCon` of core/remove_con.py: finds which matrix constraint drives an
 * object, gathers the nodes of that constraint, and takes it apart: the
 * offsetParentMatrix input is cut, the preserved channel values and matrix are
 * restored, the gathered nodes are deleted and the constraint's attributes are
 * removed. A host refusal (a locked plug, a protected node) is caught, warned
 * about and skipped, as the source's `try`/`except` blocks do.
 */
module RemoveConstraint {
  import opened Wrappers
  import opened Text
  import opened Attributes
  import opened SceneGraph
  import MatrixNames

  /** A snapshot of the scene fields the removal reads and writes. */
  datatype State = State(
    kinds: map<string, string>, links: map<Plug, Plug>, values: map<Plug, Value>,
    userAttrs: map<string, seq<string>>, parents: map<string, string>,
    locked: set<Plug>, lockedNodes: set<string>, staticAttrs: map<string, set<string>>)

  function StateOf(scene: Scene): State
    reads scene
  {
    State(scene.kinds, scene.links, scene.values, scene.userAttrs, scene.parents,
          scene.locked, scene.lockedNodes, scene.staticAttrs)
  }

  /** `nodeType(n)` in a snapshot. */
  function KindIn(st: State, n: string): string {
    if n in st.kinds then st.kinds[n] else ""
  }

  /** `listAttr(n, userDefined=True) or []` in a snapshot. */
  function UserAttrsIn(st: State, n: string): seq<string> {
    if n in st.userAttrs then st.userAttrs[n] else []
  }

  /** `attributeQuery(a, node=n, exists=True)` in a snapshot. */
  predicate HasIn(st: State, n: string, a: string) {
    n in st.kinds
    && ((KindIn(st, n) in st.staticAttrs && a in st.staticAttrs[KindIn(st, n)]) || a in UserAttrsIn(st, n))
  }

  lemma HasInAgrees(scene: Scene, n: string, a: string)
    ensures HasIn(StateOf(scene), n, a) == scene.HasAttr(n, a)
  {
  }

  /** The nodes `listConnections(n + ".offsetParentMatrix", source=True, destination=False)` lists. */
  function OpmSourceNodes(st: State, driven: string): seq<string> {
    if GetOffsetParentMatrix(driven) in st.links then [st.links[GetOffsetParentMatrix(driven)].node] else []
  }

  /** What `listHistory(n, pruneDagObjects=True) or []` gives. */
  function HistoryOf(history: map<string, seq<string>>, n: string): seq<string> {
    if n in history then history[n] else []
  }

  predicate Distinct(s: seq<string>) {
    forall i, j :: 0 <= i < j < |s| ==> s[i] != s[j]
  }

  // ----- The constraining token -----

  /** `constraining_name`: the token of the constraint type, empty for an unknown type. */
  function ConstrainingName(constraintType: string): (r: string)
    ensures r != "" <==> constraintType == "parent" || constraintType == "aim"
    ensures constraintType == "parent" ==> r == "pconstrainedby"
    ensures constraintType == "aim" ==> r == "aconstrainedby"
  {
    if constraintType == "parent" then "pconstrainedby"
    else if constraintType == "aim" then "aconstrainedby"
    else ""
  }

  /**
   * `constraining_name` and `Matrix.constraining_string` give the same token
   * for a known type; for an unknown one this gives "" where that gives None.
   */
  lemma TokensAgree(constraintType: string)
    ensures MatrixNames.ConstrainingString(constraintType).Some? ==>
      MatrixNames.ConstrainingString(constraintType).value == ConstrainingName(constraintType)
    ensures MatrixNames.ConstrainingString(constraintType).None? <==> ConstrainingName(constraintType) == ""
  {
  }

  // ----- Detection (`_detect_constraint_type`) -----

  /** `attr.startswith('W') and attr[1:].isdigit()`: a weight attribute such as W0 or W12. */
  predicate IsWeightAttr(a: string) {
    |a| >= 1 && a[0] == 'W' && IsDigits(a[1..])
  }

  /** What one source of the offsetParentMatrix says about the constraint type. */
  function OpmVerdict(node: string, kind: string, driven: string): Option<string> {
    if Contains(node, "pconstrainedby") then Some("parent")
    else if Contains(node, "aconstrainedby") then Some("aim")
    else if Contains(node, "space_shifter") && Contains(node, driven) then Some("parent")
    else if kind in {"blendMatrix", "multMatrix", "decomposeMatrix"} && Contains(node, driven) then Some("parent")
    else None
  }

  /** The first verdict of the offsetParentMatrix sources. */
  function FirstOpmVerdict(st: State, nodes: seq<string>, driven: string): Option<string> {
    if nodes == [] then None
    else if OpmVerdict(nodes[0], KindIn(st, nodes[0]), driven).Some? then OpmVerdict(nodes[0], KindIn(st, nodes[0]), driven)
    else FirstOpmVerdict(st, nodes[1..], driven)
  }

  /** What one node connected into the driven says: it must carry the driven's name. */
  function ConnVerdict(node: string, driven: string): Option<string> {
    if Contains(node, "pconstrainedby") && Contains(node, driven) then Some("parent")
    else if Contains(node, "aconstrainedby") && Contains(node, driven) then Some("aim")
    else if Contains(node, "space_shifter") && Contains(node, driven) then Some("parent")
    else None
  }

  function FirstConnVerdict(nodes: seq<string>, driven: string): Option<string> {
    if nodes == [] then None
    else if ConnVerdict(nodes[0], driven).Some? then ConnVerdict(nodes[0], driven)
    else FirstConnVerdict(nodes[1..], driven)
  }

  predicate HasWeights(attrs: seq<string>) {
    exists i :: 0 <= i < |attrs| && IsWeightAttr(attrs[i])
  }

  /**
   * The type `_detect_constraint_type` reports: the offsetParentMatrix sources
   * first, then every node connected into the driven (listed in `listing`
   * order), then the weight attributes.
   */
  function Detected(st: State, driven: string, listing: seq<string>): Option<string> {
    var opm := if HasIn(st, driven, "offsetParentMatrix") then FirstOpmVerdict(st, OpmSourceNodes(st, driven), driven) else None;
    if opm.Some? then opm
    else if FirstConnVerdict(listing, driven).Some? then FirstConnVerdict(listing, driven)
    else if HasWeights(UserAttrsIn(st, driven)) then Some("parent")
    else None
  }

  lemma {:induction false} FirstVerdictsKnown(st: State, nodes: seq<string>, driven: string)
    ensures FirstOpmVerdict(st, nodes, driven) in {None, Some("parent"), Some("aim")}
    ensures FirstConnVerdict(nodes, driven) in {None, Some("parent"), Some("aim")}
  {
    if nodes != [] {
      FirstVerdictsKnown(st, nodes[1..], driven);
    }
  }

  /**
   * Detection reports only "parent", "aim" or nothing; a node connected into
   * the driven counts only when it carries the driven's name; with no verdict
   * from the connections, a weight attribute means "parent".
   */
  lemma DetectedSpec(st: State, driven: string, listing: seq<string>)
    ensures Detected(st, driven, listing) in {None, Some("parent"), Some("aim")}
    ensures (!HasIn(st, driven, "offsetParentMatrix") || FirstOpmVerdict(st, OpmSourceNodes(st, driven), driven).None?)
            && FirstConnVerdict(listing, driven).None? ==>
              (Detected(st, driven, listing) == Some("parent") <==> HasWeights(UserAttrsIn(st, driven)))
  {
    FirstVerdictsKnown(st, OpmSourceNodes(st, driven), driven);
    FirstVerdictsKnown(st, listing, driven);
  }

  /** A connected node's verdict requires the driven's name in the node's name. */
  lemma {:induction false} ConnVerdictNeedsName(nodes: seq<string>, driven: string)
    requires FirstConnVerdict(nodes, driven).Some?
    ensures exists i :: 0 <= i < |nodes| && Contains(nodes[i], driven)
  {
    if ConnVerdict(nodes[0], driven).None? {
      ConnVerdictNeedsName(nodes[1..], driven);
      var i :| 0 <= i < |nodes[1..]| && Contains(nodes[1..][i], driven);
      assert nodes[i + 1] == nodes[1..][i];
    }
  }

  /**
   * `listing` is what `listConnections(driven, source=True, destination=False)`
   * returns: exactly the nodes with a connection into the driven, in the
   * host's order and possibly repeated.
   */
  predicate ListsSources(links: map<Plug, Plug>, driven: string, listing: seq<string>) {
    && (forall x :: x in listing ==> exists p :: p in links && p.node == driven && links[p].node == x)
    && (forall p :: p in links && p.node == driven ==> links[p].node in listing)
  }

  /** `_detect_constraint_type()`; `listing` is the order in which the host lists the nodes connected into the driven. */
  method DetectConstraintType(scene: Scene, driven: string, listing: seq<string>) returns (t: Option<string>)
    requires ListsSources(scene.links, driven, listing)
    ensures t == Detected(StateOf(scene), driven, listing)
  {
    ghost var st := StateOf(scene);
    if scene.HasAttr(driven, "offsetParentMatrix") {
      var connections := if GetOffsetParentMatrix(driven) in scene.links
                         then [scene.links[GetOffsetParentMatrix(driven)].node] else [];
      for i := 0 to |connections|
        invariant FirstOpmVerdict(st, connections[i..], driven) == FirstOpmVerdict(st, connections, driven)
      {
        var v := OpmVerdict(connections[i], scene.KindOf(connections[i]), driven);
        if v.Some? {
          return v;
        }
        assert connections[i..][1..] == connections[i + 1..];
      }
    }
    for i := 0 to |listing|
      invariant FirstConnVerdict(listing[i..], driven) == FirstConnVerdict(listing, driven)
    {
      var v := ConnVerdict(listing[i], driven);
      if v.Some? {
        return v;
      }
      assert listing[i..][1..] == listing[i + 1..];
    }
    var userAttrs := scene.UserAttrsOf(driven);
    var hasWeights := false;
    for i := 0 to |userAttrs|
      invariant hasWeights <==> exists j :: 0 <= j < i && IsWeightAttr(userAttrs[j])
    {
      hasWeights := hasWeights || IsWeightAttr(userAttrs[i]);
    }
    if hasWeights {
      return Some("parent");
    }
    return None;
  }

  // ----- Construction (`RemoveCon.__init__`) -----

  /** What `RemoveCon.__init__` stores. */
  datatype Remover = Remover(driven: string, constraintType: string)

  /** The driven `__init__` resolves: the argument, else the FIRST selected object, else none (""). */
  function ResolvedDriven(driven: Option<string>, selection: seq<string>): string {
    if driven.Some? && driven.value != "" then driven.value
    else if selection != [] then selection[0]
    else ""
  }

  /**
   * `RemoveCon(driven, constraint_type)`: without a driven it raises; a
   * declared type is kept without detection; otherwise the detected type is
   * used, and it raises when none is detected.
   */
  method NewRemover(scene: Scene, driven: Option<string>, constraintType: Option<string>, selection: seq<string>,
                    listing: seq<string>) returns (r: Result<Remover>)
    requires ListsSources(scene.links, ResolvedDriven(driven, selection), listing)
    ensures var d := ResolvedDriven(driven, selection);
      && (d == "" ==> r == Err(ValueError("Provide driven object or select one.")))
      && (d != "" && constraintType.Some? && constraintType.value != "" ==> r == Ok(Remover(d, constraintType.value)))
      && (d != "" && !(constraintType.Some? && constraintType.value != "") ==>
            var t := Detected(StateOf(scene), d, listing);
            && (t.None? ==> r.Err? && r.error.ValueError?)
            && (t.Some? ==> r == Ok(Remover(d, t.value))))
  {
    var d := ResolvedDriven(driven, selection);
    if d == "" {
      return Err(ValueError("Provide driven object or select one."));
    }
    if constraintType.Some? && constraintType.value != "" {
      return Ok(Remover(d, constraintType.value));
    }
    var t := DetectConstraintType(scene, d, listing);
    DetectedSpec(StateOf(scene), d, listing);
    if t.None? || t.value == "" {
      return Err(ValueError("Could not detect constraint type on " + d + ". Please specify 'parent' or 'aim'."));
    }
    return Ok(Remover(d, t.value));
  }

  /** A declared type skips detection; a detected type is always "parent" or "aim". */
  lemma RemoverTypeKnown(st: State, d: string, listing: seq<string>)
    requires Detected(st, d, listing).Some?
    ensures Detected(st, d, listing).value in {"parent", "aim"} && ConstrainingName(Detected(st, d, listing).value) != ""
  {
    DetectedSpec(st, d, listing);
  }

  // ----- Gathering (`_get_constraint_nodes`) -----

  /** `'matrix' in node_type.lower()` */
  predicate IsMatrixKind(kind: string) {
    Contains(Lower(kind), "matrix")
  }

  /** A source of the offsetParentMatrix is kept when it carries the token, or the driven's name and a matrix type. */
  predicate OpmPick(st: State, driven: string, pattern: string, x: string) {
    (pattern != "" && Contains(x, pattern)) || (Contains(x, driven) && IsMatrixKind(KindIn(st, x)))
  }

  /** A history node is kept when it carries the driven's name and the token, a matrix type or the holdMatrix type. */
  predicate HistoryPick(st: State, driven: string, pattern: string, x: string) {
    (pattern != "" && Contains(x, pattern) && Contains(x, driven))
    || (Contains(x, driven) && (IsMatrixKind(KindIn(st, x)) || KindIn(st, x) == "holdMatrix"))
  }

  /** A node carrying the driven's name and the token. */
  predicate TokenPick(driven: string, pattern: string, x: string) {
    pattern != "" && Contains(x, pattern) && Contains(x, driven)
  }

  /** A node carrying the driven's name and of a matrix type. */
  predicate MatrixPick(st: State, driven: string, x: string) {
    Contains(x, driven) && IsMatrixKind(KindIn(st, x))
  }

  /** The offsetParentMatrix sources kept, in order. */
  function OpmFound(st: State, driven: string, pattern: string, nodes: seq<string>): seq<string> {
    if nodes == [] then []
    else OpmFound(st, driven, pattern, nodes[..|nodes| - 1])
         + (if OpmPick(st, driven, pattern, nodes[|nodes| - 1]) then [nodes[|nodes| - 1]] else [])
  }

  /** The history nodes kept, in order. */
  function HistoryFound(st: State, driven: string, pattern: string, nodes: seq<string>): seq<string> {
    if nodes == [] then []
    else HistoryFound(st, driven, pattern, nodes[..|nodes| - 1])
         + (if HistoryPick(st, driven, pattern, nodes[|nodes| - 1]) then [nodes[|nodes| - 1]] else [])
  }

  /** The upstream nodes of a matrix node kept, in order. */
  function UpstreamFound(st: State, driven: string, nodes: seq<string>): seq<string> {
    if nodes == [] then []
    else UpstreamFound(st, driven, nodes[..|nodes| - 1])
         + (if MatrixPick(st, driven, nodes[|nodes| - 1]) then [nodes[|nodes| - 1]] else [])
  }

  /**
   * What one node connected into the driven adds: itself when it carries the
   * token; otherwise, when it is a matrix node, itself and its upstream
   * matrix nodes. Upstream nodes are explored only in that second case.
   */
  function ConnStep(st: State, history: map<string, seq<string>>, driven: string, pattern: string, node: string): seq<string> {
    if TokenPick(driven, pattern, node) then [node]
    else if MatrixPick(st, driven, node) then [node] + UpstreamFound(st, driven, HistoryOf(history, node))
    else []
  }

  function ConnFound(st: State, history: map<string, seq<string>>, driven: string, pattern: string, nodes: seq<string>): seq<string> {
    if nodes == [] then []
    else ConnFound(st, history, driven, pattern, nodes[..|nodes| - 1])
         + ConnStep(st, history, driven, pattern, nodes[|nodes| - 1])
  }

  /** Every node appended to `constraint_nodes`, in order, duplicates included. */
  function Found(st: State, history: map<string, seq<string>>, driven: string, pattern: string, listing: seq<string>): seq<string> {
    (if HasIn(st, driven, "offsetParentMatrix") then OpmFound(st, driven, pattern, OpmSourceNodes(st, driven)) else [])
    + HistoryFound(st, driven, pattern, HistoryOf(history, driven))
    + ConnFound(st, history, driven, pattern, listing)
  }

  /** `list(set(xs))`: each element once. */
  function Dedup(xs: seq<string>): (r: seq<string>)
    ensures Distinct(r)
    ensures forall x :: x in r <==> x in xs
  {
    if xs == [] then []
    else
      var r := Dedup(xs[..|xs| - 1]);
      if xs[|xs| - 1] in r then r else r + [xs[|xs| - 1]]
  }

  /** What `_get_constraint_nodes()` returns. */
  function GatherList(st: State, history: map<string, seq<string>>, driven: string, pattern: string, listing: seq<string>): seq<string> {
    Dedup(Found(st, history, driven, pattern, listing))
  }

  /**
   * Which nodes are gathered, stated node by node: an offsetParentMatrix
   * source by `OpmPick`, a history node by `HistoryPick`, a node connected
   * into the driven by its token or its matrix type, and an upstream node of
   * such a matrix node (one without the token) by its matrix type.
   */
  predicate Gathered(st: State, history: map<string, seq<string>>, driven: string, pattern: string, listing: seq<string>, x: string) {
    (HasIn(st, driven, "offsetParentMatrix") && x in OpmSourceNodes(st, driven) && OpmPick(st, driven, pattern, x))
    || (x in HistoryOf(history, driven) && HistoryPick(st, driven, pattern, x))
    || (x in listing && (TokenPick(driven, pattern, x) || MatrixPick(st, driven, x)))
    || Upstream(st, history, driven, pattern, listing, x)
  }

  /** `x` is a matrix node upstream of `n`, a matrix node connected into the driven without the token. */
  predicate UpstreamHit(st: State, history: map<string, seq<string>>, driven: string, pattern: string, n: string, x: string) {
    !TokenPick(driven, pattern, n) && MatrixPick(st, driven, n) && x in HistoryOf(history, n) && MatrixPick(st, driven, x)
  }

  /** `x` is upstream of one of `nodes` as `UpstreamHit` says. */
  predicate Upstream(st: State, history: map<string, seq<string>>, driven: string, pattern: string, nodes: seq<string>, x: string) {
    nodes != []
    && (Upstream(st, history, driven, pattern, nodes[..|nodes| - 1], x)
        || UpstreamHit(st, history, driven, pattern, nodes[|nodes| - 1], x))
  }

  lemma {:induction false} OpmFoundSpec(st: State, driven: string, pattern: string, nodes: seq<string>)
    ensures forall x :: x in OpmFound(st, driven, pattern, nodes) <==> x in nodes && OpmPick(st, driven, pattern, x)
  {
    if nodes != [] {
      OpmFoundSpec(st, driven, pattern, nodes[..|nodes| - 1]);
      assert nodes == nodes[..|nodes| - 1] + [nodes[|nodes| - 1]];
    }
  }

  lemma {:induction false} HistoryFoundSpec(st: State, driven: string, pattern: string, nodes: seq<string>)
    ensures forall x :: x in HistoryFound(st, driven, pattern, nodes) <==> x in nodes && HistoryPick(st, driven, pattern, x)
  {
    if nodes != [] {
      HistoryFoundSpec(st, driven, pattern, nodes[..|nodes| - 1]);
      assert nodes == nodes[..|nodes| - 1] + [nodes[|nodes| - 1]];
    }
  }

  lemma {:induction false} UpstreamFoundSpec(st: State, driven: string, nodes: seq<string>)
    ensures forall x :: x in UpstreamFound(st, driven, nodes) <==> x in nodes && MatrixPick(st, driven, x)
  {
    if nodes != [] {
      UpstreamFoundSpec(st, driven, nodes[..|nodes| - 1]);
      assert nodes == nodes[..|nodes| - 1] + [nodes[|nodes| - 1]];
    }
  }

  /** What one connected node adds: itself when it is kept, and its upstream matrix nodes. */
  lemma ConnStepSpec(st: State, history: map<string, seq<string>>, driven: string, pattern: string, n: string, x: string)
    ensures x in ConnStep(st, history, driven, pattern, n) <==>
      (x == n && (TokenPick(driven, pattern, n) || MatrixPick(st, driven, n))) || UpstreamHit(st, history, driven, pattern, n, x)
  {
    UpstreamFoundSpec(st, driven, HistoryOf(history, n));
  }

  lemma {:induction false} ConnFoundSpec(st: State, history: map<string, seq<string>>, driven: string, pattern: string,
                                         nodes: seq<string>, x: string)
    ensures x in ConnFound(st, history, driven, pattern, nodes) <==>
      (x in nodes && (TokenPick(driven, pattern, x) || MatrixPick(st, driven, x)))
      || Upstream(st, history, driven, pattern, nodes, x)
  {
    if nodes != [] {
      var init := nodes[..|nodes| - 1];
      var last := nodes[|nodes| - 1];
      ConnFoundSpec(st, history, driven, pattern, init, x);
      ConnStepSpec(st, history, driven, pattern, last, x);
      assert nodes == init + [last];
    }
  }

  /** The gathered list holds each node once, and exactly the nodes `Gathered` describes. */
  lemma GatherListSpec(st: State, history: map<string, seq<string>>, driven: string, pattern: string, listing: seq<string>)
    ensures Distinct(GatherList(st, history, driven, pattern, listing))
    ensures forall x :: x in GatherList(st, history, driven, pattern, listing) <==> Gathered(st, history, driven, pattern, listing, x)
  {
    OpmFoundSpec(st, driven, pattern, OpmSourceNodes(st, driven));
    HistoryFoundSpec(st, driven, pattern, HistoryOf(history, driven));
    forall x
      ensures x in GatherList(st, history, driven, pattern, listing) <==> Gathered(st, history, driven, pattern, listing, x)
    {
      ConnFoundSpec(st, history, driven, pattern, listing, x);
    }
  }

  /**
   * Every gathered node carries the driven's name, except an
   * offsetParentMatrix source kept for the token alone.
   */
  lemma GatheredCarryName(st: State, history: map<string, seq<string>>, driven: string, pattern: string, listing: seq<string>, x: string)
    requires Gathered(st, history, driven, pattern, listing, x)
    requires !(x in OpmSourceNodes(st, driven) && pattern != "" && Contains(x, pattern))
    ensures Contains(x, driven)
  {
    UpstreamPicks(st, history, driven, pattern, listing, x);
  }

  /** A node found upstream is itself a matrix node carrying the driven's name. */
  lemma {:induction false} UpstreamPicks(st: State, history: map<string, seq<string>>, driven: string, pattern: string,
                                         nodes: seq<string>, x: string)
    ensures Upstream(st, history, driven, pattern, nodes, x) ==> MatrixPick(st, driven, x)
  {
    if nodes != [] {
      UpstreamPicks(st, history, driven, pattern, nodes[..|nodes| - 1], x);
    }
  }

  /** The first loop of `_get_constraint_nodes`: the offsetParentMatrix sources kept. */
  method CollectOpmSources(scene: Scene, driven: string, pattern: string) returns (found: seq<string>)
    ensures found == OpmFound(StateOf(scene), driven, pattern, OpmSourceNodes(StateOf(scene), driven))
  {
    found := [];
    var opmConnections := OpmSourceNodes(StateOf(scene), driven);
    for i := 0 to |opmConnections|
      invariant found == OpmFound(StateOf(scene), driven, pattern, opmConnections[..i])
    {
      var node := opmConnections[i];
      if pattern != "" && Contains(node, pattern) {
        found := found + [node];
      } else if Contains(node, driven) {
        if IsMatrixKind(scene.KindOf(node)) {
          found := found + [node];
        }
      }
      assert opmConnections[..i + 1][..i] == opmConnections[..i];
    }
    assert opmConnections[..|opmConnections|] == opmConnections;
  }

  /** The second loop: the history nodes kept. */
  method CollectHistory(scene: Scene, driven: string, pattern: string) returns (found: seq<string>)
    ensures found == HistoryFound(StateOf(scene), driven, pattern, HistoryOf(scene.history, driven))
  {
    found := [];
    var allHistory := HistoryOf(scene.history, driven);
    for i := 0 to |allHistory|
      invariant found == HistoryFound(StateOf(scene), driven, pattern, allHistory[..i])
    {
      var node := allHistory[i];
      if pattern != "" && Contains(node, pattern) && Contains(node, driven) {
        found := found + [node];
      } else if Contains(node, driven) {
        var nodeType := scene.KindOf(node);
        if IsMatrixKind(nodeType) || nodeType == "holdMatrix" {
          found := found + [node];
        }
      }
      assert allHistory[..i + 1][..i] == allHistory[..i];
    }
    assert allHistory[..|allHistory|] == allHistory;
  }

  /** The innermost loop: the upstream matrix nodes of one connected matrix node. */
  method CollectUpstream(scene: Scene, driven: string, node: string) returns (found: seq<string>)
    ensures found == UpstreamFound(StateOf(scene), driven, HistoryOf(scene.history, node))
  {
    found := [];
    var upstream := HistoryOf(scene.history, node);
    for k := 0 to |upstream|
      invariant found == UpstreamFound(StateOf(scene), driven, upstream[..k])
    {
      var upstreamNode := upstream[k];
      if Contains(upstreamNode, driven) {
        if IsMatrixKind(scene.KindOf(upstreamNode)) {
          found := found + [upstreamNode];
        }
      }
      assert upstream[..k + 1][..k] == upstream[..k];
    }
    assert upstream[..|upstream|] == upstream;
  }

  /** The third loop: the nodes connected into the driven, with the upstream nodes of the matrix ones. */
  method CollectConnected(scene: Scene, driven: string, pattern: string, listing: seq<string>) returns (found: seq<string>)
    requires ListsSources(scene.links, driven, listing)
    ensures found == ConnFound(StateOf(scene), scene.history, driven, pattern, listing)
  {
    found := [];
    for i := 0 to |listing|
      invariant found == ConnFound(StateOf(scene), scene.history, driven, pattern, listing[..i])
    {
      var node := listing[i];
      var added: seq<string> := [];
      if pattern != "" && Contains(node, pattern) && Contains(node, driven) {
        added := [node];
      } else if Contains(node, driven) {
        if IsMatrixKind(scene.KindOf(node)) {
          var upstream := CollectUpstream(scene, driven, node);
          added := [node] + upstream;
        }
      }
      assert added == ConnStep(StateOf(scene), scene.history, driven, pattern, node);
      assert listing[..i + 1][..i] == listing[..i];
      found := found + added;
    }
    assert listing[..|listing|] == listing;
  }

  /**
   * `_get_constraint_nodes()`: the offsetParentMatrix sources, the history and
   * the nodes connected into the driven (in `listing` order), duplicates
   * removed.
   */
  method GatherNodes(scene: Scene, driven: string, pattern: string, listing: seq<string>) returns (nodes: seq<string>)
    requires ListsSources(scene.links, driven, listing)
    ensures nodes == GatherList(StateOf(scene), scene.history, driven, pattern, listing)
  {
    var found: seq<string> := [];
    if scene.HasAttr(driven, "offsetParentMatrix") {
      found := CollectOpmSources(scene, driven, pattern);
    }
    var fromHistory := CollectHistory(scene, driven, pattern);
    var fromConnections := CollectConnected(scene, driven, pattern, listing);
    found := found + fromHistory + fromConnections;
    nodes := Dedup(found);
  }

  // ----- Restoring (`_restore_transform_values`, `_restore_matrix_value`) -----

  /** `getAttr(p)` in a snapshot. */
  function ReadIn(st: State, p: Plug): Value {
    if p !in st.links && p in st.values then st.values[p] else Evaluated(p)
  }

  lemma ReadInAgrees(scene: Scene, p: Plug)
    ensures ReadIn(StateOf(scene), p) == scene.Read(p)
  {
  }

  /**
   * Restoring attribute `target` of the driven from its preserved copy
   * `initial`. When the copy exists, the target is connected from the copy's
   * source if the copy is connected, and set to the copy's value otherwise.
   * The host refuses to edit a locked target; the source warns and goes on.
   */
  function Restored(st: State, driven: string, initial: string, target: string): State {
    var ip := Plug(driven, Named(initial));
    var tp := Plug(driven, Named(target));
    if !HasIn(st, driven, initial) || tp in st.locked then st
    else if ip in st.links then st.(links := st.links[tp := st.links[ip]])
    else st.(values := st.values[tp := ReadIn(st, ip)])
  }

  /** `b` differs from `a` at most in the connections into and the values of the plugs in `targets`. */
  ghost predicate SameExcept(a: State, b: State, targets: set<Plug>) {
    && b.kinds == a.kinds && b.userAttrs == a.userAttrs && b.parents == a.parents
    && b.locked == a.locked && b.lockedNodes == a.lockedNodes && b.staticAttrs == a.staticAttrs
    && (forall p :: p !in targets ==> (p in b.links <==> p in a.links) && (p in b.links ==> b.links[p] == a.links[p]))
    && (forall p :: p !in targets ==> (p in b.values <==> p in a.values) && (p in b.values ==> b.values[p] == a.values[p]))
  }

  /**
   * In `r`, the target carries what the preserved copy held in `st`: the
   * copy's source when the copy was connected, the copy's value otherwise.
   */
  ghost predicate Carries(r: State, st: State, driven: string, initial: string, target: string) {
    var ip := Plug(driven, Named(initial));
    var tp := Plug(driven, Named(target));
    if ip in st.links then tp in r.links && r.links[tp] == st.links[ip]
    else tp in r.values && r.values[tp] == ReadIn(st, ip)
  }

  /**
   * A restore edits the target alone; when the copy exists and the target is
   * not locked, the target then carries the copy, and otherwise nothing
   * changes.
   */
  lemma RestoredSpec(st: State, driven: string, initial: string, target: string)
    ensures SameExcept(st, Restored(st, driven, initial, target), {Plug(driven, Named(target))})
    ensures HasIn(st, driven, initial) && Plug(driven, Named(target)) !in st.locked ==>
      Carries(Restored(st, driven, initial, target), st, driven, initial, target)
    ensures !HasIn(st, driven, initial) || Plug(driven, Named(target)) in st.locked ==>
      Restored(st, driven, initial, target) == st
  {
  }

  lemma SameExceptGrow(a: State, b: State, c: State, t1: set<Plug>, t2: set<Plug>, t: set<Plug>)
    requires SameExcept(a, b, t1) && SameExcept(b, c, t2) && t1 + t2 <= t
    ensures SameExcept(a, c, t)
  {
  }

  /** What a target carries survives edits elsewhere, and does not depend on edits away from the copy. */
  lemma CarriesKept(st: State, st': State, r: State, r': State, driven: string, initial: string, target: string,
                    t1: set<Plug>, t2: set<Plug>)
    requires Carries(r, st', driven, initial, target)
    requires SameExcept(r, r', t1) && Plug(driven, Named(target)) !in t1
    requires SameExcept(st, st', t2) && Plug(driven, Named(initial)) !in t2
    ensures Carries(r', st, driven, initial, target)
  {
  }

  const TransformTypes: seq<string> := ["translate", "rotate", "scale", "shear"]
  const Axes: seq<string> := ["X", "Y", "Z"]

  function UpperChar(c: char): char {
    if 'a' <= c <= 'z' then (c as int - 32) as char else c
  }

  /** `s.capitalize()` on ASCII letters. */
  function Capitalize(s: string): (r: string)
    ensures |r| == |s|
  {
    if s == [] then [] else [UpperChar(s[0])] + Lower(s[1..])
  }

  /** The preserved copy of a channel: "initialTranslateX" for translateX. */
  function InitialName(attrType: string, axis: string): string {
    "initial" + Capitalize(attrType) + axis
  }

  function ChannelName(attrType: string, axis: string): string {
    attrType + axis
  }

  function ChannelPlug(driven: string, attrType: string, axis: string): Plug {
    Plug(driven, Named(ChannelName(attrType, axis)))
  }

  /** No preserved copy and not offsetParentMatrix is a channel: they start with other letters. */
  lemma ChannelNamesApart(attrType: string, axis: string, t: string, a: string)
    requires attrType in TransformTypes
    ensures ChannelName(attrType, axis) != InitialName(t, a)
    ensures ChannelName(attrType, axis) != "offsetParentMatrix"
  {
    assert ChannelName(attrType, axis)[0] == attrType[0];
    assert InitialName(t, a)[0] == 'i';
  }

  lemma ChannelNameInjective(attrType: string, a: string, b: string)
    requires ChannelName(attrType, a) == ChannelName(attrType, b)
    ensures a == b
  {
    assert a == ChannelName(attrType, a)[|attrType|..];
    assert b == ChannelName(attrType, b)[|attrType|..];
  }

  /** The channels of one type, restored axis by axis. */
  function RestoreAxes(st: State, driven: string, attrType: string, axes: seq<string>): State {
    if axes == [] then st
    else
      var a := axes[|axes| - 1];
      Restored(RestoreAxes(st, driven, attrType, axes[..|axes| - 1]), driven, InitialName(attrType, a), ChannelName(attrType, a))
  }

  /** The channels of every type, type by type. */
  function RestoreTypes(st: State, driven: string, types: seq<string>, axes: seq<string>): State {
    if types == [] then st
    else RestoreAxes(RestoreTypes(st, driven, types[..|types| - 1], axes), driven, types[|types| - 1], axes)
  }

  /** What `_restore_transform_values()` leaves: every channel restored when initialTransform exists. */
  function RestoredTransforms(st: State, driven: string): State {
    if HasIn(st, driven, "initialTransform") then RestoreTypes(st, driven, TransformTypes, Axes) else st
  }

  function AxisTargets(driven: string, attrType: string, axes: seq<string>): set<Plug> {
    set a | a in axes :: ChannelPlug(driven, attrType, a)
  }

  function TypeTargets(driven: string, types: seq<string>, axes: seq<string>): set<Plug> {
    set t, a | t in types && a in axes :: ChannelPlug(driven, t, a)
  }

  /** A channel whose copy exists and whose plug is not locked. */
  predicate Restorable(st: State, driven: string, attrType: string, axis: string) {
    HasIn(st, driven, InitialName(attrType, axis)) && ChannelPlug(driven, attrType, axis) !in st.locked
  }

  /** Restoring the axes of one type edits only their channel plugs. */
  lemma {:induction false} RestoreAxesFrame(st: State, driven: string, attrType: string, axes: seq<string>)
    ensures SameExcept(st, RestoreAxes(st, driven, attrType, axes), AxisTargets(driven, attrType, axes))
  {
    if axes != [] {
      var init := axes[..|axes| - 1];
      var last := axes[|axes| - 1];
      var r0 := RestoreAxes(st, driven, attrType, init);
      RestoreAxesFrame(st, driven, attrType, init);
      RestoredSpec(r0, driven, InitialName(attrType, last), ChannelName(attrType, last));
      SameExceptGrow(st, r0, RestoreAxes(st, driven, attrType, axes), AxisTargets(driven, attrType, init),
                     {ChannelPlug(driven, attrType, last)}, AxisTargets(driven, attrType, axes));
    }
  }

  /** After restoring the axes of one type, each restorable one carries its copy. */
  lemma {:induction false} RestoreAxesCarries(st: State, driven: string, attrType: string, axes: seq<string>, a: string)
    requires attrType in TransformTypes
    requires a in axes && Restorable(st, driven, attrType, a)
    ensures Carries(RestoreAxes(st, driven, attrType, axes), st, driven, InitialName(attrType, a), ChannelName(attrType, a))
  {
    var init := axes[..|axes| - 1];
    var last := axes[|axes| - 1];
    var r0 := RestoreAxes(st, driven, attrType, init);
    var r := RestoreAxes(st, driven, attrType, axes);
    RestoreAxesFrame(st, driven, attrType, init);
    RestoredSpec(r0, driven, InitialName(attrType, last), ChannelName(attrType, last));
    if a == last {
      assert Plug(driven, Named(InitialName(attrType, a))) !in AxisTargets(driven, attrType, init) by {
        forall b | b in init
          ensures ChannelPlug(driven, attrType, b) != Plug(driven, Named(InitialName(attrType, a)))
        {
          ChannelNamesApart(attrType, b, attrType, a);
        }
      }
      CarriesKept(st, r0, r, r, driven, InitialName(attrType, a), ChannelName(attrType, a), {}, AxisTargets(driven, attrType, init));
    } else {
      assert a in init;
      RestoreAxesCarries(st, driven, attrType, init, a);
      if ChannelName(attrType, a) == ChannelName(attrType, last) {
        ChannelNameInjective(attrType, a, last);
      }
      CarriesKept(st, st, r0, r, driven, InitialName(attrType, a), ChannelName(attrType, a), {ChannelPlug(driven, attrType, last)}, {});
    }
  }

  /** Restoring every type edits only the channel plugs. */
  lemma {:induction false} RestoreTypesFrame(st: State, driven: string, types: seq<string>, axes: seq<string>)
    ensures SameExcept(st, RestoreTypes(st, driven, types, axes), TypeTargets(driven, types, axes))
  {
    if types != [] {
      var init := types[..|types| - 1];
      var last := types[|types| - 1];
      var r0 := RestoreTypes(st, driven, init, axes);
      RestoreTypesFrame(st, driven, init, axes);
      RestoreAxesFrame(r0, driven, last, axes);
      SameExceptGrow(st, r0, RestoreTypes(st, driven, types, axes), TypeTargets(driven, init, axes),
                     AxisTargets(driven, last, axes), TypeTargets(driven, types, axes));
    }
  }

  /** After restoring every type, each restorable channel carries its copy. */
  lemma {:induction false} RestoreTypesCarries(st: State, driven: string, types: seq<string>, axes: seq<string>, t: string, a: string)
    requires forall u :: u in types ==> u in TransformTypes
    requires forall b :: b in axes ==> b in Axes
    requires t in types && a in axes && Restorable(st, driven, t, a)
    ensures Carries(RestoreTypes(st, driven, types, axes), st, driven, InitialName(t, a), ChannelName(t, a))
  {
    var init := types[..|types| - 1];
    var last := types[|types| - 1];
    var r0 := RestoreTypes(st, driven, init, axes);
    var r := RestoreTypes(st, driven, types, axes);
    RestoreTypesFrame(st, driven, init, axes);
    RestoreAxesFrame(r0, driven, last, axes);
    if t == last {
      assert Plug(driven, Named(InitialName(t, a))) !in TypeTargets(driven, init, axes) by {
        forall u, b | u in init && b in axes
          ensures ChannelPlug(driven, u, b) != Plug(driven, Named(InitialName(t, a)))
        {
          ChannelNamesApart(u, b, t, a);
        }
      }
      RestoreAxesCarries(r0, driven, t, axes, a);
      CarriesKept(st, r0, r, r, driven, InitialName(t, a), ChannelName(t, a), {}, TypeTargets(driven, init, axes));
    } else {
      assert t in init;
      RestoreTypesCarries(st, driven, init, axes, t, a);
      assert ChannelPlug(driven, t, a) !in AxisTargets(driven, last, axes) by {
        forall b | b in axes
          ensures ChannelName(last, b) != ChannelName(t, a)
        {
          ChannelsApart(last, b, t, a);
        }
      }
      CarriesKept(st, st, r0, r, driven, InitialName(t, a), ChannelName(t, a), AxisTargets(driven, last, axes), {});
    }
  }

  /** Channels of different types are different plugs. */
  lemma ChannelsApart(t1: string, a1: string, t2: string, a2: string)
    requires t1 in TransformTypes && t2 in TransformTypes && a1 in Axes && a2 in Axes && t1 != t2
    ensures ChannelName(t1, a1) != ChannelName(t2, a2)
  {
    if |t1| == |t2| {
      assert ChannelName(t1, a1)[..|t1|] == t1;
      assert ChannelName(t2, a2)[..|t2|] == t2;
    } else {
      assert |ChannelName(t1, a1)| != |ChannelName(t2, a2)|;
    }
  }

  /**
   * After `_restore_transform_values()` only the twelve channel plugs may
   * differ, and every channel whose copy exists and whose plug is not locked
   * carries its copy, when initialTransform exists.
   */
  lemma RestoredTransformsSpec(st: State, driven: string)
    ensures SameExcept(st, RestoredTransforms(st, driven), TypeTargets(driven, TransformTypes, Axes))
    ensures HasIn(st, driven, "initialTransform") ==>
      forall t, a :: t in TransformTypes && a in Axes && Restorable(st, driven, t, a) ==>
        Carries(RestoredTransforms(st, driven), st, driven, InitialName(t, a), ChannelName(t, a))
  {
    RestoreTypesFrame(st, driven, TransformTypes, Axes);
    if HasIn(st, driven, "initialTransform") {
      forall t, a | t in TransformTypes && a in Axes && Restorable(st, driven, t, a)
        ensures Carries(RestoredTransforms(st, driven), st, driven, InitialName(t, a), ChannelName(t, a))
      {
        RestoreTypesCarries(st, driven, TransformTypes, Axes, t, a);
      }
    }
  }

  /** One channel (or the matrix) of `_restore_transform_values` / `_restore_matrix_value`. */
  method RestoreFromInitial(scene: Scene, driven: string, initial: string, target: string)
    requires scene.Valid()
    modifies scene`links, scene`values
    ensures scene.Valid()
    ensures StateOf(scene) == Restored(old(StateOf(scene)), driven, initial, target)
  {
    var initialPlug := Plug(driven, Named(initial));
    var targetPlug := Plug(driven, Named(target));
    if scene.HasAttr(driven, initial) {
      // A locked target: the host refuses the edit and the source only warns.
      if targetPlug !in scene.locked {
        var connections := scene.Sources(initialPlug);
        if connections != [] {
          scene.Connect(connections[0], targetPlug, true);
        } else {
          var value := scene.Read(initialPlug);
          scene.SetAttr(targetPlug, value);
        }
      }
    }
  }

  /** The inner loop of `_restore_transform_values`: the three axes of one channel type. */
  method RestoreAxesOf(scene: Scene, driven: string, attrType: string)
    requires scene.Valid()
    modifies scene`links, scene`values
    ensures scene.Valid()
    ensures StateOf(scene) == RestoreAxes(old(StateOf(scene)), driven, attrType, Axes)
  {
    ghost var st0 := StateOf(scene);
    for j := 0 to |Axes|
      invariant scene.Valid()
      invariant StateOf(scene) == RestoreAxes(st0, driven, attrType, Axes[..j])
    {
      RestoreFromInitial(scene, driven, InitialName(attrType, Axes[j]), ChannelName(attrType, Axes[j]));
      assert Axes[..j + 1][..j] == Axes[..j];
    }
    assert Axes[..|Axes|] == Axes;
  }

  lemma RestoreTypesStep(st: State, driven: string, types: seq<string>, i: nat)
    requires i < |types|
    ensures RestoreTypes(st, driven, types[..i + 1], Axes) == RestoreAxes(RestoreTypes(st, driven, types[..i], Axes), driven, types[i], Axes)
  {
    assert types[..i + 1][..i] == types[..i];
  }

  /** The outer loop of `_restore_transform_values`: every channel type in turn. */
  method RestoreAllTypes(scene: Scene, driven: string)
    requires scene.Valid()
    modifies scene`links, scene`values
    ensures scene.Valid()
    ensures StateOf(scene) == RestoreTypes(old(StateOf(scene)), driven, TransformTypes, Axes)
  {
    ghost var st0 := StateOf(scene);
    var types := TransformTypes;
    for i := 0 to |types|
      invariant scene.Valid()
      invariant StateOf(scene) == RestoreTypes(st0, driven, types[..i], Axes)
    {
      RestoreAxesOf(scene, driven, types[i]);
      RestoreTypesStep(st0, driven, types, i);
    }
    assert types[..|types|] == types;
  }

  /** `_restore_transform_values()` */
  method RestoreTransformValues(scene: Scene, driven: string)
    requires scene.Valid()
    modifies scene`links, scene`values
    ensures scene.Valid()
    ensures StateOf(scene) == RestoredTransforms(old(StateOf(scene)), driven)
  {
    if scene.HasAttr(driven, "initialTransform") {
      RestoreAllTypes(scene, driven);
    }
  }

  /** `_restore_matrix_value()` */
  function RestoredMatrix(st: State, driven: string): State {
    Restored(st, driven, "initialMatrix", "offsetParentMatrix")
  }

  // ----- Disconnecting (`_disconnect_offset_parent_matrix`) -----

  /** The offsetParentMatrix input is cut, unless the plug is locked (the source then warns). */
  function OpmDisconnected(st: State, driven: string): State {
    var opm := GetOffsetParentMatrix(driven);
    if HasIn(st, driven, "offsetParentMatrix") && opm in st.links && opm !in st.locked then st.(links := st.links - {opm})
    else st
  }

  /** Afterwards the offsetParentMatrix has no input unless it is locked or absent, and nothing else changed. */
  lemma OpmDisconnectedSpec(st: State, driven: string)
    ensures SameExcept(st, OpmDisconnected(st, driven), {GetOffsetParentMatrix(driven)})
    ensures OpmDisconnected(st, driven).values == st.values
    ensures GetOffsetParentMatrix(driven) in OpmDisconnected(st, driven).links <==>
      GetOffsetParentMatrix(driven) in st.links
      && (!HasIn(st, driven, "offsetParentMatrix") || GetOffsetParentMatrix(driven) in st.locked)
  {
  }

  /** `_disconnect_offset_parent_matrix()` */
  method DisconnectOffsetParentMatrix(scene: Scene, driven: string)
    requires scene.Valid()
    modifies scene`links
    ensures scene.Valid()
    ensures StateOf(scene) == OpmDisconnected(old(StateOf(scene)), driven)
  {
    var opm := GetOffsetParentMatrix(driven);
    if scene.HasAttr(driven, "offsetParentMatrix") {
      ghost var st0 := StateOf(scene);
      var connections := scene.Sources(opm);
      for i := 0 to |connections|
        invariant scene.Valid()
        invariant StateOf(scene) == if i == 0 then st0 else OpmDisconnected(st0, driven)
      {
        // A locked plug: the host refuses and the source only warns.
        if opm !in scene.locked {
          scene.Disconnect(connections[i], opm);
        }
      }
    }
  }

  // ----- Deleting the gathered nodes -----

  /** `delete(node)` when the node exists and the host lets it go; otherwise nothing changes. */
  function NodeDeleted(st: State, n: string): State {
    if n in st.kinds && n !in st.lockedNodes then
      st.(kinds := st.kinds - {n}, links := LinksOff(st.links, n), values := ValuesOff(st.values, n),
          parents := ParentsOff(st.parents, n), locked := LockedOff(st.locked, n), userAttrs := st.userAttrs - {n})
    else st
  }

  function NodesDeleted(st: State, nodes: seq<string>): State {
    if nodes == [] then st else NodeDeleted(NodesDeleted(st, nodes[..|nodes| - 1]), nodes[|nodes| - 1])
  }

  /**
   * Exactly the listed nodes that the host does not protect are gone; the
   * connections, protections and user attributes left are ones that were
   * there.
   */
  lemma {:induction false} NodesDeletedSpec(st: State, nodes: seq<string>)
    ensures var r := NodesDeleted(st, nodes);
      && r.lockedNodes == st.lockedNodes && r.staticAttrs == st.staticAttrs
      && (forall x :: x in r.kinds <==> x in st.kinds && (x !in nodes || x in st.lockedNodes))
      && (forall p :: p in r.links ==> p in st.links && r.links[p] == st.links[p])
      && r.locked <= st.locked
      && (forall n :: n in r.userAttrs ==> n in st.userAttrs && r.userAttrs[n] == st.userAttrs[n])
  {
    if nodes != [] {
      NodesDeletedSpec(st, nodes[..|nodes| - 1]);
      assert nodes == nodes[..|nodes| - 1] + [nodes[|nodes| - 1]];
    }
  }

  /** The deletion loop of `remove()`. */
  method DeleteConstraintNodes(scene: Scene, nodes: seq<string>)
    requires scene.Valid()
    modifies scene`kinds, scene`links, scene`values, scene`parents, scene`locked, scene`userAttrs
    ensures scene.Valid()
    ensures StateOf(scene) == NodesDeleted(old(StateOf(scene)), nodes)
  {
    ghost var st0 := StateOf(scene);
    for i := 0 to |nodes|
      invariant scene.Valid()
      invariant StateOf(scene) == NodesDeleted(st0, nodes[..i])
    {
      var node := nodes[i];
      // A protected node: the host refuses and the source only warns.
      if node in scene.kinds && node !in scene.lockedNodes {
        scene.DeleteNode(node);
      }
      assert nodes[..i + 1][..i] == nodes[..i];
    }
    assert nodes[..|nodes|] == nodes;
  }

  // ----- Removing the attributes (`_remove_constraint_attributes`) -----

  /** The weight attributes, in order. */
  function WeightAttrs(attrs: seq<string>): seq<string> {
    if attrs == [] then []
    else WeightAttrs(attrs[..|attrs| - 1]) + (if IsWeightAttr(attrs[|attrs| - 1]) then [attrs[|attrs| - 1]] else [])
  }

  /** `attrs_to_remove`: the weights, then initialTransform and initialMatrix when present. */
  function AttrsToRemove(attrs: seq<string>): seq<string> {
    WeightAttrs(attrs)
    + (if "initialTransform" in attrs then ["initialTransform"] else [])
    + (if "initialMatrix" in attrs then ["initialMatrix"] else [])
  }

  lemma {:induction false} WeightAttrsSpec(attrs: seq<string>)
    ensures forall a :: a in WeightAttrs(attrs) <==> a in attrs && IsWeightAttr(a)
  {
    if attrs != [] {
      WeightAttrsSpec(attrs[..|attrs| - 1]);
      assert attrs == attrs[..|attrs| - 1] + [attrs[|attrs| - 1]];
    }
  }

  /** The attributes removed are exactly the weights, initialTransform and initialMatrix among the user attributes. */
  lemma AttrsToRemoveSpec(attrs: seq<string>)
    ensures forall a :: a in AttrsToRemove(attrs) <==>
      a in attrs && (IsWeightAttr(a) || a == "initialTransform" || a == "initialMatrix")
  {
    WeightAttrsSpec(attrs);
  }

  /**
   * `deleteAttr` of a user attribute of `n`; one the host refuses (a locked
   * plug) or that no longer exists is skipped.
   */
  function AttrDeleted(st: State, n: string, a: string): State {
    var p := Plug(n, Named(a));
    if n in st.userAttrs && a in st.userAttrs[n] && p !in st.locked then
      st.(userAttrs := st.userAttrs[n := Without(st.userAttrs[n], a)],
          links := map d | d in st.links && d != p && st.links[d] != p :: st.links[d],
          values := st.values - {p})
    else st
  }

  function AttrsDeleted(st: State, n: string, attrs: seq<string>): State {
    if attrs == [] then st else AttrDeleted(AttrsDeleted(st, n, attrs[..|attrs| - 1]), n, attrs[|attrs| - 1])
  }

  /**
   * After deleting `attrs` from `n`, an attribute of the list is left only
   * when its plug is locked, every other attribute is as it was, and no node,
   * protection or connection appears.
   */
  lemma {:induction false} AttrsDeletedSpec(st: State, n: string, attrs: seq<string>)
    ensures var r := AttrsDeleted(st, n, attrs);
      && r.kinds == st.kinds && r.locked == st.locked && r.lockedNodes == st.lockedNodes && r.parents == st.parents
      && (forall a :: a in UserAttrsIn(r, n) ==> a in UserAttrsIn(st, n) && (a in attrs ==> Plug(n, Named(a)) in st.locked))
      && (forall a :: a !in attrs ==> (a in UserAttrsIn(r, n) <==> a in UserAttrsIn(st, n)))
      && (forall m :: m != n ==> (m in r.userAttrs <==> m in st.userAttrs) && (m in r.userAttrs ==> r.userAttrs[m] == st.userAttrs[m]))
      && (forall p :: p in r.links ==> p in st.links && r.links[p] == st.links[p])
  {
    if attrs != [] {
      AttrsDeletedSpec(st, n, attrs[..|attrs| - 1]);
      assert attrs == attrs[..|attrs| - 1] + [attrs[|attrs| - 1]];
    }
  }

  /** What `_remove_constraint_attributes()` leaves. */
  function ConstraintAttrsRemoved(st: State, n: string): State {
    AttrsDeleted(st, n, AttrsToRemove(UserAttrsIn(st, n)))
  }

  lemma WeightAttrsStep(attrs: seq<string>, i: nat)
    requires i < |attrs|
    ensures WeightAttrs(attrs[..i + 1]) == WeightAttrs(attrs[..i]) + (if IsWeightAttr(attrs[i]) then [attrs[i]] else [])
  {
    assert attrs[..i + 1][..i] == attrs[..i];
  }

  lemma AttrsDeletedStep(st: State, n: string, attrs: seq<string>, i: nat)
    requires i < |attrs|
    ensures AttrsDeleted(st, n, attrs[..i + 1]) == AttrDeleted(AttrsDeleted(st, n, attrs[..i]), n, attrs[i])
  {
    assert attrs[..i + 1][..i] == attrs[..i];
  }

  /** The first half of `_remove_constraint_attributes`: which attributes to remove. */
  method CollectAttrsToRemove(userAttrs: seq<string>) returns (attrsToRemove: seq<string>)
    ensures attrsToRemove == AttrsToRemove(userAttrs)
  {
    attrsToRemove := [];
    for i := 0 to |userAttrs|
      invariant attrsToRemove == WeightAttrs(userAttrs[..i])
    {
      var attr := userAttrs[i];
      if |attr| > 0 && attr[0] == 'W' && |attr| > 1 && IsDigits(attr[1..]) {
        attrsToRemove := attrsToRemove + [attr];
      }
      WeightAttrsStep(userAttrs, i);
    }
    assert userAttrs[..|userAttrs|] == userAttrs;
    if "initialTransform" in userAttrs {
      attrsToRemove := attrsToRemove + ["initialTransform"];
    }
    if "initialMatrix" in userAttrs {
      attrsToRemove := attrsToRemove + ["initialMatrix"];
    }
  }

  /** `_remove_constraint_attributes()` */
  method RemoveConstraintAttributes(scene: Scene, driven: string)
    requires scene.Valid()
    modifies scene`userAttrs, scene`links, scene`values
    ensures scene.Valid()
    ensures StateOf(scene) == ConstraintAttrsRemoved(old(StateOf(scene)), driven)
  {
    ghost var st0 := StateOf(scene);
    var attrsToRemove := CollectAttrsToRemove(scene.UserAttrsOf(driven));
    for i := 0 to |attrsToRemove|
      invariant scene.Valid()
      invariant StateOf(scene) == AttrsDeleted(st0, driven, attrsToRemove[..i])
    {
      var attr := attrsToRemove[i];
      if scene.HasAttr(driven, attr) {
        // A locked plug or a static attribute: the host refuses and the source only warns.
        if driven in scene.userAttrs && attr in scene.userAttrs[driven] && Plug(driven, Named(attr)) !in scene.locked {
          scene.DeleteAttr(driven, attr);
        }
      }
      AttrsDeletedStep(st0, driven, attrsToRemove, i);
    }
    assert attrsToRemove[..|attrsToRemove|] == attrsToRemove;
  }

  // ----- `remove()` -----

  /**
   * What `remove()` leaves: nothing changes when no node is gathered;
   * otherwise the offsetParentMatrix is cut, the channels and the matrix
   * restored, the gathered nodes deleted and the attributes removed, in that
   * order.
   */
  function Removal(st: State, history: map<string, seq<string>>, r: Remover, listing: seq<string>): State {
    var d := r.driven;
    var nodes := GatherList(st, history, d, ConstrainingName(r.constraintType), listing);
    if nodes == [] then st
    else ConstraintAttrsRemoved(NodesDeleted(RestoredMatrix(RestoredTransforms(OpmDisconnected(st, d), d), d), nodes), d)
  }

  /** `remove()`: `removed` is false when no constraint node was found and only a warning was given. */
  method Remove(scene: Scene, r: Remover, listing: seq<string>) returns (removed: bool)
    requires scene.Valid()
    requires ListsSources(scene.links, r.driven, listing)
    modifies scene`kinds, scene`links, scene`values, scene`parents, scene`locked, scene`userAttrs
    ensures scene.Valid()
    ensures removed <==> GatherList(old(StateOf(scene)), scene.history, r.driven, ConstrainingName(r.constraintType), listing) != []
    ensures StateOf(scene) == Removal(old(StateOf(scene)), scene.history, r, listing)
  {
    var constraintNodes := GatherNodes(scene, r.driven, ConstrainingName(r.constraintType), listing);
    if constraintNodes == [] {
      return false;
    }
    DisconnectOffsetParentMatrix(scene, r.driven);
    RestoreTransformValues(scene, r.driven);
    RestoreFromInitial(scene, r.driven, "initialMatrix", "offsetParentMatrix");
    DeleteConstraintNodes(scene, constraintNodes);
    RemoveConstraintAttributes(scene, r.driven);
    return true;
  }

  /** The state `remove()` reaches before it deletes the gathered nodes. */
  function Restoration(st: State, driven: string): State {
    RestoredMatrix(RestoredTransforms(OpmDisconnected(st, driven), driven), driven)
  }

  /** Cutting and restoring change no node, attribute or protection. */
  lemma RestorationFrame(st: State, driven: string)
    ensures var s := Restoration(st, driven);
      s.kinds == st.kinds && s.userAttrs == st.userAttrs && s.locked == st.locked && s.lockedNodes == st.lockedNodes
  {
    var s1 := OpmDisconnected(st, driven);
    var s2 := RestoredTransforms(s1, driven);
    OpmDisconnectedSpec(st, driven);
    RestoredTransformsSpec(s1, driven);
    RestoredSpec(s2, driven, "initialMatrix", "offsetParentMatrix");
  }

  /**
   * After `remove()`, a node that existed is gone exactly when it was
   * gathered and the host does not protect it; no node appears.
   */
  lemma RemovalDeletesGathered(st: State, history: map<string, seq<string>>, r: Remover, listing: seq<string>)
    ensures var nodes := GatherList(st, history, r.driven, ConstrainingName(r.constraintType), listing);
      && (forall x :: x in Removal(st, history, r, listing).kinds ==> x in st.kinds)
      && (forall x :: x in st.kinds ==> (x in Removal(st, history, r, listing).kinds <==> x !in nodes || x in st.lockedNodes))
  {
    var nodes := GatherList(st, history, r.driven, ConstrainingName(r.constraintType), listing);
    if nodes != [] {
      var s3 := Restoration(st, r.driven);
      RestorationFrame(st, r.driven);
      NodesDeletedSpec(s3, nodes);
      var s4 := NodesDeleted(s3, nodes);
      AttrsDeletedSpec(s4, r.driven, AttrsToRemove(UserAttrsIn(s4, r.driven)));
    }
  }

  /**
   * After a `remove()` that found nodes, the driven keeps no weight,
   * initialTransform or initialMatrix attribute unless its plug is locked.
   */
  lemma RemovalClearsAttributes(st: State, history: map<string, seq<string>>, r: Remover, listing: seq<string>, a: string)
    requires GatherList(st, history, r.driven, ConstrainingName(r.constraintType), listing) != []
    requires IsWeightAttr(a) || a == "initialTransform" || a == "initialMatrix"
    requires a in UserAttrsIn(Removal(st, history, r, listing), r.driven)
    ensures Plug(r.driven, Named(a)) in st.locked
  {
    var nodes := GatherList(st, history, r.driven, ConstrainingName(r.constraintType), listing);
    var s3 := Restoration(st, r.driven);
    RestorationFrame(st, r.driven);
    NodesDeletedSpec(s3, nodes);
    var s4 := NodesDeleted(s3, nodes);
    var attrs := AttrsToRemove(UserAttrsIn(s4, r.driven));
    AttrsDeletedSpec(s4, r.driven, attrs);
    AttrsToRemoveSpec(UserAttrsIn(s4, r.driven));
  }

  /**
   * With no initialMatrix to restore from, a `remove()` that found nodes
   * leaves the driven's offsetParentMatrix without input, unless the plug is
   * locked.
   */
  lemma RemovalFreesOffsetParentMatrix(st: State, history: map<string, seq<string>>, r: Remover, listing: seq<string>)
    requires GatherList(st, history, r.driven, ConstrainingName(r.constraintType), listing) != []
    requires HasIn(st, r.driven, "offsetParentMatrix") && !HasIn(st, r.driven, "initialMatrix")
    requires GetOffsetParentMatrix(r.driven) !in st.locked
    ensures GetOffsetParentMatrix(r.driven) !in Removal(st, history, r, listing).links
  {
    var d := r.driven;
    var opm := GetOffsetParentMatrix(d);
    var nodes := GatherList(st, history, d, ConstrainingName(r.constraintType), listing);
    var s1 := OpmDisconnected(st, d);
    var s2 := RestoredTransforms(s1, d);
    OpmDisconnectedSpec(st, d);
    RestoredTransformsSpec(s1, d);
    assert opm !in TypeTargets(d, TransformTypes, Axes) by {
      forall t, a | t in TransformTypes && a in Axes
        ensures ChannelPlug(d, t, a) != opm
      {
        ChannelNamesApart(t, a, t, a);
      }
    }
    RestoredSpec(s2, d, "initialMatrix", "offsetParentMatrix");
    var s3 := RestoredMatrix(s2, d);
    assert opm !in s3.links;
    NodesDeletedSpec(s3, nodes);
    var s4 := NodesDeleted(s3, nodes);
    AttrsDeletedSpec(s4, d, AttrsToRemove(UserAttrsIn(s4, d)));
  }
}
