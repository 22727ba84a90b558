/**
 * The Maya scene the constraint code drives through `maya.cmds`, reduced to
 * what that code reads and writes: node kinds, connections (at most one source
 * per destination plug), attribute values, user-defined attributes, the DAG
 * parent of each node, the selection, and which plugs and nodes refuse edits.
 * Matrix and float values are opaque; the engine's evaluation is not modelled.
 */
module SceneGraph {
  import opened Text
  import opened Attributes

  /**
   * An attribute value: a three-component channel value, a boolean flag, an
   * opaque token (a blend weight, a stored matrix), or whatever the engine
   * evaluates plug `of` to.
   */
  datatype Value =
    | Vec3(x: int, y: int, z: int)
    | Flag(on: bool)
    | Token(id: nat)
    | Evaluated(of: Plug)

  /** `n` is `name` followed by zero or more '1's: how the model renames a node on a name clash. */
  predicate RenamedFrom(n: string, name: string) {
    |name| <= |n| && n[..|name|] == name && forall i :: |name| <= i < |n| ==> n[i] == '1'
  }

  /** `s.remove(a)` when `a` may occur several times: every occurrence goes. */
  function Without(s: seq<string>, a: string): (r: seq<string>)
    ensures forall x :: x in r <==> x in s && x != a
    ensures |r| <= |s|
  {
    if s == [] then []
    else if s[0] == a then Without(s[1..], a)
    else [s[0]] + Without(s[1..], a)
  }

  /** The connections that neither start nor end on node `n`. */
  function LinksOff(links: map<Plug, Plug>, n: string): (r: map<Plug, Plug>)
    ensures forall d :: d in r <==> d in links && d.node != n && links[d].node != n
    ensures forall d :: d in r ==> r[d] == links[d]
  {
    map d | d in links && d.node != n && links[d].node != n :: links[d]
  }

  /** The values of plugs on nodes other than `n`. */
  function ValuesOff(values: map<Plug, Value>, n: string): (r: map<Plug, Value>)
    ensures forall p :: p in r <==> p in values && p.node != n
    ensures forall p :: p in r ==> r[p] == values[p]
  {
    map p | p in values && p.node != n :: values[p]
  }

  /** The parenting of nodes other than `n` under nodes other than `n`. */
  function ParentsOff(parents: map<string, string>, n: string): (r: map<string, string>)
    ensures forall c :: c in r <==> c in parents && c != n && parents[c] != n
    ensures forall c :: c in r ==> r[c] == parents[c]
  {
    map c | c in parents && c != n && parents[c] != n :: parents[c]
  }

  /** The protected plugs on nodes other than `n`. */
  function LockedOff(locked: set<Plug>, n: string): (r: set<Plug>)
    ensures forall p :: p in r <==> p in locked && p.node != n
  {
    set p | p in locked && p.node != n
  }

  /** Every connection, value, parenting and protection refers to nodes that exist. */
  ghost predicate Consistent(kinds: map<string, string>, links: map<Plug, Plug>, values: map<Plug, Value>,
                             userAttrs: map<string, seq<string>>, parents: map<string, string>,
                             locked: set<Plug>, lockedNodes: set<string>)
  {
    && (forall d {:trigger links[d]} :: d in links ==> d.node in kinds && links[d].node in kinds)
    && (forall p :: p in values ==> p.node in kinds)
    && (forall c :: c in parents ==> c in kinds && parents[c] in kinds)
    && (forall p :: p in locked ==> p.node in kinds)
    && lockedNodes <= kinds.Keys
    && userAttrs.Keys <= kinds.Keys
  }

  /** Deleting a node that is not protected keeps the scene consistent. */
  lemma DeleteKeepsConsistent(kinds: map<string, string>, links: map<Plug, Plug>, values: map<Plug, Value>,
                              userAttrs: map<string, seq<string>>, parents: map<string, string>,
                              locked: set<Plug>, lockedNodes: set<string>, n: string)
    requires Consistent(kinds, links, values, userAttrs, parents, locked, lockedNodes)
    requires n !in lockedNodes
    ensures Consistent(kinds - {n}, LinksOff(links, n), ValuesOff(values, n), userAttrs - {n},
                       ParentsOff(parents, n), LockedOff(locked, n), lockedNodes)
  {
  }

  /** Deleting a node nothing refers to changes nothing else. */
  lemma DeleteUnreferenced(kinds: map<string, string>, links: map<Plug, Plug>, values: map<Plug, Value>,
                           userAttrs: map<string, seq<string>>, parents: map<string, string>,
                           locked: set<Plug>, lockedNodes: set<string>, n: string)
    requires Consistent(kinds, links, values, userAttrs, parents, locked, lockedNodes)
    requires n !in kinds
    ensures forall d :: d in links ==> d.node != n && links[d].node != n
    ensures LinksOff(links, n) == links && ValuesOff(values, n) == values
    ensures ParentsOff(parents, n) == parents && LockedOff(locked, n) == locked && userAttrs - {n} == userAttrs
  {
  }

  /** Connecting a free plug and cutting it again leaves the connections as they were. */
  lemma ConnectThenCut(links: map<Plug, Plug>, dst: Plug, src: Plug)
    requires dst !in links
    ensures links[dst := src] - {dst} == links
  {
  }

  /** Deleting a node takes away exactly the connections into it, when nothing else touched it. */
  lemma LinksOffAdded(links: map<Plug, Plug>, wiring: map<Plug, Plug>, n: string)
    requires forall d :: d in links ==> d.node != n && links[d].node != n
    requires forall d :: d in wiring ==> d.node == n
    ensures LinksOff(links + wiring, n) == links
  {
  }

  class Scene {
    /** Node name to node type, as `nodeType` reports it. */
    var kinds: map<string, string>
    /** Destination plug to its source plug. */
    var links: map<Plug, Plug>
    var values: map<Plug, Value>
    /** User-defined attributes of a node, in `listAttr(userDefined=True)` order. */
    var userAttrs: map<string, seq<string>>
    /** DAG parent of a node (a node at world level has no entry). */
    var parents: map<string, string>
    var selection: seq<string>
    /** Plugs whose edits the host refuses (locked or otherwise protected). */
    var locked: set<Plug>
    /** Nodes whose deletion the host refuses. */
    var lockedNodes: set<string>
    /** Static attributes of each node type, for `attributeQuery(exists=True)`. */
    const staticAttrs: map<string, set<string>>
    /** What `listHistory(node, pruneDagObjects=True)` returns for a node. */
    const history: map<string, seq<string>>

    ghost predicate Valid()
      reads this
    {
      Consistent(kinds, links, values, userAttrs, parents, locked, lockedNodes)
    }

    constructor (kinds: map<string, string>, staticAttrs: map<string, set<string>>, history: map<string, seq<string>>)
      ensures Valid()
      ensures this.kinds == kinds && this.staticAttrs == staticAttrs && this.history == history
      ensures links == map[] && values == map[] && userAttrs == map[] && parents == map[]
      ensures selection == [] && locked == {} && lockedNodes == {}
    {
      this.kinds := kinds;
      this.staticAttrs := staticAttrs;
      this.history := history;
      links := map[];
      values := map[];
      userAttrs := map[];
      parents := map[];
      selection := [];
      locked := {};
      lockedNodes := {};
    }

    /** `nodeType(n)`; a name the scene does not know has the empty type. */
    function KindOf(n: string): string
      reads this
    {
      if n in kinds then kinds[n] else ""
    }

    /** `attributeQuery(a, node=n, exists=True)`, which is also `objExists("n.a")` here. */
    predicate HasAttr(n: string, a: string)
      reads this
    {
      n in kinds
      && ((KindOf(n) in staticAttrs && a in staticAttrs[KindOf(n)])
          || (n in userAttrs && a in userAttrs[n]))
    }

    /** `listAttr(n, userDefined=True) or []` */
    function UserAttrsOf(n: string): seq<string>
      reads this
    {
      if n in userAttrs then userAttrs[n] else []
    }

    /** `listConnections(d, source=True, destination=False, plugs=True) or []` */
    function Sources(d: Plug): (r: seq<Plug>)
      reads this
      ensures |r| <= 1
      ensures r == [] <==> d !in links
    {
      if d in links then [links[d]] else []
    }

    /** The source nodes feeding any plug of node `n`. */
    function IncomingNodes(n: string): set<string>
      reads this
    {
      set d | d in links && d.node == n :: links[d].node
    }

    /** `getAttr(p)`: a connected or never-set plug holds what the engine evaluates it to. */
    function Read(p: Plug): Value
      reads this
    {
      if p !in links && p in values then values[p] else Evaluated(p)
    }

    /** `createNode(kind, name=name)`: a clash with an existing node gives a renamed node. */
    method CreateNode(kind: string, name: string) returns (n: string)
      requires Valid()
      modifies this`kinds
      ensures Valid()
      ensures n !in old(kinds) && kinds == old(kinds)[n := kind]
      ensures RenamedFrom(n, name)
      ensures name !in old(kinds) ==> n == name
    {
      n := name;
      ghost var tried: set<string> := {};
      while n in kinds
        invariant RenamedFrom(n, name)
        invariant name !in kinds ==> n == name
        invariant tried <= kinds.Keys
        invariant forall t :: t in tried ==> |t| < |n|
        decreases |kinds.Keys - tried|
      {
        assert n !in tried;
        assert kinds.Keys - (tried + {n}) < kinds.Keys - tried;
        tried := tried + {n};
        n := n + "1";
      }
      kinds := kinds[n := kind];
    }

    /** `connectAttr(src, dst, force=force)`: without `force` the destination must be free. */
    method Connect(src: Plug, dst: Plug, force: bool)
      requires Valid()
      requires src.node in kinds && dst.node in kinds && dst !in locked
      requires force || dst !in links
      modifies this`links
      ensures Valid()
      ensures links == old(links)[dst := src]
      ensures Sources(dst) == [src]
    {
      links := links[dst := src];
    }

    /** `disconnectAttr(src, dst)`: removes the connection from `src` into `dst` if there is one. */
    method Disconnect(src: Plug, dst: Plug)
      requires Valid()
      requires dst !in locked
      modifies this`links
      ensures Valid()
      ensures links == if dst in old(links) && old(links)[dst] == src then old(links) - {dst} else old(links)
      ensures Sources(dst) == if old(Sources(dst)) == [src] then [] else old(Sources(dst))
    {
      if dst in links && links[dst] == src {
        links := links - {dst};
      }
    }

    /** Wiring a node a factory has just created: every destination is on that node and free. */
    method AddLinks(wiring: map<Plug, Plug>)
      requires Valid()
      requires forall d :: d in wiring ==> d.node in kinds && wiring[d].node in kinds && d !in links
      modifies this`links
      ensures Valid()
      ensures links == old(links) + wiring
    {
      links := links + wiring;
    }

    /** `setAttr(p, v)` */
    method SetAttr(p: Plug, v: Value)
      requires Valid()
      requires p.node in kinds && p !in locked
      modifies this`values
      ensures Valid()
      ensures values == old(values)[p := v]
    {
      values := values[p := v];
    }

    /**
     * `delete(n)`: the node goes with its connections, values and parenting.
     * Its DAG children stay, with no parent; the host would delete them too.
     */
    method DeleteNode(n: string)
      requires Valid()
      requires n in kinds && n !in lockedNodes
      modifies this`kinds, this`links, this`values, this`parents, this`locked, this`userAttrs
      ensures Valid()
      ensures kinds == old(kinds) - {n}
      ensures links == LinksOff(old(links), n)
      ensures values == ValuesOff(old(values), n)
      ensures parents == ParentsOff(old(parents), n)
      ensures locked == LockedOff(old(locked), n)
      ensures userAttrs == old(userAttrs) - {n}
    {
      DeleteKeepsConsistent(kinds, links, values, userAttrs, parents, locked, lockedNodes, n);
      kinds := kinds - {n};
      links := LinksOff(links, n);
      values := ValuesOff(values, n);
      parents := ParentsOff(parents, n);
      locked := LockedOff(locked, n);
      userAttrs := userAttrs - {n};
    }

    /** `deleteAttr("n.a")` on a user-defined attribute: its connections and value go with it. */
    method DeleteAttr(n: string, a: string)
      requires Valid()
      requires n in userAttrs && a in userAttrs[n] && Plug(n, Named(a)) !in locked
      modifies this`userAttrs, this`links, this`values
      ensures Valid()
      ensures userAttrs == old(userAttrs)[n := Without(old(userAttrs)[n], a)]
      ensures links == map d | d in old(links) && d != Plug(n, Named(a)) && old(links)[d] != Plug(n, Named(a)) :: old(links)[d]
      ensures values == old(values) - {Plug(n, Named(a))}
    {
      var p := Plug(n, Named(a));
      userAttrs := userAttrs[n := Without(userAttrs[n], a)];
      links := map d | d in links && d != p && links[d] != p :: links[d];
      values := values - {p};
    }

    /** `parent(child, parent)` */
    method SetParent(child: string, parent: string)
      requires Valid()
      requires child in kinds && parent in kinds
      modifies this`parents
      ensures Valid()
      ensures parents == old(parents)[child := parent]
    {
      parents := parents[child := parent];
    }

    /** `select(clear=True)` */
    method ClearSelection()
      modifies this`selection
      ensures selection == []
    {
      selection := [];
    }
  }

  /** A renamed node keeps the requested name as a prefix. */
  lemma RenamedFromStartsWith(n: string, name: string)
    requires RenamedFrom(n, name)
    ensures StartsWith(n, name)
  {
  }
}
