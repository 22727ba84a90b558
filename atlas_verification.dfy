/**
 * The attribute-path checks of atlas_matrix/core/utils/verification.py. Its
 * node-kind predicates are the same as core/utils/verification.py's and live in
 * module Verification. Host queries are parameters: `existing` is the set of
 * node names `objExists` accepts, `queryable` the (node, attribute) pairs
 * `attributeQuery(..., exists=True)` accepts, and `lookup` maps the paths an
 * OpenMaya selection list can resolve to the plug's `isValid` flag (a path
 * missing from it makes the lookup raise).
 */
module AtlasVerification {
  import opened Attributes

  /** A Python argument, which may or may not be a `str`. */
  datatype Arg = Str(s: string) | NotStr

  /** `s.split('.', 1)` when `s` has a dot: the text before the first dot, and all of the rest. */
  function SplitFirstDot(s: string): (r: (string, string))
    requires '.' in s
    ensures r.0 + "." + r.1 == s && '.' !in r.0
  {
    if s[0] == '.' then ("", s[1..])
    else
      var t := SplitFirstDot(s[1..]);
      ([s[0]] + t.0, t.1)
  }

  /** A dot-free node name followed by a dot and any text splits back into those two parts. */
  lemma {:induction false} SplitFirstDotOfJoin(node: string, rest: string)
    requires '.' !in node
    ensures '.' in node + "." + rest
    ensures SplitFirstDot(node + "." + rest) == (node, rest)
  {
    var s := node + "." + rest;
    assert s[|node|] == '.';
    if node != [] {
      assert s[1..] == node[1..] + "." + rest;
      assert s[0] == node[0] && node[0] != '.';
      SplitFirstDotOfJoin(node[1..], rest);
      assert node == [node[0]] + node[1..];
    }
  }

  /** Parsing the text of a plug on a dot-free node gives back its node and attribute. */
  lemma ParsePlugText(p: Plug)
    requires '.' !in p.node
    ensures '.' in PlugText(p) && SplitFirstDot(PlugText(p)) == (p.node, AttrText(p.attr))
  {
    SplitFirstDotOfJoin(p.node, AttrText(p.attr));
  }

  /** `is_attribute(attr)` */
  function IsAttribute(a: Arg, existing: set<string>, queryable: set<(string, string)>): (r: bool)
    ensures !a.Str? || '.' !in a.s ==> !r
    ensures r ==> SplitFirstDot(a.s).0 in existing
  {
    if !a.Str? || '.' !in a.s then false
    else
      var (node, plug) := SplitFirstDot(a.s);
      if node !in existing then false
      else (node, plug) in queryable
  }

  /**
   * For a path made of a dot-free node name and an attribute, `is_attribute`
   * holds exactly when the node exists and the host knows the attribute on it.
   */
  lemma IsAttributeOfPath(node: string, plug: string, existing: set<string>, queryable: set<(string, string)>)
    requires '.' !in node
    ensures IsAttribute(Str(node + "." + plug), existing, queryable) <==> node in existing && (node, plug) in queryable
  {
    SplitFirstDotOfJoin(node, plug);
  }

  /** `is_attribute_api(attr)`: a failed lookup gives false instead of raising. */
  function IsAttributeApi(a: Arg, lookup: map<string, bool>): (r: bool)
    ensures !a.Str? || '.' !in a.s ==> !r
    ensures a.Str? && a.s !in lookup ==> !r
    ensures r <==> a.Str? && '.' in a.s && a.s in lookup && lookup[a.s]
  {
    if !a.Str? || '.' !in a.s then false
    else if a.s !in lookup then false
    else lookup[a.s]
  }
}
