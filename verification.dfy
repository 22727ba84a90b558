/**
 * Node-kind predicates of core/utils/verification.py. Each Python `is_x(name)`
 * asks the host for the node's type (`get_node_type(name)`, an OpenMaya query
 * that is not part of this model) and compares it with one exact, case-sensitive
 * type name; here the predicate takes that type string. The same predicates are
 * repeated verbatim in atlas_matrix/core/utils/verification.py and are modelled
 * once, here.
 */
module Verification {

  import Text

  predicate IsMultMatrix(kind: string) { kind == "multMatrix" }

  predicate IsAddMatrix(kind: string) { kind == "addMatrix" }

  predicate IsWtAddMatrix(kind: string) { kind == "wtAddMatrix" }

  predicate IsJoint(kind: string) { kind == "joint" }

  predicate IsInverseMatrix(kind: string) { kind == "inverseMatrix" }

  predicate IsComposeMatrix(kind: string) { kind == "composeMatrix" }

  predicate IsDecomposeMatrix(kind: string) { kind == "decomposeMatrix" }

  /**
   * `is_holdmatrix` is defined twice in the module; Python keeps the later
   * definition, which compares with "holdMatrix". The earlier one compared with
   * "multMatrix" and is dead.
   */
  predicate IsHoldMatrix(kind: string) { kind == "holdMatrix" }

  predicate IsPickMatrix(kind: string) { kind == "pickMatrix" }

  function Indicator(b: bool): nat { if b then 1 else 0 }

  /** How many of the kind predicates hold for one node kind. */
  function KindMatches(kind: string): nat {
    Indicator(IsMultMatrix(kind)) + Indicator(IsAddMatrix(kind)) + Indicator(IsWtAddMatrix(kind))
    + Indicator(IsJoint(kind)) + Indicator(IsInverseMatrix(kind)) + Indicator(IsComposeMatrix(kind))
    + Indicator(IsDecomposeMatrix(kind)) + Indicator(IsHoldMatrix(kind)) + Indicator(IsPickMatrix(kind))
  }

  /** The predicates are mutually exclusive: at most one holds for any node. */
  lemma KindPredicatesExclusive(kind: string)
    ensures KindMatches(kind) <= 1
  {
  }

  /**
   * The effective `is_holdmatrix` no longer accepts a multMatrix (as the
   * shadowed first definition did), and addMatrix and wtAddMatrix are told apart.
   */
  lemma HoldMatrixIsNotMultMatrix(kind: string)
    ensures IsHoldMatrix(kind) ==> !IsMultMatrix(kind)
    ensures !IsHoldMatrix("multMatrix") && IsHoldMatrix("holdMatrix")
    ensures IsAddMatrix(kind) ==> !IsWtAddMatrix(kind)
  {
  }

  /** A string with an upper-case ASCII letter is not its own lower-casing. */
  lemma CapitalNotLower(s: string, i: nat)
    requires i < |s| && 'A' <= s[i] <= 'Z'
    ensures Text.Lower(s) != s
  {
    assert Text.Lower(s)[i] == Text.LowerChar(s[i]) != s[i];
  }

  /**
   * The comparison is case-sensitive: every type name but "joint" has a
   * capital letter, so a type string written all in lower case (such as
   * "multmatrix") passes none of the predicates except `is_joint`.
   */
  lemma KindPredicatesCaseSensitive(kind: string)
    ensures Text.Lower(kind) == kind ==> KindMatches(kind) == Indicator(IsJoint(kind))
  {
    if IsMultMatrix(kind) || IsAddMatrix(kind) || IsHoldMatrix(kind) || IsPickMatrix(kind) {
      CapitalNotLower(kind, if IsAddMatrix(kind) then 3 else 4);
    } else if IsWtAddMatrix(kind) {
      CapitalNotLower(kind, 2);
    } else if IsInverseMatrix(kind) || IsComposeMatrix(kind) {
      CapitalNotLower(kind, 7);
    } else if IsDecomposeMatrix(kind) {
      CapitalNotLower(kind, 9);
    }
  }
}
