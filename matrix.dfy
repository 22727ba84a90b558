/**
 * The `Matrix` helper of core/matrix.py: the driven and driver objects taken
 * from the arguments or the selection, the constraining token of a constraint
 * type, and the node names built from them.
 */
module MatrixNames {
  import opened Wrappers
  import opened Text

  /** What `Matrix.__init__` stores. */
  datatype Matrix = Matrix(driven: string, drivers: seq<string>)

  const InitError := ValueError("Provide driven and at least one driver (or select drivers then driven).")

  /** Python truthiness of an optional name: `None` and `""` are false. */
  predicate GivenName(o: Option<string>) {
    o.Some? && o.value != ""
  }

  /** Python truthiness of an optional list: `None` and `[]` are false. */
  predicate GivenList(o: Option<seq<string>>) {
    o.Some? && o.value != []
  }

  /**
   * `Matrix(driven, driver)`: a missing driven is the last selected object, a
   * missing driver list all the objects selected before it; without a driven
   * or without a driver it raises ValueError.
   */
  function NewMatrix(driven: Option<string>, driver: Option<seq<string>>, selection: seq<string>): (r: Result<Matrix>)
    ensures GivenName(driven) && GivenList(driver) ==> r == Ok(Matrix(driven.value, driver.value))
    ensures !GivenName(driven) && !GivenList(driver) ==>
      && (r.Ok? <==> |selection| >= 2 && selection[|selection| - 1] != "")
      && (r.Ok? ==> r.value.drivers + [r.value.driven] == selection)
    ensures GivenName(driven) && !GivenList(driver) ==>
      (r.Ok? <==> |selection| >= 2) && (r.Ok? ==> r.value.driven == driven.value && r.value.drivers == selection[..|selection| - 1])
    ensures !GivenName(driven) && GivenList(driver) ==>
      && (r.Ok? <==> selection != [] && selection[|selection| - 1] != "")
      && (r.Ok? ==> r.value == Matrix(selection[|selection| - 1], driver.value))
    ensures r.Ok? ==> r.value.driven != "" && r.value.drivers != []
    ensures r.Err? ==> r.error == InitError
  {
    var d := if GivenName(driven) then driven.value else if selection != [] then selection[|selection| - 1] else "";
    var ds := if GivenList(driver) then driver.value else if selection != [] then selection[..|selection| - 1] else [];
    if d == "" || ds == [] then Err(InitError) else Ok(Matrix(d, ds))
  }

  /** `constraining_string(constraint_type)`: the token of a constraint type, `None` for an unknown type. */
  function ConstrainingString(constraintType: string): (r: Option<string>)
    ensures r.Some? <==> constraintType == "parent" || constraintType == "aim"
    ensures constraintType == "parent" ==> r == Some("pconstrainedby")
    ensures constraintType == "aim" ==> r == Some("aconstrainedby")
  {
    if constraintType == "parent" then Some("pconstrainedby")
    else if constraintType == "aim" then Some("aconstrainedby")
    else None
  }

  /** How an f-string shows an optional string: `None` prints as "None". */
  function Shown(o: Option<string>): string {
    if o.Some? then o.value else "None"
  }

  /** The token as an f-string shows it: "pconstrainedby", "aconstrainedby", or "None" for an unknown type. */
  lemma TokenShown(constraintType: string)
    ensures Shown(ConstrainingString(constraintType)) in {"pconstrainedby", "aconstrainedby", "None"}
    ensures Shown(ConstrainingString(constraintType)) == "None" <==> constraintType != "parent" && constraintType != "aim"
  {
  }

  /** The items of a Python list of strings as `repr` shows them, without the brackets. */
  function ItemsRepr(xs: seq<string>): string {
    if xs == [] then ""
    else if |xs| == 1 then "'" + xs[0] + "'"
    else "'" + xs[0] + "', " + ItemsRepr(xs[1..])
  }

  /** `repr` of a list of names that hold no quote or backslash. */
  function ListRepr(xs: seq<string>): string {
    "[" + ItemsRepr(xs) + "]"
  }

  const MultPrefix := "multMatrix_"
  const HoldPrefix := "holdMatrix_"
  const DecomposePrefix := "decomposeMatrix_"
  const ComposePrefix := "composeMatrix_"

  /**
   * A name builder as written: the f-string formats `self.driver`, which is
   * the driver LIST, so the name carries the list's repr.
   */
  function AsWrittenName(prefix: string, m: Matrix, constraintType: string): string {
    prefix + m.driven + "_" + Shown(ConstrainingString(constraintType)) + "_" + ListRepr(m.drivers)
  }

  /** `mult_matrix(constraint_type)` as written. */
  function AsWrittenMultMatrix(m: Matrix, constraintType: string): string {
    AsWrittenName(MultPrefix, m, constraintType)
  }

  /** `hold_matrix(constraint_type)` as written. */
  function AsWrittenHoldMatrix(m: Matrix, constraintType: string): string {
    AsWrittenName(HoldPrefix, m, constraintType)
  }

  /** `decompose_matrix(constraint_type)` as written. */
  function AsWrittenDecomposeMatrix(m: Matrix, constraintType: string): string {
    AsWrittenName(DecomposePrefix, m, constraintType)
  }

  /** `compose_matrix(constraint_type)` as written. */
  function AsWrittenComposeMatrix(m: Matrix, constraintType: string): string {
    AsWrittenName(ComposePrefix, m, constraintType)
  }

  /** Even as written, the four builders of one Matrix give four different names. */
  lemma AsWrittenNamesDistinct(m: Matrix, constraintType: string)
    ensures var names := [AsWrittenMultMatrix(m, constraintType), AsWrittenHoldMatrix(m, constraintType),
                          AsWrittenDecomposeMatrix(m, constraintType), AsWrittenComposeMatrix(m, constraintType)];
      forall j, k :: 0 <= j < k < 4 ==> names[j] != names[k]
  {
    var names := [AsWrittenMultMatrix(m, constraintType), AsWrittenHoldMatrix(m, constraintType),
                  AsWrittenDecomposeMatrix(m, constraintType), AsWrittenComposeMatrix(m, constraintType)];
    assert names[0][0] == 'm' && names[1][0] == 'h' && names[2][0] == 'd' && names[3][0] == 'c';
  }

  /** A name as written contains the driven's name and the shown token. */
  lemma AsWrittenNameContainsParts(prefix: string, m: Matrix, constraintType: string)
    ensures var n := AsWrittenName(prefix, m, constraintType);
      Contains(n, m.driven) && Contains(n, Shown(ConstrainingString(constraintType)))
  {
    var n := AsWrittenName(prefix, m, constraintType);
    var t := Shown(ConstrainingString(constraintType));
    assert n[|prefix|..|prefix| + |m.driven|] == m.driven;
    ContainsAt(n, m.driven, |prefix|);
    var at := |prefix| + |m.driven| + 1;
    assert n[at..at + |t|] == t;
    ContainsAt(n, t, at);
  }

  /**
   * With the single driver "a" of driven "b", the name written is
   * "multMatrix_b_pconstrainedby_['a']", not the per-driver name
   * "multMatrix_b_pconstrainedby_a".
   */
  lemma AsWrittenMultMatrixExample()
    ensures AsWrittenMultMatrix(Matrix("b", ["a"]), "parent") == "multMatrix_b_pconstrainedby_['a']"
    ensures AsWrittenMultMatrix(Matrix("b", ["a"]), "parent") != NodeName(MultPrefix, "b", "parent", "a")
  {
    assert ListRepr(["a"]) == "['a']";
    AsWrittenNeverDocumented(MultPrefix, "b", "parent", "a");
  }

  /** For any single driver the written name is four characters longer than the per-driver name, so never equal to it. */
  lemma AsWrittenNeverDocumented(prefix: string, driven: string, constraintType: string, driver: string)
    ensures |AsWrittenName(prefix, Matrix(driven, [driver]), constraintType)| == |NodeName(prefix, driven, constraintType, driver)| + 4
    ensures AsWrittenName(prefix, Matrix(driven, [driver]), constraintType) != NodeName(prefix, driven, constraintType, driver)
  {
  }

  /**
   * The intended name for one driver: prefix, driven, token and driver,
   * joined by underscores.
   */
  function NodeName(prefix: string, driven: string, constraintType: string, driver: string): string {
    prefix + driven + "_" + Shown(ConstrainingString(constraintType)) + "_" + driver
  }

  /** The name of the multMatrix that driver `i` feeds. */
  function MultMatrixName(m: Matrix, constraintType: string, i: nat): string
    requires i < |m.drivers|
  {
    NodeName(MultPrefix, m.driven, constraintType, m.drivers[i])
  }

  function HoldMatrixName(m: Matrix, constraintType: string, i: nat): string
    requires i < |m.drivers|
  {
    NodeName(HoldPrefix, m.driven, constraintType, m.drivers[i])
  }

  function DecomposeMatrixName(m: Matrix, constraintType: string, i: nat): string
    requires i < |m.drivers|
  {
    NodeName(DecomposePrefix, m.driven, constraintType, m.drivers[i])
  }

  function ComposeMatrixName(m: Matrix, constraintType: string, i: nat): string
    requires i < |m.drivers|
  {
    NodeName(ComposePrefix, m.driven, constraintType, m.drivers[i])
  }

  /** The four names of one driver differ in their first character, so they are pairwise distinct. */
  lemma NamesDistinct(m: Matrix, constraintType: string, i: nat)
    requires i < |m.drivers|
    ensures var names := [MultMatrixName(m, constraintType, i), HoldMatrixName(m, constraintType, i),
                          DecomposeMatrixName(m, constraintType, i), ComposeMatrixName(m, constraintType, i)];
      forall j, k :: 0 <= j < k < 4 ==> names[j] != names[k]
  {
    var names := [MultMatrixName(m, constraintType, i), HoldMatrixName(m, constraintType, i),
                  DecomposeMatrixName(m, constraintType, i), ComposeMatrixName(m, constraintType, i)];
    assert names[0][0] == 'm' && names[1][0] == 'h' && names[2][0] == 'd' && names[3][0] == 'c';
  }

  /** Every name contains the driven's name, the shown token and the driver's name. */
  lemma NameContainsParts(prefix: string, driven: string, constraintType: string, driver: string)
    ensures var n := NodeName(prefix, driven, constraintType, driver);
      Contains(n, driven) && Contains(n, Shown(ConstrainingString(constraintType))) && Contains(n, driver)
  {
    var n := NodeName(prefix, driven, constraintType, driver);
    var t := Shown(ConstrainingString(constraintType));
    assert n[|prefix|..|prefix| + |driven|] == driven;
    ContainsAt(n, driven, |prefix|);
    var at := |prefix| + |driven| + 1;
    assert n[at..at + |t|] == t;
    ContainsAt(n, t, at);
    assert n[|n| - |driver|..|n|] == driver;
    ContainsAt(n, driver, |n| - |driver|);
  }

  /** Hence, for a parent constraint, every name carries "pconstrainedby". */
  lemma ParentNamesCarryToken(m: Matrix, i: nat)
    requires i < |m.drivers|
    ensures Contains(MultMatrixName(m, "parent", i), "pconstrainedby") && Contains(MultMatrixName(m, "parent", i), m.driven)
    ensures Contains(HoldMatrixName(m, "parent", i), "pconstrainedby") && Contains(HoldMatrixName(m, "parent", i), m.driven)
    ensures Contains(DecomposeMatrixName(m, "parent", i), "pconstrainedby") && Contains(DecomposeMatrixName(m, "parent", i), m.driven)
    ensures Contains(ComposeMatrixName(m, "parent", i), "pconstrainedby") && Contains(ComposeMatrixName(m, "parent", i), m.driven)
  {
    NameContainsParts(MultPrefix, m.driven, "parent", m.drivers[i]);
    NameContainsParts(HoldPrefix, m.driven, "parent", m.drivers[i]);
    NameContainsParts(DecomposePrefix, m.driven, "parent", m.drivers[i]);
    NameContainsParts(ComposePrefix, m.driven, "parent", m.drivers[i]);
  }
}
