/**
 * The engine-independent part of the schema conformance check: the table,
 * column and index comparisons of the abstract schema test class, the
 * schema-existence scan, and the run order of the structure test.
 *
 * Each check upper-cases the expected names and the names the database
 * reports, drops NULL names, and demands that the set of missing names
 * (expected minus actual) and the set of extra names (actual minus
 * expected, less any engine noise) are both empty.
 */
module AbstractSchemaTest {
  import opened Ascii
  import opened Wrappers
  import opened NameSets
  import opened DatabaseTestConstants

  /** The schema every engine deploys to and reads its metadata from. */
  const SchemaName: string := "openshop"
  /** Prefix of the explicitly created indexes. */
  const IndexPrefix: string := "IDX_"
  /** Prefix of system-generated index names. */
  const SystemPrefix: string := "SYS_"
  /** Marker of automatically generated index names. */
  const AutoMarker: string := "AUTO_"

  // ---------------------------------------------------------------------
  // Engine hooks
  // ---------------------------------------------------------------------

  /** The case convention of an engine's catalog for table-name arguments. */
  datatype Case = LowerCase | UpperCase

  /**
   * `getTableNameForQuery`: the form of a table name the engine's catalog
   * expects as a query argument. It names the same identifier, in the
   * engine's own case.
   */
  function TableNameForQuery(c: Case, table: string): (q: string)
    ensures |q| == |table|
    ensures EqualsIgnoreCase(q, table)
    ensures c == LowerCase ==> NoUpper(q)
    ensures c == UpperCase ==> NoLower(q)
  {
    match c
    case LowerCase => UpperOfLower(table); Lower(table)
    case UpperCase => UpperIdempotent(table); Upper(table)
  }

  /**
   * What a concrete engine test class supplies: the case of its catalog
   * (`getTableNameForQuery`) and the extra tables it expects
   * (`getAdditionalExpectedTables`).
   */
  datatype Dialect = Dialect(queryCase: Case, additionalTables: seq<string>)

  /**
   * The metadata a live database reports, one row per result-set row, a
   * NULL name being `None`. Columns and indexes are listed per table, keyed
   * by the table name exactly as it is passed to the catalog.
   */
  datatype Catalog = Catalog(
    schemas: seq<Option<string>>,
    tables: seq<Option<string>>,
    columns: map<string, seq<Option<string>>>,
    indexes: map<string, seq<Option<string>>>)

  /** The rows a per-table catalog query returns; an unknown table yields none. */
  function RowsFor(listing: map<string, seq<Option<string>>>, queryName: string): seq<Option<string>>
  {
    if queryName in listing then listing[queryName] else []
  }

  // ---------------------------------------------------------------------
  // Normalised name sets and their comparison
  // ---------------------------------------------------------------------

  /** True of a name that begins with `IDX_` once upper-cased. */
  predicate IsExplicitIndex(name: string)
  {
    StartsWith(Upper(name), IndexPrefix)
  }

  /** A reported row that enters the actual set: not NULL and, when `idxOnly`, an explicit index. */
  predicate Kept(row: Option<string>, idxOnly: bool)
    ensures Kept(row, idxOnly) ==> row.Some?
    ensures !idxOnly ==> (Kept(row, idxOnly) <==> row.Some?)
    ensures idxOnly && Kept(row, idxOnly) ==> IsExplicitIndex(row.value)
  {
    row.Some? && (!idxOnly || IsExplicitIndex(row.value))
  }

  /** The actual set built from reported rows: the upper-cased names of the kept rows. */
  function ObservedNames(rows: seq<Option<string>>, idxOnly: bool): set<string>
  {
    set r | r in rows && Kept(r, idxOnly) :: Upper(r.value)
  }

  /** The expected set built from a list of names: their upper-cased forms. */
  function ExpectedNames(names: seq<string>): set<string>
  {
    set n | n in names :: Upper(n)
  }

  /** The `removeIf` predicates the index checks apply to their extras. */
  datatype Noise = NoNoise | SysPrefix | SysPrefixOrAuto

  /** `name` is removed from the extras by the filter `noise`. */
  predicate IsNoise(noise: Noise, name: string)
    ensures IsNoise(noise, name) ==> noise != NoNoise
    ensures noise != NoNoise && StartsWith(name, SystemPrefix) ==> IsNoise(noise, name)
    ensures IsNoise(noise, name) && !StartsWith(name, SystemPrefix) ==> noise == SysPrefixOrAuto && Contains(name, AutoMarker)
  {
    match noise
    case NoNoise => false
    case SysPrefix => StartsWith(name, SystemPrefix)
    case SysPrefixOrAuto => StartsWith(name, SystemPrefix) || Contains(name, AutoMarker)
  }

  /** The outcome of comparing one expected set with one actual set. */
  datatype Diff = Diff(missing: set<string>, extra: set<string>)
  {
    /** The assertions on both sets succeed. */
    predicate Clean()
    {
      missing == {} && extra == {}
    }
  }

  /**
   * The reference comparison: every expected name must be present, and
   * every present name that is not expected is an extra unless it is noise.
   */
  function Compare(expected: set<string>, actual: set<string>, noise: Noise): Diff
  {
    Diff(expected - actual, set x | x in actual && x !in expected && !IsNoise(noise, x))
  }

  /** A comparison succeeds exactly when every expected name is present and every other present name is noise. */
  lemma CompareCleanIff(expected: set<string>, actual: set<string>, noise: Noise)
    ensures Compare(expected, actual, noise).Clean() <==>
      expected <= actual && forall x :: x in actual && x !in expected ==> IsNoise(noise, x)
  {
    var d := Compare(expected, actual, noise);
    if expected <= actual && forall x :: x in actual && x !in expected ==> IsNoise(noise, x) {
      assert d.missing == {};
      assert d.extra == {};
    }
    if d.Clean() {
      forall x | x in expected
        ensures x in actual
      {
        assert x !in d.missing;
      }
      forall x | x in actual && x !in expected
        ensures IsNoise(noise, x)
      {
        assert x !in d.extra;
      }
    }
  }

  /** Without a noise filter a comparison succeeds exactly when the two sets are equal. */
  lemma CompareExactIff(expected: set<string>, actual: set<string>)
    ensures Compare(expected, actual, NoNoise).Clean() <==> expected == actual
  {
    CompareCleanIff(expected, actual, NoNoise);
  }

  /**
   * The noise filter only ever shortens the extras: an expected name that
   * is absent is reported missing even when it looks like noise, and a
   * name that is not noise is never hidden.
   */
  lemma NoiseOnlyFiltersExtras(expected: set<string>, actual: set<string>, noise: Noise, x: string)
    ensures x in expected && x !in actual ==> x in Compare(expected, actual, noise).missing
    ensures Compare(expected, actual, noise).missing == Compare(expected, actual, NoNoise).missing
    ensures Compare(expected, actual, noise).extra <= Compare(expected, actual, NoNoise).extra
    ensures x in actual && x !in expected && !IsNoise(noise, x) ==> x in Compare(expected, actual, noise).extra
  {
  }

  // ---------------------------------------------------------------------
  // The three checks as reference definitions
  // ---------------------------------------------------------------------

  /** The expected table set: the domain tables and the engine's additional tables, upper-cased. */
  function ExpectedTableSet(d: Dialect, x: Expectation): set<string>
  {
    ExpectedNames(x.tables) + ExpectedNames(d.additionalTables)
  }

  /** The table comparison of `validateTables`. */
  function TableDiff(d: Dialect, x: Expectation, c: Catalog): Diff
  {
    Compare(ExpectedTableSet(d, x), ObservedNames(c.tables, false), NoNoise)
  }

  /** The outcome of one table's column or index check: skipped, or compared. */
  datatype Check = Skipped | Checked(diff: Diff)
  {
    predicate Ok()
    {
      Skipped? || diff.Clean()
    }
  }

  /** The column check of `validateColumns` for one expected table. */
  function ColumnCheck(d: Dialect, x: Expectation, c: Catalog, table: string): Check
  {
    if table !in x.columns then Skipped
    else
      var actual := ObservedNames(RowsFor(c.columns, TableNameForQuery(d.queryCase, table)), false);
      Checked(Compare(ExpectedNames(x.columns[table]), actual, NoNoise))
  }

  /** The column checks of all expected tables, in order. */
  function ColumnChecks(d: Dialect, x: Expectation, c: Catalog): (r: seq<Check>)
    ensures |r| == |x.tables|
  {
    seq(|x.tables|, j requires 0 <= j < |x.tables| => ColumnCheck(d, x, c, x.tables[j]))
  }

  /**
   * How an index validator differs from the others: the catalog's case,
   * whether observed and expected names are restricted to `IDX_` names,
   * whether a table without an index list is skipped (else it is expected
   * to have none), and which noise is removed from the extras.
   */
  datatype IndexPolicy = IndexPolicy(
    queryCase: Case,
    filterObservedIdx: bool,
    filterExpectedIdx: bool,
    skipWhenNoExpectation: bool,
    noise: Noise)

  /** The policy of the abstract class's own `validateIndexes`. */
  function GenericIndexPolicy(d: Dialect): IndexPolicy
  {
    IndexPolicy(d.queryCase, false, false, true, SysPrefixOrAuto)
  }

  /** The stream filter that keeps the expected index names that begin with `IDX_`. */
  function ExplicitIndexes(names: seq<string>): (r: seq<string>)
    ensures |r| <= |names|
    ensures forall n :: n in r <==> n in names && IsExplicitIndex(n)
    ensures (forall n :: n in names ==> IsExplicitIndex(n)) ==> r == names
  {
    if names == [] then []
    else
      var rest := ExplicitIndexes(names[1..]);
      if IsExplicitIndex(names[0]) then [names[0]] + rest else rest
  }

  /** The index list a validator checks a table against; `None` when it skips the table. */
  function IndexExpectation(p: IndexPolicy, x: Expectation, table: string): Option<seq<string>>
  {
    if table in x.indexes then Some(x.indexes[table])
    else if p.skipWhenNoExpectation then None
    else Some([])
  }

  /** The expected index set for a list: filtered to `IDX_` names when the policy says so. */
  function ExpectedIndexSet(p: IndexPolicy, names: seq<string>): set<string>
  {
    ExpectedNames(if p.filterExpectedIdx then ExplicitIndexes(names) else names)
  }

  /** The actual index set of one table, read with the policy's case and filter. */
  function ObservedIndexSet(p: IndexPolicy, c: Catalog, table: string): set<string>
  {
    ObservedNames(RowsFor(c.indexes, TableNameForQuery(p.queryCase, table)), p.filterObservedIdx)
  }

  /** The index check of one table under a policy. */
  function IndexCheck(p: IndexPolicy, x: Expectation, c: Catalog, table: string): Check
  {
    match IndexExpectation(p, x, table)
    case None => Skipped
    case Some(names) => Checked(Compare(ExpectedIndexSet(p, names), ObservedIndexSet(p, c, table), p.noise))
  }

  /** The index checks of all expected tables, in order. */
  function IndexChecks(p: IndexPolicy, x: Expectation, c: Catalog): (r: seq<Check>)
    ensures |r| == |x.tables|
  {
    seq(|x.tables|, j requires 0 <= j < |x.tables| => IndexCheck(p, x, c, x.tables[j]))
  }

  /** The outcome of a per-table loop: all tables passed, or the first failing table with its diff. */
  datatype Verdict = Passed | Failed(table: string, diff: Diff)

  /**
   * `v` is what a fail-fast loop over `tables` reports when `checks[j]` is
   * the check of `tables[j]`: `Passed` when every check succeeds, otherwise
   * the first table whose check fails, with that check's diff.
   */
  ghost predicate Reports(tables: seq<string>, checks: seq<Check>, v: Verdict)
  {
    |tables| == |checks| &&
    match v
    case Passed => forall j :: 0 <= j < |checks| ==> checks[j].Ok()
    case Failed(t, diff) =>
      exists k :: 0 <= k < |checks| && FailsFirstAt(tables, checks, k) && tables[k] == t && checks[k] == Checked(diff)
  }

  /** Position `k` holds the first failing check. */
  ghost predicate FailsFirstAt(tables: seq<string>, checks: seq<Check>, k: int)
    requires 0 <= k < |checks|
  {
    !checks[k].Ok() && forall j :: 0 <= j < k ==> checks[j].Ok()
  }

  /** A loop reports `Passed` exactly when every check succeeds. */
  lemma ReportsPassedIff(tables: seq<string>, checks: seq<Check>, v: Verdict)
    requires Reports(tables, checks, v)
    ensures v.Passed? <==> forall j :: 0 <= j < |checks| ==> checks[j].Ok()
  {
    if v.Failed? {
      var k :| 0 <= k < |checks| && FailsFirstAt(tables, checks, k) && tables[k] == v.table && checks[k] == Checked(v.diff);
      assert !checks[k].Ok();
    }
  }

  /** Fail-fast order does not make the report ambiguous: the inputs determine it. */
  lemma ReportsDeterministic(tables: seq<string>, checks: seq<Check>, v: Verdict, w: Verdict)
    requires Reports(tables, checks, v) && Reports(tables, checks, w)
    ensures v == w
  {
    ReportsPassedIff(tables, checks, v);
    ReportsPassedIff(tables, checks, w);
    if v.Failed? && w.Failed? {
      var k :| 0 <= k < |checks| && FailsFirstAt(tables, checks, k) && tables[k] == v.table && checks[k] == Checked(v.diff);
      var m :| 0 <= m < |checks| && FailsFirstAt(tables, checks, m) && tables[m] == w.table && checks[m] == Checked(w.diff);
      assert k == m;
    }
  }

  /** The table check passes. */
  predicate TablesPass(d: Dialect, x: Expectation, c: Catalog)
  {
    TableDiff(d, x, c).Clean()
  }

  /** The column check passes for every expected table. */
  predicate ColumnsPass(d: Dialect, x: Expectation, c: Catalog)
  {
    forall t :: t in x.tables ==> ColumnCheck(d, x, c, t).Ok()
  }

  /** The index check under policy `p` passes for every expected table. */
  predicate IndexesPass(p: IndexPolicy, x: Expectation, c: Catalog)
  {
    forall t :: t in x.tables ==> IndexCheck(p, x, c, t).Ok()
  }

  // ---------------------------------------------------------------------
  // Properties of the reference definitions
  // ---------------------------------------------------------------------

  /** Appending a row adds its upper-cased name when it is kept, and nothing otherwise. */
  lemma ObservedNamesSnoc(rows: seq<Option<string>>, r: Option<string>, idxOnly: bool)
    ensures ObservedNames(rows + [r], idxOnly) ==
      ObservedNames(rows, idxOnly) + (if Kept(r, idxOnly) then {Upper(r.value)} else {})
  {
    var lhs := ObservedNames(rows + [r], idxOnly);
    var rhs := ObservedNames(rows, idxOnly) + (if Kept(r, idxOnly) then {Upper(r.value)} else {});
    forall n | n in lhs
      ensures n in rhs
    {
      var s :| s in rows + [r] && Kept(s, idxOnly) && Upper(s.value) == n;
      if s != r {
        assert s in rows;
      }
    }
    forall n | n in rhs
      ensures n in lhs
    {
      if n in ObservedNames(rows, idxOnly) {
        var s :| s in rows && Kept(s, idxOnly) && Upper(s.value) == n;
        assert s in rows + [r];
      } else {
        assert r in rows + [r];
      }
    }
  }

  /** Appending a name adds its upper-cased form to the expected set. */
  lemma ExpectedNamesSnoc(names: seq<string>, n: string)
    ensures ExpectedNames(names + [n]) == ExpectedNames(names) + {Upper(n)}
  {
    assert n in names + [n];
    forall m | m in names
      ensures m in names + [n]
    {
    }
  }

  /** NULL names never enter an actual set, wherever they appear among the rows. */
  lemma NullNamesDropped(before: seq<Option<string>>, after: seq<Option<string>>, idxOnly: bool)
    ensures ObservedNames(before + [None] + after, idxOnly) == ObservedNames(before + after, idxOnly)
  {
    var lhs := ObservedNames(before + [None] + after, idxOnly);
    var rhs := ObservedNames(before + after, idxOnly);
    forall n | n in lhs
      ensures n in rhs
    {
      var s :| s in before + [None] + after && Kept(s, idxOnly) && Upper(s.value) == n;
      assert s in before || s in after;
      assert s in before + after;
    }
    forall n | n in rhs
      ensures n in lhs
    {
      var s :| s in before + after && Kept(s, idxOnly) && Upper(s.value) == n;
      assert s in before || s in after;
      assert s in before + [None] + after;
    }
  }

  /** Two rows that agree on NULL-ness and on their names up to case. */
  predicate SameUpToCase(a: Option<string>, b: Option<string>)
  {
    (a.None? && b.None?) || (a.Some? && b.Some? && EqualsIgnoreCase(a.value, b.value))
  }

  /**
   * The comparison is case-insensitive: reporting any name in another case
   * (say `customers` for `CUSTOMERS`) yields the same actual set.
   */
  lemma ObservedNamesIgnoreCase(rows: seq<Option<string>>, rows': seq<Option<string>>, idxOnly: bool)
    requires |rows| == |rows'|
    requires forall i :: 0 <= i < |rows| ==> SameUpToCase(rows[i], rows'[i])
    ensures ObservedNames(rows, idxOnly) == ObservedNames(rows', idxOnly)
  {
    forall n | n in ObservedNames(rows, idxOnly)
      ensures n in ObservedNames(rows', idxOnly)
    {
      var s :| s in rows && Kept(s, idxOnly) && Upper(s.value) == n;
      var i :| 0 <= i < |rows| && rows[i] == s;
      assert rows'[i] in rows';
      assert Upper(rows'[i].value) == n;
    }
    forall n | n in ObservedNames(rows', idxOnly)
      ensures n in ObservedNames(rows, idxOnly)
    {
      var s :| s in rows' && Kept(s, idxOnly) && Upper(s.value) == n;
      var i :| 0 <= i < |rows'| && rows'[i] == s;
      assert rows[i] in rows;
      assert Upper(rows[i].value) == n;
    }
  }

  /**
   * The table check passes exactly when the upper-cased non-NULL reported
   * names are the upper-cased domain tables together with the additional ones.
   */
  lemma TablesPassIff(d: Dialect, x: Expectation, c: Catalog)
    ensures TablesPass(d, x, c) <==>
      ObservedNames(c.tables, false) == ExpectedNames(x.tables) + ExpectedNames(d.additionalTables)
  {
    CompareExactIff(ExpectedTableSet(d, x), ObservedNames(c.tables, false));
  }

  /**
   * The additional tables are required, not merely tolerated: one that is
   * not reported is a missing table.
   */
  lemma AdditionalTablesRequired(d: Dialect, x: Expectation, c: Catalog, t: string)
    requires t in d.additionalTables
    requires Upper(t) !in ObservedNames(c.tables, false)
    ensures Upper(t) in TableDiff(d, x, c).missing
    ensures !TablesPass(d, x, c)
  {
    assert Upper(t) in ExpectedNames(d.additionalTables);
  }

  /** A reported table outside the domain and additional tables is an extra table. */
  lemma UnexpectedTableIsExtra(d: Dialect, x: Expectation, c: Catalog, r: Option<string>)
    requires r in c.tables && r.Some?
    requires Upper(r.value) !in ExpectedTableSet(d, x)
    ensures Upper(r.value) in TableDiff(d, x, c).extra
  {
    assert Kept(r, false);
  }

  /** A table without a column list is skipped, whatever columns the database reports for it. */
  lemma ColumnsWithoutExpectationSkipped(d: Dialect, x: Expectation, c: Catalog, t: string)
    requires t !in x.columns
    ensures ColumnCheck(d, x, c, t) == Skipped
    ensures forall cols :: ColumnCheck(d, x, c.(columns := cols), t).Ok()
  {
  }

  /**
   * Only the expected tables are column-checked: the column verdict does not
   * depend on what the catalog reports under any other query name, such as
   * that of the migration-history table.
   */
  lemma ColumnChecksSeeOnlyExpectedTables(d: Dialect, x: Expectation, c: Catalog, c': Catalog)
    requires forall t :: t in x.tables ==>
      RowsFor(c.columns, TableNameForQuery(d.queryCase, t)) == RowsFor(c'.columns, TableNameForQuery(d.queryCase, t))
    ensures ColumnChecks(d, x, c) == ColumnChecks(d, x, c')
  {
    forall j | 0 <= j < |x.tables|
      ensures ColumnChecks(d, x, c)[j] == ColumnChecks(d, x, c')[j]
    {
      assert x.tables[j] in x.tables;
    }
  }

  /** A table with a column list passes exactly when the reported columns equal the listed ones, up to case. */
  lemma ColumnCheckIff(d: Dialect, x: Expectation, c: Catalog, t: string)
    requires t in x.columns
    ensures ColumnCheck(d, x, c, t).Ok() <==>
      ObservedNames(RowsFor(c.columns, TableNameForQuery(d.queryCase, t)), false) == ExpectedNames(x.columns[t])
  {
    CompareExactIff(ExpectedNames(x.columns[t]), ObservedNames(RowsFor(c.columns, TableNameForQuery(d.queryCase, t)), false));
  }

  /** Every expected table has both a column list and an index list. */
  predicate CoversTables(x: Expectation)
  {
    forall t :: t in x.tables ==> t in x.columns && t in x.indexes
  }

  /** The shipped expectation gives every table both lists. */
  lemma ShippedCoversTables()
    ensures CoversTables(Shipped)
  {
    IndexExpectationsCoverTheTables();
    ColumnExpectationsCoverTheTables();
  }

  /**
   * When every table has both lists, no branch for a table without
   * expectations is ever taken; with `ShippedCoversTables` this holds for
   * the shipped data.
   */
  lemma CoveredTablesAlwaysChecked(d: Dialect, p: IndexPolicy, x: Expectation, c: Catalog, t: string)
    requires CoversTables(x)
    requires t in x.tables
    ensures ColumnCheck(d, x, c, t).Checked?
    ensures IndexCheck(p, x, c, t).Checked?
  {
  }

  /** An `IDX_` name can never carry the `SYS_` prefix. */
  lemma ExplicitIsNotSystem(name: string)
    requires StartsWith(name, IndexPrefix)
    ensures !StartsWith(name, SystemPrefix)
  {
    assert name[0] == IndexPrefix[0];
  }

  /** No shipped expected index name begins with `SYS_` or contains `AUTO_`: none looks system-generated. */
  lemma ShippedIndexesNotSystem()
    ensures forall t, n :: t in ExpectedTableIndexes && n in ExpectedTableIndexes[t] ==>
      !StartsWith(n, SystemPrefix) && !Contains(n, AutoMarker)
  {
    IndexNamesPrefixed();
    IndexNamesWithoutAuto();
    forall t, n | t in ExpectedTableIndexes && n in ExpectedTableIndexes[t]
      ensures !StartsWith(n, SystemPrefix)
    {
      ExplicitIsNotSystem(n);
    }
  }

  /** A name that begins with `IDX_` keeps that prefix when upper-cased. */
  lemma PrefixSurvivesUpper(name: string)
    requires StartsWith(name, IndexPrefix)
    ensures IsExplicitIndex(name)
  {
    assert Upper(name)[..|IndexPrefix|] == Upper(name[..|IndexPrefix|]);
  }

  /** On actual sets restricted to `IDX_` names, the `SYS_` part of any noise filter never fires. */
  lemma SystemNoiseInertOnExplicit(p: IndexPolicy, c: Catalog, t: string, name: string)
    requires p.filterObservedIdx
    requires name in ObservedIndexSet(p, c, t)
    ensures !StartsWith(name, SystemPrefix)
    ensures p.noise == SysPrefix ==> !IsNoise(p.noise, name)
    ensures p.noise == SysPrefixOrAuto ==> (IsNoise(p.noise, name) <==> Contains(name, AutoMarker))
  {
    var rows := RowsFor(c.indexes, TableNameForQuery(p.queryCase, t));
    var r :| r in rows && Kept(r, true) && Upper(r.value) == name;
    ExplicitIsNotSystem(name);
  }

  /** With the `IDX_` filter on, every actual name is an upper-case `IDX_` name. */
  lemma ObservedExplicitOnly(rows: seq<Option<string>>, n: string)
    requires n in ObservedNames(rows, true)
    ensures StartsWith(n, IndexPrefix) && NoLower(n)
  {
    var r :| r in rows && Kept(r, true) && Upper(r.value) == n;
  }

  /** With the `IDX_` filter on, a NULL row or a row of another name adds nothing to the actual set. */
  lemma NonExplicitRowIgnored(rows: seq<Option<string>>, r: Option<string>)
    requires r.None? || !IsExplicitIndex(r.value)
    ensures ObservedNames(rows + [r], true) == ObservedNames(rows, true)
  {
    ObservedNamesSnoc(rows, r, true);
  }

  /**
   * When observed names are restricted to `IDX_` names, an expected name
   * that does not begin with `IDX_` can never be observed and is always
   * reported missing, whatever the database holds.
   */
  lemma NonExplicitExpectedAlwaysMissing(p: IndexPolicy, x: Expectation, c: Catalog, t: string, n: string)
    requires p.filterObservedIdx && !p.filterExpectedIdx
    requires t in x.indexes && n in x.indexes[t]
    requires !IsExplicitIndex(n)
    ensures IndexCheck(p, x, c, t).Checked?
    ensures Upper(n) in IndexCheck(p, x, c, t).diff.missing
    ensures !IndexCheck(p, x, c, t).Ok()
  {
    UpperIdempotent(n);
    assert Upper(n) in ExpectedIndexSet(p, x.indexes[t]);
    var rows := RowsFor(c.indexes, TableNameForQuery(p.queryCase, t));
    forall r | r in rows && Kept(r, true)
      ensures Upper(r.value) != Upper(n)
    {
      UpperIdempotent(r.value);
    }
  }

  // ---------------------------------------------------------------------
  // The validators
  // ---------------------------------------------------------------------

  /** A `while (rs.next())` loop that adds the upper-cased name of every kept row. */
  method CollectObserved(rows: seq<Option<string>>, idxOnly: bool) returns (s: NameSet)
    ensures fresh(s)
    ensures s.elems == ObservedNames(rows, idxOnly)
  {
    s := new NameSet();
    var i := 0;
    while i < |rows|
      invariant 0 <= i <= |rows|
      invariant s.elems == ObservedNames(rows[..i], idxOnly)
    {
      var name := rows[i];
      ObservedNamesSnoc(rows[..i], name, idxOnly);
      assert rows[..i + 1] == rows[..i] + [name];
      if name.Some? && (!idxOnly || StartsWith(Upper(name.value), IndexPrefix)) {
        s.Add(Upper(name.value));
      }
      i := i + 1;
    }
    assert rows[..i] == rows;
  }

  /** A `for` loop that adds the upper-cased form of every expected name. */
  method CollectExpected(names: seq<string>) returns (s: NameSet)
    ensures fresh(s)
    ensures s.elems == ExpectedNames(names)
  {
    s := new NameSet();
    for i := 0 to |names|
      invariant s.elems == ExpectedNames(names[..i])
    {
      assert names[..i + 1] == names[..i] + [names[i]];
      assert ExpectedNames(names[..i + 1]) == ExpectedNames(names[..i]) + {Upper(names[i])};
      s.Add(Upper(names[i]));
    }
    assert names[..|names|] == names;
  }

  /** The `for` loop asserting that every expected name is present; it yields the names that are not. */
  method MissingNames(expected: NameSet, actual: NameSet) returns (missing: set<string>)
    ensures missing == expected.elems - actual.elems
  {
    missing := {};
    var todo := expected.elems;
    while todo != {}
      invariant todo <= expected.elems
      invariant missing == (expected.elems - todo) - actual.elems
      decreases todo
    {
      var e :| e in todo;
      if !actual.Contains(e) {
        missing := missing + {e};
      }
      todo := todo - {e};
    }
  }

  /**
   * `new HashSet<>(actual)`, then `removeAll(expected)` and, when the engine
   * filters noise, `removeIf(noise)`: the extras live in a fresh set, so the
   * actual and expected sets are left as they were.
   */
  method ExtraNames(actual: NameSet, expected: NameSet, noise: Noise) returns (extra: NameSet)
    ensures fresh(extra)
    ensures extra.elems == Compare(expected.elems, actual.elems, noise).extra
    ensures unchanged(actual, expected)
  {
    extra := new NameSet.Copy(actual);
    extra.RemoveAll(expected);
    if noise != NoNoise {
      extra.RemoveIf(name => IsNoise(noise, name));
    }
  }

  /** Compares a fresh expected set with a fresh actual set. */
  method CompareSets(expected: NameSet, actual: NameSet, noise: Noise) returns (r: Diff)
    ensures r == Compare(expected.elems, actual.elems, noise)
  {
    var missing := MissingNames(expected, actual);
    var extra := ExtraNames(actual, expected, noise);
    r := Diff(missing, extra.elems);
  }

  /** `validateTables`: the missing and extra tables. */
  method ValidateTables(d: Dialect, x: Expectation, c: Catalog) returns (r: Diff)
    ensures r == TableDiff(d, x, c)
    ensures r.Clean() <==> ObservedNames(c.tables, false) == ExpectedNames(x.tables) + ExpectedNames(d.additionalTables)
  {
    var expected := CollectExpected(x.tables + d.additionalTables);
    assert ExpectedNames(x.tables + d.additionalTables) == ExpectedTableSet(d, x);
    var actual := CollectObserved(c.tables, false);
    r := CompareSets(expected, actual, NoNoise);
    TablesPassIff(d, x, c);
  }

  /** The body of the column loop for one table. */
  method CheckColumnsOf(d: Dialect, x: Expectation, c: Catalog, table: string) returns (r: Check)
    ensures r == ColumnCheck(d, x, c, table)
  {
    if table !in x.columns {
      return Skipped;
    }
    var expected := CollectExpected(x.columns[table]);
    var actual := CollectObserved(RowsFor(c.columns, TableNameForQuery(d.queryCase, table)), false);
    var diff := CompareSets(expected, actual, NoNoise);
    r := Checked(diff);
  }

  /** `validateColumns`: stops at the first expected table whose columns do not match. */
  method ValidateColumns(d: Dialect, x: Expectation, c: Catalog) returns (v: Verdict)
    ensures Reports(x.tables, ColumnChecks(d, x, c), v)
    ensures v.Passed? <==> ColumnsPass(d, x, c)
  {
    ghost var checks := ColumnChecks(d, x, c);
    var i := 0;
    while i < |x.tables|
      invariant 0 <= i <= |x.tables|
      invariant forall j :: 0 <= j < i ==> checks[j].Ok()
    {
      var r := CheckColumnsOf(d, x, c, x.tables[i]);
      if !r.Ok() {
        v := Failed(x.tables[i], r.diff);
        assert FailsFirstAt(x.tables, checks, i);
        ReportsPassedIff(x.tables, checks, v);
        return;
      }
      i := i + 1;
    }
    v := Passed;
    forall t | t in x.tables
      ensures ColumnCheck(d, x, c, t).Ok()
    {
      var j :| 0 <= j < |x.tables| && x.tables[j] == t;
      assert checks[j].Ok();
    }
  }

  /** The body of an index loop for one table, under a policy. */
  method CheckIndexesOf(p: IndexPolicy, x: Expectation, c: Catalog, table: string) returns (r: Check)
    ensures r == IndexCheck(p, x, c, table)
  {
    var names: seq<string>;
    if table in x.indexes {
      names := x.indexes[table];
    } else if p.skipWhenNoExpectation {
      return Skipped;
    } else {
      names := [];
    }
    if p.filterExpectedIdx {
      names := ExplicitIndexes(names);
    }
    var expected := CollectExpected(names);
    var actual := CollectObserved(RowsFor(c.indexes, TableNameForQuery(p.queryCase, table)), p.filterObservedIdx);
    var diff := CompareSets(expected, actual, p.noise);
    r := Checked(diff);
  }

  /** The loop every index validator runs: stops at the first expected table whose indexes do not match. */
  method ValidateIndexesWith(p: IndexPolicy, x: Expectation, c: Catalog) returns (v: Verdict)
    ensures Reports(x.tables, IndexChecks(p, x, c), v)
    ensures v.Passed? <==> IndexesPass(p, x, c)
  {
    ghost var checks := IndexChecks(p, x, c);
    var i := 0;
    while i < |x.tables|
      invariant 0 <= i <= |x.tables|
      invariant forall j :: 0 <= j < i ==> checks[j].Ok()
    {
      var r := CheckIndexesOf(p, x, c, x.tables[i]);
      if !r.Ok() {
        v := Failed(x.tables[i], r.diff);
        assert FailsFirstAt(x.tables, checks, i);
        ReportsPassedIff(x.tables, checks, v);
        return;
      }
      i := i + 1;
    }
    v := Passed;
    forall t | t in x.tables
      ensures IndexCheck(p, x, c, t).Ok()
    {
      var j :| 0 <= j < |x.tables| && x.tables[j] == t;
      assert checks[j].Ok();
    }
  }

  /** The abstract class's own `validateIndexes` (declared but never called). */
  method ValidateIndexes(d: Dialect, x: Expectation, c: Catalog) returns (v: Verdict)
    ensures Reports(x.tables, IndexChecks(GenericIndexPolicy(d), x, c), v)
    ensures v.Passed? <==> IndexesPass(GenericIndexPolicy(d), x, c)
  {
    v := ValidateIndexesWith(GenericIndexPolicy(d), x, c);
  }

  /** A schema row that names the schema under test, ignoring case; NULL never does. */
  predicate NamesSchema(row: Option<string>)
  {
    row.Some? && EqualsIgnoreCase(SchemaName, row.value)
  }

  /**
   * `validateSchemaExists`: scans the schema rows until one names the
   * schema. `read` is the number of rows consumed; the scan stops right
   * after the first match.
   */
  method ValidateSchemaExists(c: Catalog) returns (found: bool, read: nat)
    ensures read <= |c.schemas|
    ensures found <==> exists i :: 0 <= i < |c.schemas| && NamesSchema(c.schemas[i])
    ensures found ==> 0 < read && NamesSchema(c.schemas[read - 1])
    ensures forall j :: 0 <= j < read - 1 ==> !NamesSchema(c.schemas[j])
    ensures !found ==> read == |c.schemas|
  {
    found := false;
    read := 0;
    while read < |c.schemas|
      invariant 0 <= read <= |c.schemas|
      invariant forall j :: 0 <= j < read ==> !NamesSchema(c.schemas[j])
    {
      var name := c.schemas[read];
      read := read + 1;
      if name.Some? && EqualsIgnoreCase(SchemaName, name.value) {
        found := true;
        break;
      }
    }
  }

  // ---------------------------------------------------------------------
  // Name sets of literal lists
  // ---------------------------------------------------------------------

  /** The expected set of a two-name list. */
  lemma ExpectedNamesOfTwo(a: string, b: string)
    ensures ExpectedNames([a, b]) == {Upper(a), Upper(b)}
  {
    assert a in [a, b] && b in [a, b];
  }

  /** The expected set of a three-name list. */
  lemma ExpectedNamesOfThree(a: string, b: string, c: string)
    ensures ExpectedNames([a, b, c]) == {Upper(a), Upper(b), Upper(c)}
  {
    assert a in [a, b, c] && b in [a, b, c] && c in [a, b, c];
  }

  /** The actual set of two reported names, neither NULL. */
  lemma ObservedNamesOfTwo(a: string, b: string)
    ensures ObservedNames([Some(a), Some(b)], false) == {Upper(a), Upper(b)}
  {
    assert Some(a) in [Some(a), Some(b)] && Some(b) in [Some(a), Some(b)];
  }

  /** The actual set of three reported names, none NULL. */
  lemma ObservedNamesOfThree(a: string, b: string, c: string)
    ensures ObservedNames([Some(a), Some(b), Some(c)], false) == {Upper(a), Upper(b), Upper(c)}
  {
    var rows := [Some(a), Some(b), Some(c)];
    assert rows[0] in rows && rows[1] in rows && rows[2] in rows;
  }

  // ---------------------------------------------------------------------
  // Run order of the tests
  // ---------------------------------------------------------------------

  /** What the migration call does: it returns a result carrying a success flag, or throws. */
  datatype Migration = Migrated(success: bool) | MigrationThrew

  /** The outcome of one schema test. */
  datatype Outcome =
    | Pass
    | MigrationError
    | ConnectionError
    | TablesMismatch(tables: Diff)
    | ColumnsMismatch(table: string, columns: Diff)
    | IndexesMismatch(table: string, indexes: Diff)

  /** `shouldDeploySchemaWithoutSqlErrors`: the migration must return and report success. */
  function DeploySchemaOutcome(m: Migration): (o: Outcome)
    ensures o == Pass <==> m == Migrated(true)
    ensures o != Pass ==> o == MigrationError
  {
    match m
    case MigrationThrew => MigrationError
    case Migrated(success) => if success then Pass else MigrationError
  }

  /**
   * `shouldHaveExactTableAndColumnStructure`: migrate (the returned flag is
   * not inspected), open a connection (`None` when it fails), validate the
   * tables, and only when they match validate the columns. Every engine
   * runs it with `x` the shipped expectation `Shipped`.
   */
  method ShouldHaveExactTableAndColumnStructure(d: Dialect, x: Expectation, m: Migration, conn: Option<Catalog>) returns (o: Outcome)
    ensures m.MigrationThrew? ==> o == MigrationError
    ensures m.Migrated? && conn.None? ==> o == ConnectionError
    ensures m.Migrated? && conn.Some? && !TablesPass(d, x, conn.value) ==>
      o == TablesMismatch(TableDiff(d, x, conn.value))
    ensures m.Migrated? && conn.Some? && TablesPass(d, x, conn.value) ==>
      (o == Pass <==> ColumnsPass(d, x, conn.value)) &&
      (o != Pass ==> o.ColumnsMismatch? && Reports(x.tables, ColumnChecks(d, x, conn.value), Failed(o.table, o.columns)))
  {
    if m.MigrationThrew? {
      return MigrationError;
    }
    if conn.None? {
      return ConnectionError;
    }
    var c := conn.value;
    var tables := ValidateTables(d, x, c);
    if !tables.Clean() {
      return TablesMismatch(tables);
    }
    var columns := ValidateColumns(d, x, c);
    match columns
    case Passed => o := Pass;
    case Failed(t, diff) => o := ColumnsMismatch(t, diff);
  }

  /**
   * The `shouldHaveExactIndexStructure` test every engine class declares:
   * migrate (flag not inspected), connect, and run the engine's index
   * validator against `x`, the shipped expectation `Shipped`.
   */
  method ShouldHaveExactIndexStructure(p: IndexPolicy, x: Expectation, m: Migration, conn: Option<Catalog>) returns (o: Outcome)
    ensures m.MigrationThrew? ==> o == MigrationError
    ensures m.Migrated? && conn.None? ==> o == ConnectionError
    ensures m.Migrated? && conn.Some? ==>
      (o == Pass <==> IndexesPass(p, x, conn.value)) &&
      (o != Pass ==> o.IndexesMismatch? && Reports(x.tables, IndexChecks(p, x, conn.value), Failed(o.table, o.indexes)))
  {
    if m.MigrationThrew? {
      return MigrationError;
    }
    if conn.None? {
      return ConnectionError;
    }
    var indexes := ValidateIndexesWith(p, x, conn.value);
    match indexes
    case Passed => o := Pass;
    case Failed(t, diff) => o := IndexesMismatch(t, diff);
  }
}
