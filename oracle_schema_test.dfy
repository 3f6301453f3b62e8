/**
 * The Oracle engine: an upper-casing catalog, the migration-history table
 * as an additional expected table, and its own index validator, which reads
 * the index list of each table, keeps only the `IDX_` names it reports,
 * skips tables without an index list, and filters `SYS_` names from the
 * extras.
 */
module OracleSchemaTest {
  import opened Ascii
  import opened Wrappers
  import opened DatabaseTestConstants
  import opened AbstractSchemaTest

  /** The table the migration tool keeps its history in. */
  const HistoryTable: string := "FLYWAY_SCHEMA_HISTORY"

  /** `getAdditionalExpectedTables`. */
  const AdditionalExpectedTables: seq<string> := [HistoryTable]

  /** The engine hooks the abstract tests use. */
  const Engine: Dialect := Dialect(UpperCase, AdditionalExpectedTables)

  /** How `validateIndexesOracle` differs from the other index validators. */
  const IndexRules: IndexPolicy := IndexPolicy(Engine.queryCase, true, false, true, SysPrefix)

  /** `getTableNameForQuery`: the upper-case form, which leaves an upper-case name as it is. */
  function QueryName(table: string): (q: string)
    ensures NoLower(q)
    ensures EqualsIgnoreCase(q, table)
    ensures NoLower(table) ==> q == table
  {
    TableNameForQuery(UpperCase, table)
  }

  /** The additional expected tables, normalised, are exactly the history table. */
  lemma AdditionalTablesExact()
    ensures ExpectedNames(AdditionalExpectedTables) == {HistoryTable}
  {
    assert AdditionalExpectedTables[0] == HistoryTable;
    assert Upper(HistoryTable) == HistoryTable;
  }

  /** A database without the history table fails the table check: the table is required. */
  lemma HistoryTableRequired(x: Expectation, c: Catalog)
    requires HistoryTable !in ObservedNames(c.tables, false)
    ensures HistoryTable in TableDiff(Engine, x, c).missing
    ensures !TablesPass(Engine, x, c)
  {
    AdditionalTablesExact();
    assert HistoryTable in ExpectedTableSet(Engine, x);
  }

  /** Every shipped table is queried by its own name. */
  lemma ShippedQueryNamesIdentity()
    ensures forall t :: t in ExpectedTables ==> QueryName(t) == t
  {
    TableNamesUpper();
  }

  /** A table without an index list is skipped, whatever indexes the database reports for it. */
  lemma NoExpectationSkipped(x: Expectation, c: Catalog, table: string)
    requires table !in x.indexes
    ensures IndexCheck(IndexRules, x, c, table) == Skipped
    ensures forall idx :: IndexCheck(IndexRules, x, c.(indexes := idx), table).Ok()
  {
  }

  /** Only non-NULL reported names that begin with `IDX_` once upper-cased enter the actual set. */
  lemma ObservedIndexesFiltered(c: Catalog, table: string, n: string)
    requires n in ObservedIndexSet(IndexRules, c, table)
    ensures StartsWith(n, IndexPrefix)
    ensures !IsNoise(IndexRules.noise, n)
  {
    ObservedExplicitOnly(RowsFor(c.indexes, QueryName(table)), n);
    SystemNoiseInertOnExplicit(IndexRules, c, table, n);
  }

  /** The `SYS_` filter never removes anything: the extras are exactly actual minus expected. */
  lemma ExtrasExact(x: Expectation, c: Catalog, table: string)
    requires table in x.indexes
    ensures IndexCheck(IndexRules, x, c, table) ==
      Checked(Diff(ExpectedNames(x.indexes[table]) - ObservedIndexSet(IndexRules, c, table),
                   ObservedIndexSet(IndexRules, c, table) - ExpectedNames(x.indexes[table])))
  {
    forall n | n in ObservedIndexSet(IndexRules, c, table)
      ensures !IsNoise(IndexRules.noise, n)
    {
      ObservedIndexesFiltered(c, table, n);
    }
  }

  /** An expected name without the `IDX_` prefix can never be reported, so it is always missing. */
  lemma NonExplicitExpectedMissing(x: Expectation, c: Catalog, table: string, n: string)
    requires table in x.indexes && n in x.indexes[table]
    requires !IsExplicitIndex(n)
    ensures Upper(n) in IndexCheck(IndexRules, x, c, table).diff.missing
    ensures !IndexCheck(IndexRules, x, c, table).Ok()
  {
    NonExplicitExpectedAlwaysMissing(IndexRules, x, c, table, n);
  }

  /** The per-table rule of `validateIndexesOracle`: a listed table reports exactly its listed indexes. */
  predicate IndexesMatch(x: Expectation, c: Catalog, table: string)
  {
    table in x.indexes ==> ObservedIndexSet(IndexRules, c, table) == ExpectedNames(x.indexes[table])
  }

  /** The index check of a table succeeds exactly when its indexes match under that rule. */
  lemma IndexCheckIff(x: Expectation, c: Catalog, table: string)
    ensures IndexCheck(IndexRules, x, c, table).Ok() <==> IndexesMatch(x, c, table)
  {
    if table in x.indexes {
      ExtrasExact(x, c, table);
    }
  }

  /** `validateIndexesOracle`: stops at the first expected table whose indexes do not match. */
  method ValidateIndexesOracle(x: Expectation, c: Catalog) returns (v: Verdict)
    ensures Reports(x.tables, IndexChecks(IndexRules, x, c), v)
    ensures v.Passed? <==> forall t :: t in x.tables ==> IndexesMatch(x, c, t)
  {
    v := ValidateIndexesWith(IndexRules, x, c);
    forall t | t in x.tables
      ensures IndexCheck(IndexRules, x, c, t).Ok() <==> IndexesMatch(x, c, t)
    {
      IndexCheckIff(x, c, t);
    }
  }
}
