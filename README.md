# Open Shop database schema conformance, in Dafny

This project models the schema conformance tests of the Open Shop database
module (`backend/open-shop-database`). Each test migrates the schema into a
live MySQL, Oracle or PostgreSQL database. It then reads back the names the
database reports for its tables, columns and indexes, and checks them against
a fixed expectation. For every category the test upper-cases the expected
names and the reported names and drops NULL names. It then requires the
missing set (expected minus actual) and the extra set (actual minus expected,
less any engine-specific noise) to be empty.

Modules follow the source files:

- `DatabaseTestConstants` holds the expectation data: the 32 domain tables, the
  index list and the column list of each table. It proves the checkable facts
  about that data.
- `AbstractSchemaTest` holds the engine-independent checks:
  - `validateTables`, `validateColumns`, the generic `validateIndexes` and
    `validateSchemaExists`;
  - the migration test and the run order of the structure tests;
  - reference definitions of each check (`TableDiff`, `ColumnCheck`,
    `IndexCheck`, `Reports`).

  Each check is modelled as imperative methods over a `NameSet` class standing
  for `java.util.HashSet<String>`, and each method is proved to compute its
  reference definition.
- `MySQLSchemaTest`, `OracleSchemaTest` and `PostgreSQLSchemaTest` hold each
  engine's hooks (`getTableNameForQuery`, `getAdditionalExpectedTables`) and
  its index validator. The index validator is written as an `IndexPolicy`
  record, which fixes four things:
  - the catalog's case;
  - whether the `IDX_` filter applies to observed names and to expected names;
  - whether a table without an index list is skipped;
  - the noise filter applied to the extras.

  Each validator is also stated as an engine-specific pass criterion.
- `NameSets` is the mutable string set: `add`, copy construction, `removeAll`
  and `removeIf`.
- `Ascii` holds the case maps and string tests.
- `Wrappers` holds `Option`, where `None` stands for a NULL name.
- `SchemaScenarios` works three small examples through the reference
  definitions: lower-case tables matching upper-case expectations, an
  unexpected column, and a system index filtered as noise.

Modelling choices:

- **Case mapping is ASCII.** `toUpperCase` and `toLowerCase` map only `a`..`z`
  and `A`..`Z`. Locale and Unicode behaviour is not modelled.
- **Database metadata is an input value, `Catalog`.** It holds:
  - the schema rows;
  - the table rows;
  - per-table column rows and index rows, keyed by the table name exactly as
    passed to the catalog query.

  So the engine's query case decides which rows a check sees. The three ways
  the engines list indexes are all this one map:
  - MySQL calls `getIndexInfo`;
  - Oracle queries `ALL_INDEXES`;
  - PostgreSQL queries `pg_indexes`.
- **AssertJ fails at the first failing assertion.** For one table the model
  computes the whole diff, meaning the full missing set and the full extra set.
  Across tables it reports the first table in `EXPECTED_TABLES` order whose
  check fails (`Reports`). The order in which names leave a `HashSet` is not
  modelled, so the model does not say which single name AssertJ would print
  first.
- **Migration and connection are parameters.** The migration is a
  `Migration` value: it either returns a success flag or throws. A connection
  is `Option<Catalog>`, where `None` is a failed connection.

Behaviours of the code worth noting:

- **Additional tables are required, not merely tolerated.** `validateTables`
  adds them to the expected set (AbstractDatabaseSchemaTest.java:146-148). So
  a database without `FLYWAY_SCHEMA_HISTORY` fails the missing-table assertion
  (`AdditionalTablesRequired`, `HistoryTableRequired`).
- **MySQL does not skip a table without an index list.** `validateIndexesMySQL`
  checks it against an empty list instead (MySQLSchemaTest.java:113-116,
  `MySQLSchemaTest.NoExpectationMeansNoIndexes`).
- **Only a thrown migration stops the structure tests.** The structure tests
  call `flyway.migrate()` and never read its success flag
  (AbstractDatabaseSchemaTest.java:102, `ShouldHaveExactTableAndColumnStructure`).
- **Noise is removed from the extras only.**
  - An expected name that matches a noise pattern must still be present
    (`NoiseOnlyFiltersExtras`).
  - The generic `validateIndexes` is private and never called. It is modelled
    as stated (`AbstractSchemaTest.ValidateIndexes`).
  - `validateSchemaExists` is likewise private and never called.

## Model

| member | source | states |
|---|---|---|
| Ascii.Upper | backend/open-shop-database/src/test/java/com/openshop/database/AbstractDatabaseSchemaTest.java:142 | upper-casing keeps the length, leaves no lower-case letter, and is the identity on names without lower-case letters |
| Ascii.Lower | backend/open-shop-database/src/test/java/com/openshop/database/MySQLSchemaTest.java:72-74 | lower-casing keeps the length, leaves no upper-case letter, and is the identity on names without upper-case letters |
| Ascii.UpperIdempotent | backend/open-shop-database/src/test/java/com/openshop/database/AbstractDatabaseSchemaTest.java:142-156 | upper-casing twice is upper-casing once, so normalised names are a normal form |
| Ascii.UpperOfLower | backend/open-shop-database/src/test/java/com/openshop/database/MySQLSchemaTest.java:72-74 | upper-casing the lower-case query form gives the same normal form as upper-casing the name |
| Ascii.UpperFixedIff | backend/open-shop-database/src/test/java/com/openshop/database/DatabaseTestConstants.java:67-72 | a name is its own upper-case form exactly when it contains no lower-case letter |
| Ascii.LowerRoundTrip | backend/open-shop-database/src/test/java/com/openshop/database/PostgreSQLSchemaTest.java:67-70 | a name without lower-case letters is recovered from its lower-case form by upper-casing |
| Ascii.EqualsIgnoreCase | backend/open-shop-database/src/test/java/com/openshop/database/AbstractDatabaseSchemaTest.java:124 | equal names are equal ignoring case, and names equal ignoring case have the same length |
| Ascii.EqualsIgnoreCaseEquivalence | backend/open-shop-database/src/test/java/com/openshop/database/AbstractDatabaseSchemaTest.java:124 | case-insensitive equality is reflexive, symmetric and transitive |
| Ascii.StartsWith | backend/open-shop-database/src/test/java/com/openshop/database/MySQLSchemaTest.java:120 | a prefix is never longer than the name, and the empty prefix begins every name |
| Ascii.Contains | backend/open-shop-database/src/test/java/com/openshop/database/AbstractDatabaseSchemaTest.java:262 | a contained part is never longer than the name, and a name contains any part it begins with |
| NameSets.NameSet.constructor | backend/open-shop-database/src/test/java/com/openshop/database/AbstractDatabaseSchemaTest.java:140 | `new HashSet<>()` starts empty |
| NameSets.NameSet.Copy | backend/open-shop-database/src/test/java/com/openshop/database/AbstractDatabaseSchemaTest.java:169 | the copy constructor holds exactly the elements of its argument |
| NameSets.NameSet.Add | backend/open-shop-database/src/test/java/com/openshop/database/AbstractDatabaseSchemaTest.java:142 | `add` inserts one element and nothing else changes |
| NameSets.NameSet.RemoveAll | backend/open-shop-database/src/test/java/com/openshop/database/AbstractDatabaseSchemaTest.java:170 | `removeAll` leaves the old elements minus those of the argument |
| NameSets.NameSet.RemoveIf | backend/open-shop-database/src/test/java/com/openshop/database/AbstractDatabaseSchemaTest.java:262 | `removeIf` keeps exactly the old elements the predicate rejects |
| NameSets.NameSet.Contains | backend/open-shop-database/src/test/java/com/openshop/database/AbstractDatabaseSchemaTest.java:163-165 | `contains` holds exactly for the elements of the current contents |
| DatabaseTestConstants.ExpectedTablesDistinct | backend/open-shop-database/src/test/java/com/openshop/database/DatabaseTestConstants.java:19-65 | `EXPECTED_TABLES` holds 32 pairwise distinct names |
| DatabaseTestConstants.IndexExpectationsCoverTheTables | backend/open-shop-database/src/test/java/com/openshop/database/DatabaseTestConstants.java:73-228 | a name is a key of `EXPECTED_TABLE_INDEXES` exactly when it is an expected table: one list per table and none for any other name |
| DatabaseTestConstants.ColumnExpectationsCoverTheTables | backend/open-shop-database/src/test/java/com/openshop/database/DatabaseTestConstants.java:235-504 | a name is a key of `EXPECTED_TABLE_COLUMNS` exactly when it is an expected table |
| DatabaseTestConstants.TableNamesUpper | backend/open-shop-database/src/test/java/com/openshop/database/DatabaseTestConstants.java:19-65 | every expected table name has no lower-case letter and is its own upper-case form |
| DatabaseTestConstants.IndexListAt | backend/open-shop-database/src/test/java/com/openshop/database/DatabaseTestConstants.java:73-228 | the table at each position of `EXPECTED_TABLES` has an index list, and every name in it begins with `IDX_` and has no lower-case letter |
| DatabaseTestConstants.IndexListCleanAt | backend/open-shop-database/src/test/java/com/openshop/database/DatabaseTestConstants.java:73-228 | the index list of the table at each position contains no `AUTO_` at any offset and names no index twice |
| DatabaseTestConstants.ColumnListAt | backend/open-shop-database/src/test/java/com/openshop/database/DatabaseTestConstants.java:235-504 | the table at each position has a column list, and it names no column twice |
| DatabaseTestConstants.ContainsAutoChars | backend/open-shop-database/src/test/java/com/openshop/database/AbstractDatabaseSchemaTest.java:262 | a name that contains `AUTO_` has the five characters `A`, `U`, `T`, `O`, `_` at some offset |
| DatabaseTestConstants.IndexNamesPrefixed | backend/open-shop-database/src/test/java/com/openshop/database/DatabaseTestConstants.java:67-228 | every expected index name begins with `IDX_`, as the doc comment on explicit `CREATE INDEX` names says |
| DatabaseTestConstants.IndexNamesUpper | backend/open-shop-database/src/test/java/com/openshop/database/DatabaseTestConstants.java:67-228 | every expected index name has no lower-case letter, as the doc comment on the index map says |
| DatabaseTestConstants.IndexNamesWithoutAuto | backend/open-shop-database/src/test/java/com/openshop/database/DatabaseTestConstants.java:67-228 | no expected index name contains `AUTO_`: all are explicit `CREATE INDEX` names, not system-generated ones |
| DatabaseTestConstants.IndexListsDistinct | backend/open-shop-database/src/test/java/com/openshop/database/DatabaseTestConstants.java:73-228 | within each table's index list no two names are equal, even after upper-casing |
| DatabaseTestConstants.ColumnListsDistinct | backend/open-shop-database/src/test/java/com/openshop/database/DatabaseTestConstants.java:235-504 | within each table's column list no two names are equal |
| AbstractSchemaTest.TableNameForQuery | backend/open-shop-database/src/test/java/com/openshop/database/AbstractDatabaseSchemaTest.java:54-58 | the query form names the same identifier ignoring case, in the engine's own case |
| AbstractSchemaTest.CompareCleanIff | backend/open-shop-database/src/test/java/com/openshop/database/AbstractDatabaseSchemaTest.java:250-266 | a comparison passes exactly when every expected name is present and every other present name is noise |
| AbstractSchemaTest.CompareExactIff | backend/open-shop-database/src/test/java/com/openshop/database/AbstractDatabaseSchemaTest.java:161-174 | without a noise filter a comparison passes exactly when the expected and actual sets are equal |
| AbstractSchemaTest.NoiseOnlyFiltersExtras | backend/open-shop-database/src/test/java/com/openshop/database/AbstractDatabaseSchemaTest.java:250-262 | the noise filter leaves the missing set untouched, so an absent expected noise-like name is still missing; it only shrinks the extras and never hides a non-noise extra |
| AbstractSchemaTest.IsNoise | backend/open-shop-database/src/test/java/com/openshop/database/AbstractDatabaseSchemaTest.java:262 | no name is noise without a filter; under either filter a `SYS_` name is noise; any other noise name is an `AUTO_` name under the `SYS_`-or-`AUTO_` filter (the MySQL rule at MySQLSchemaTest.java:151, the Oracle `SYS_` rule at OracleSchemaTest.java:147) |
| AbstractSchemaTest.Kept | backend/open-shop-database/src/test/java/com/openshop/database/AbstractDatabaseSchemaTest.java:155 | a NULL row is never kept; without the `IDX_` filter every other row is kept; with it a kept row names an index that begins with `IDX_` once upper-cased (MySQLSchemaTest.java:133) |
| AbstractSchemaTest.ExplicitIndexes | backend/open-shop-database/src/test/java/com/openshop/database/MySQLSchemaTest.java:119-121 | the stream filter keeps exactly the names that begin with `IDX_` once upper-cased, is no longer than its input, and keeps a list whole when every name qualifies |
| AbstractSchemaTest.ReportsPassedIff | backend/open-shop-database/src/test/java/com/openshop/database/AbstractDatabaseSchemaTest.java:183-219 | a per-table loop reports success exactly when every table's check succeeds |
| AbstractSchemaTest.ReportsDeterministic | backend/open-shop-database/src/test/java/com/openshop/database/AbstractDatabaseSchemaTest.java:183-219 | the fail-fast report is determined by the checks: the first failing table in list order |
| AbstractSchemaTest.ObservedNamesSnoc | backend/open-shop-database/src/test/java/com/openshop/database/AbstractDatabaseSchemaTest.java:153-158 | reading one more row adds its upper-cased name when it is kept, and nothing otherwise |
| AbstractSchemaTest.ExpectedNamesSnoc | backend/open-shop-database/src/test/java/com/openshop/database/AbstractDatabaseSchemaTest.java:141-143 | adding one more expected name adds its upper-cased form |
| AbstractSchemaTest.NullNamesDropped | backend/open-shop-database/src/test/java/com/openshop/database/AbstractDatabaseSchemaTest.java:153-158 | a NULL row anywhere among the rows of any category leaves the actual set unchanged |
| AbstractSchemaTest.ObservedNamesIgnoreCase | backend/open-shop-database/src/test/java/com/openshop/database/AbstractDatabaseSchemaTest.java:150-159 | rows that agree up to case and NULL-ness give the same actual set, so `customers` matches `CUSTOMERS` |
| AbstractSchemaTest.TablesPassIff | backend/open-shop-database/src/test/java/com/openshop/database/AbstractDatabaseSchemaTest.java:138-174 | the table check passes exactly when the upper-cased non-NULL reported names equal the upper-cased expected tables together with the additional tables |
| AbstractSchemaTest.AdditionalTablesRequired | backend/open-shop-database/src/test/java/com/openshop/database/AbstractDatabaseSchemaTest.java:146-148 | an additional table that is not reported is a missing table, so the table check fails |
| AbstractSchemaTest.UnexpectedTableIsExtra | backend/open-shop-database/src/test/java/com/openshop/database/AbstractDatabaseSchemaTest.java:168-174 | a reported table outside the expected and additional tables is an extra table |
| AbstractSchemaTest.ColumnsWithoutExpectationSkipped | backend/open-shop-database/src/test/java/com/openshop/database/AbstractDatabaseSchemaTest.java:183-187 | a table without a column list is skipped, whatever columns are reported for it |
| AbstractSchemaTest.ColumnChecksSeeOnlyExpectedTables | backend/open-shop-database/src/test/java/com/openshop/database/AbstractDatabaseSchemaTest.java:183-184 | the column checks depend only on the rows of the expected tables, so the additional tables are never column-checked |
| AbstractSchemaTest.ColumnCheckIff | backend/open-shop-database/src/test/java/com/openshop/database/AbstractDatabaseSchemaTest.java:189-218 | a table with a column list passes exactly when its reported columns equal the listed ones up to case |
| AbstractSchemaTest.ShippedCoversTables | backend/open-shop-database/src/test/java/com/openshop/database/DatabaseTestConstants.java:73-504 | every shipped table has both a column list and an index list |
| AbstractSchemaTest.CoveredTablesAlwaysChecked | backend/open-shop-database/src/test/java/com/openshop/database/AbstractDatabaseSchemaTest.java:180-268 | when every table has both lists, no column or index check takes the no-expectation branch |
| AbstractSchemaTest.ShippedIndexesNotSystem | backend/open-shop-database/src/test/java/com/openshop/database/DatabaseTestConstants.java:67-228 | no shipped expected index name begins with `SYS_` or contains `AUTO_`, so neither noise filter could match one |
| AbstractSchemaTest.ExplicitIsNotSystem | backend/open-shop-database/src/test/java/com/openshop/database/MySQLSchemaTest.java:133-151 | a name beginning with `IDX_` never begins with `SYS_` |
| AbstractSchemaTest.PrefixSurvivesUpper | backend/open-shop-database/src/test/java/com/openshop/database/MySQLSchemaTest.java:119-121 | a name beginning with `IDX_` still does once upper-cased |
| AbstractSchemaTest.SystemNoiseInertOnExplicit | backend/open-shop-database/src/test/java/com/openshop/database/MySQLSchemaTest.java:133-151 | on an `IDX_`-filtered actual set the `SYS_` filter never fires, and the `SYS_`-or-`AUTO_` filter hides exactly the names containing `AUTO_` |
| AbstractSchemaTest.ObservedExplicitOnly | backend/open-shop-database/src/test/java/com/openshop/database/OracleSchemaTest.java:126-129 | with the `IDX_` filter every actual name is an upper-case `IDX_` name |
| AbstractSchemaTest.NonExplicitRowIgnored | backend/open-shop-database/src/test/java/com/openshop/database/MySQLSchemaTest.java:131-136 | with the `IDX_` filter a NULL row or a row naming another index adds nothing |
| AbstractSchemaTest.NonExplicitExpectedAlwaysMissing | backend/open-shop-database/src/test/java/com/openshop/database/OracleSchemaTest.java:112-139 | when only observed names are `IDX_`-filtered, an expected name without the prefix is always missing and the table fails |
| AbstractSchemaTest.CollectObserved | backend/open-shop-database/src/test/java/com/openshop/database/AbstractDatabaseSchemaTest.java:150-159 | the `while (rs.next())` loop yields a fresh set holding exactly the upper-cased names of the kept rows |
| AbstractSchemaTest.CollectExpected | backend/open-shop-database/src/test/java/com/openshop/database/AbstractDatabaseSchemaTest.java:140-148 | the `for` loop yields a fresh set holding exactly the upper-cased expected names |
| AbstractSchemaTest.MissingNames | backend/open-shop-database/src/test/java/com/openshop/database/AbstractDatabaseSchemaTest.java:161-166 | the assertion loop over the expected set finds exactly expected minus actual |
| AbstractSchemaTest.ExtraNames | backend/open-shop-database/src/test/java/com/openshop/database/AbstractDatabaseSchemaTest.java:258-262 | copy, `removeAll` and `removeIf` give actual minus expected minus noise in a fresh set and leave both inputs unchanged |
| AbstractSchemaTest.CompareSets | backend/open-shop-database/src/test/java/com/openshop/database/AbstractDatabaseSchemaTest.java:161-174 | the two assertions compute the reference comparison of the two sets |
| AbstractSchemaTest.ValidateTables | backend/open-shop-database/src/test/java/com/openshop/database/AbstractDatabaseSchemaTest.java:138-175 | `validateTables` computes the table diff, and it is clean exactly when the reported tables equal the expected plus additional tables up to case |
| AbstractSchemaTest.CheckColumnsOf | backend/open-shop-database/src/test/java/com/openshop/database/AbstractDatabaseSchemaTest.java:184-218 | one iteration of the column loop computes that table's reference column check |
| AbstractSchemaTest.ValidateColumns | backend/open-shop-database/src/test/java/com/openshop/database/AbstractDatabaseSchemaTest.java:180-220 | `validateColumns` reports the first table whose columns fail, and passes exactly when every expected table's columns match |
| AbstractSchemaTest.CheckIndexesOf | backend/open-shop-database/src/test/java/com/openshop/database/AbstractDatabaseSchemaTest.java:229-266 | one iteration of an index loop computes that table's reference index check under the engine's policy |
| AbstractSchemaTest.ValidateIndexesWith | backend/open-shop-database/src/test/java/com/openshop/database/AbstractDatabaseSchemaTest.java:225-268 | an index loop reports the first table whose indexes fail, and passes exactly when every expected table's indexes match |
| AbstractSchemaTest.ValidateIndexes | backend/open-shop-database/src/test/java/com/openshop/database/AbstractDatabaseSchemaTest.java:225-268 | the generic `validateIndexes` is that loop with skip on no list and the `SYS_`-or-`AUTO_` noise filter |
| AbstractSchemaTest.ValidateSchemaExists | backend/open-shop-database/src/test/java/com/openshop/database/AbstractDatabaseSchemaTest.java:117-132 | the scan finds the schema exactly when some row names `openshop` ignoring case, and stops right after the first such row |
| AbstractSchemaTest.DeploySchemaOutcome | backend/open-shop-database/src/test/java/com/openshop/database/AbstractDatabaseSchemaTest.java:79-87 | the migration test passes exactly when the migration returns with success set |
| AbstractSchemaTest.ShouldHaveExactTableAndColumnStructure | backend/open-shop-database/src/test/java/com/openshop/database/AbstractDatabaseSchemaTest.java:92-110 | tables are validated before columns, and the columns only when the tables match; a thrown migration or a failed connection ends the test, a `false` success flag does not; the expectation is a parameter, `Shipped` in every engine test |
| AbstractSchemaTest.ShouldHaveExactIndexStructure | backend/open-shop-database/src/test/java/com/openshop/database/MySQLSchemaTest.java:76-93 | each engine's index test passes exactly when its validator passes on the expectation it is given (`Shipped` in every engine test), and otherwise reports the validator's first failing table |
| SchemaScenarios.ScenarioCaseInsensitiveTables | backend/open-shop-database/src/test/java/com/openshop/database/AbstractDatabaseSchemaTest.java:138-174 | lower-case `customers`, `orders` and `flyway_schema_history` pass against expected `CUSTOMERS`, `ORDERS` and the history table |
| SchemaScenarios.ScenarioExtraColumn | backend/open-shop-database/src/test/java/com/openshop/database/AbstractDatabaseSchemaTest.java:180-220 | reported `id`, `email` and `nickname` against expected `ID` and `EMAIL` give no missing column and the extra `NICKNAME` |
| SchemaScenarios.ScenarioSystemIndexFiltered | backend/open-shop-database/src/test/java/com/openshop/database/AbstractDatabaseSchemaTest.java:225-268 | under the generic policy a reported `SYS_C00123` beside the expected index is filtered and the check is clean |
| MySQLSchemaTest.QueryName | backend/open-shop-database/src/test/java/com/openshop/database/MySQLSchemaTest.java:71-74 | the query form is lower-case, names the same identifier, and upper-cases back to an upper-case name |
| MySQLSchemaTest.AdditionalTablesExact | backend/open-shop-database/src/test/java/com/openshop/database/MySQLSchemaTest.java:64-69 | the additional expected tables are exactly `FLYWAY_SCHEMA_HISTORY` |
| MySQLSchemaTest.HistoryTableRequired | backend/open-shop-database/src/test/java/com/openshop/database/MySQLSchemaTest.java:64-69 | without the history table the MySQL table check reports it missing and fails |
| MySQLSchemaTest.ShippedQueryNamesRoundTrip | backend/open-shop-database/src/test/java/com/openshop/database/MySQLSchemaTest.java:71-74 | every shipped table is queried by a lower-case name that upper-cases back to it |
| MySQLSchemaTest.ExpectedIndexesFiltered | backend/open-shop-database/src/test/java/com/openshop/database/MySQLSchemaTest.java:113-126 | the expected index set is the upper-cased expected names that begin with `IDX_` ignoring case |
| MySQLSchemaTest.ObservedIndexesFiltered | backend/open-shop-database/src/test/java/com/openshop/database/MySQLSchemaTest.java:128-151 | every actual index name begins with `IDX_`, and the noise filter hides it exactly when it contains `AUTO_` |
| MySQLSchemaTest.NoExpectationMeansNoIndexes | backend/open-shop-database/src/test/java/com/openshop/database/MySQLSchemaTest.java:113-116 | a table without an index list is checked against the empty list, so a reported `IDX_` index without `AUTO_` is an extra and fails it |
| MySQLSchemaTest.IndexCheckIff | backend/open-shop-database/src/test/java/com/openshop/database/MySQLSchemaTest.java:139-155 | a table's index check passes exactly when the filtered expected set is contained in the actual set and every other actual name contains `AUTO_` |
| MySQLSchemaTest.ShippedListsKeptWhole | backend/open-shop-database/src/test/java/com/openshop/database/MySQLSchemaTest.java:119-121 | the expected-side `IDX_` filter keeps every shipped index list whole |
| MySQLSchemaTest.ValidateIndexesMySQL | backend/open-shop-database/src/test/java/com/openshop/database/MySQLSchemaTest.java:109-157 | `validateIndexesMySQL` reports the first failing table and passes exactly when every expected table's indexes match under the MySQL rule |
| OracleSchemaTest.QueryName | backend/open-shop-database/src/test/java/com/openshop/database/OracleSchemaTest.java:65-68 | the query form is upper-case, names the same identifier, and is the identity on upper-case names |
| OracleSchemaTest.AdditionalTablesExact | backend/open-shop-database/src/test/java/com/openshop/database/OracleSchemaTest.java:58-63 | the additional expected tables are exactly `FLYWAY_SCHEMA_HISTORY` |
| OracleSchemaTest.HistoryTableRequired | backend/open-shop-database/src/test/java/com/openshop/database/OracleSchemaTest.java:58-63 | without the history table the Oracle table check reports it missing and fails |
| OracleSchemaTest.ShippedQueryNamesIdentity | backend/open-shop-database/src/test/java/com/openshop/database/OracleSchemaTest.java:65-68 | every shipped table is queried by its own name |
| OracleSchemaTest.NoExpectationSkipped | backend/open-shop-database/src/test/java/com/openshop/database/OracleSchemaTest.java:106-110 | a table without an index list is skipped, whatever indexes are reported for it |
| OracleSchemaTest.ObservedIndexesFiltered | backend/open-shop-database/src/test/java/com/openshop/database/OracleSchemaTest.java:117-132 | every actual index name begins with `IDX_` and is never `SYS_` noise |
| OracleSchemaTest.ExtrasExact | backend/open-shop-database/src/test/java/com/openshop/database/OracleSchemaTest.java:141-151 | the `SYS_` filter removes nothing, so the extras are exactly actual minus expected |
| OracleSchemaTest.NonExplicitExpectedMissing | backend/open-shop-database/src/test/java/com/openshop/database/OracleSchemaTest.java:112-139 | an expected index name without the `IDX_` prefix is always reported missing |
| OracleSchemaTest.IndexCheckIff | backend/open-shop-database/src/test/java/com/openshop/database/OracleSchemaTest.java:134-151 | a listed table passes exactly when its actual index set equals its upper-cased expected list |
| OracleSchemaTest.ValidateIndexesOracle | backend/open-shop-database/src/test/java/com/openshop/database/OracleSchemaTest.java:105-153 | `validateIndexesOracle` reports the first failing table and passes exactly when every listed expected table reports exactly its listed indexes |
| PostgreSQLSchemaTest.QueryName | backend/open-shop-database/src/test/java/com/openshop/database/PostgreSQLSchemaTest.java:67-70 | the query form is lower-case, names the same identifier, and upper-cases back to an upper-case name |
| PostgreSQLSchemaTest.AdditionalTablesExact | backend/open-shop-database/src/test/java/com/openshop/database/PostgreSQLSchemaTest.java:60-65 | the additional expected tables are exactly `FLYWAY_SCHEMA_HISTORY` |
| PostgreSQLSchemaTest.HistoryTableRequired | backend/open-shop-database/src/test/java/com/openshop/database/PostgreSQLSchemaTest.java:60-65 | without the history table the PostgreSQL table check reports it missing and fails |
| PostgreSQLSchemaTest.ShippedQueryNamesRoundTrip | backend/open-shop-database/src/test/java/com/openshop/database/PostgreSQLSchemaTest.java:67-70 | every shipped table is queried by a lower-case name that upper-cases back to it |
| PostgreSQLSchemaTest.NoExpectationSkipped | backend/open-shop-database/src/test/java/com/openshop/database/PostgreSQLSchemaTest.java:108-112 | a table without an index list is skipped, whatever indexes are reported for it |
| PostgreSQLSchemaTest.ObservedIndexesFiltered | backend/open-shop-database/src/test/java/com/openshop/database/PostgreSQLSchemaTest.java:119-134 | every actual index name is an upper-case name beginning with `IDX_` |
| PostgreSQLSchemaTest.ExtrasExact | backend/open-shop-database/src/test/java/com/openshop/database/PostgreSQLSchemaTest.java:143-149 | no noise filter is applied: the extras are exactly actual minus expected |
| PostgreSQLSchemaTest.NonExplicitExpectedMissing | backend/open-shop-database/src/test/java/com/openshop/database/PostgreSQLSchemaTest.java:114-140 | an expected index name without the `IDX_` prefix is always reported missing |
| PostgreSQLSchemaTest.IndexCheckIff | backend/open-shop-database/src/test/java/com/openshop/database/PostgreSQLSchemaTest.java:136-149 | a listed table passes exactly when its actual index set equals its upper-cased expected list |
| PostgreSQLSchemaTest.ValidateIndexesPostgreSQL | backend/open-shop-database/src/test/java/com/openshop/database/PostgreSQLSchemaTest.java:107-151 | `validateIndexesPostgreSQL` reports the first failing table and passes exactly when every listed expected table reports exactly its listed indexes |

## Left out

- Flyway: `deploySchema` and the `Flyway.configure()...migrate()` blocks call an external library. The migration is modelled only as a `Migration` value: it returns a flag or throws.
- JDBC: `DriverManager.getConnection`, the `DatabaseMetaData` calls and the `ALL_INDEXES` / `pg_indexes` queries are I/O. Their results are the input value `Catalog`, and a failed connection is `None`. The `OWNER`/`schemaname` arguments of the direct queries are not modelled: every catalog is read as the rows of the one schema under test.
- Each engine's `shouldValidateSchemaExists` test: these depend on the database's answer to a SQL query (`getCatalog`, or a `COUNT(*)` over `all_users` / `information_schema.schemata`). Only the row scan of `validateSchemaExists` is modelled.
- Testcontainers, and the getters `getJdbcUrl`, `getUsername`, `getPassword`, `getMigrationLocation`, `shouldCreateSchemas`: container provisioning and connection plumbing with no effect on the comparison.
- AssertJ messages and the `RuntimeException` wrapping: failures are results (`Diff`, `Verdict`, `Outcome`). The model does not say which name of a failing set is printed first, because `HashSet` iteration order is unspecified.
- Full Java case mapping: `toUpperCase`/`toLowerCase` are ASCII-only here, with no locale or Unicode rules.
- DatabaseTestConstants.TableNamesUpper: proved for the table names, and `IndexNamesUpper` proves it for every index name. The column names, about 500 of them, are not proved upper-case, because the per-character proof over each column list is too large for the verifier. For the same reason `ColumnListsDistinct` states that the names in a column list are pairwise different as written, not after upper-casing.
