/**
 * Worked scenarios of the schema comparison on small catalogs: lower-case
 * table names matching upper-case expectations, an unexpected column, and
 * a system-generated index filtered out as noise.
 */
module SchemaScenarios {
  import opened Ascii
  import opened Wrappers
  import opened DatabaseTestConstants
  import opened AbstractSchemaTest

  // The case maps of the scenario names, one literal at a time.
  lemma UpperCustomers() ensures Upper("customers") == "CUSTOMERS" {}
  lemma LowerCustomers() ensures Lower("CUSTOMERS") == "customers" {}
  lemma UpperOrders() ensures Upper("orders") == "ORDERS" {}
  lemma UpperHistory() ensures Upper("flyway_schema_history") == "FLYWAY_SCHEMA_HISTORY" {}
  lemma UpperColumns() ensures Upper("id") == "ID" && Upper("email") == "EMAIL" && Upper("nickname") == "NICKNAME" {}
  lemma UpperIndexes()
    ensures Upper("IDX_CUSTOMER_EMAIL_VERIFIED") == "IDX_CUSTOMER_EMAIL_VERIFIED" && Upper("SYS_C00123") == "SYS_C00123"
  {}

  /** Lower-case reported tables match upper-case expectations, and the history table is expected. */
  lemma ScenarioCaseInsensitiveTables()
    ensures TablesPass(
      Dialect(LowerCase, ["FLYWAY_SCHEMA_HISTORY"]),
      Expectation(["CUSTOMERS", "ORDERS"], map[], map[]),
      Catalog([], [Some("customers"), Some("orders"), Some("flyway_schema_history")], map[], map[]))
  {
    ObservedNamesOfThree("customers", "orders", "flyway_schema_history");
    ExpectedNamesOfTwo("CUSTOMERS", "ORDERS");
    UpperCustomers();
    UpperOrders();
    UpperHistory();
    assert Upper("CUSTOMERS") == "CUSTOMERS" by { UpperIdempotent("customers"); }
    assert Upper("ORDERS") == "ORDERS" by { UpperIdempotent("orders"); }
    assert Upper("FLYWAY_SCHEMA_HISTORY") == "FLYWAY_SCHEMA_HISTORY" by { UpperIdempotent("flyway_schema_history"); }
    assert ExpectedNames(["FLYWAY_SCHEMA_HISTORY"]) == {"FLYWAY_SCHEMA_HISTORY"};
  }

  /** A reported column that is not expected is an extra, and no expected column is missing. */
  lemma ScenarioExtraColumn()
    ensures ColumnCheck(
      Dialect(LowerCase, []),
      Expectation(["CUSTOMERS"], map[], map["CUSTOMERS" := ["ID", "EMAIL"]]),
      Catalog([], [], map["customers" := [Some("id"), Some("email"), Some("nickname")]], map[]),
      "CUSTOMERS") == Checked(Diff({}, {"NICKNAME"}))
  {
    assert TableNameForQuery(LowerCase, "CUSTOMERS") == "customers" by { LowerCustomers(); }
    assert ObservedNames([Some("id"), Some("email"), Some("nickname")], false) == {"ID", "EMAIL", "NICKNAME"} by {
      ObservedNamesOfThree("id", "email", "nickname");
      UpperColumns();
    }
    assert ExpectedNames(["ID", "EMAIL"]) == {"ID", "EMAIL"} by {
      ExpectedNamesOfTwo("ID", "EMAIL");
      UpperColumns();
      UpperIdempotent("id");
      UpperIdempotent("email");
    }
    assert Compare({"ID", "EMAIL"}, {"ID", "EMAIL", "NICKNAME"}, NoNoise) == Diff({}, {"NICKNAME"});
  }

  /** Under the generic index policy a system-generated extra is filtered and the check passes. */
  lemma ScenarioSystemIndexFiltered()
    ensures IndexCheck(
      GenericIndexPolicy(Dialect(UpperCase, [])),
      Expectation(["CUSTOMERS"], map["CUSTOMERS" := ["IDX_CUSTOMER_EMAIL_VERIFIED"]], map[]),
      Catalog([], [], map[], map["CUSTOMERS" := [Some("SYS_C00123"), Some("IDX_CUSTOMER_EMAIL_VERIFIED")]]),
      "CUSTOMERS") == Checked(Diff({}, {}))
  {
    UpperCustomers();
    ObservedNamesOfTwo("SYS_C00123", "IDX_CUSTOMER_EMAIL_VERIFIED");
    assert ExpectedNames(["IDX_CUSTOMER_EMAIL_VERIFIED"]) == {"IDX_CUSTOMER_EMAIL_VERIFIED"} by { UpperIndexes(); }
    UpperIndexes();
    assert StartsWith("SYS_C00123", SystemPrefix);
  }
}
