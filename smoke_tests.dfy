/** The translations that the repository's smoke tests exercise, over the
    token sequences the SQL tokenizer produces for them. */
module SmokeTests {
  import opened Wrappers
  import opened SqlParser
  import opened MongoDBBuilder
  import opened Translator

  /** The tokens of "SELECT name, age FROM users WHERE age > 18". */
  const SelectNameAge: Statement :=
    [Other("SELECT"), Other(" "), IdentifierList("name, age", ["name", "age"]), Other(" "),
     Other("FROM"), Other(" "), Identifier("users", "users"), Other(" "),
     Where("WHERE age > 18", [WhereOther("WHERE"), WhereOther(" "), Comparison("age", ">", "18")])]

  lemma {:induction false} SelectNameAgeTranslates(tokenize: Tokenizer)
    requires tokenize("SELECT name, age FROM users WHERE age > 18") == [SelectNameAge]
    ensures Translate(tokenize, "SELECT name, age FROM users WHERE age > 18") ==
      Success(FindPlan("users", map["age" := map["$gt" := "18"]], map["name" := 1, "age" := 1], map[]))
  {
    var stmt := SelectNameAge;
    assert Upper("SELECT") == "SELECT";
    TableNameIsFirstIdentifier(stmt, 6);
    SelectNameAgeColumns();
    SelectNameAgeWhere();
    SelectNameAgeProjection();
    FindOptionsKeys(None, None);
  }

  lemma SelectNameAgeColumns()
    ensures Columns(SelectNameAge) == ["name", "age"]
  {
    var stmt := SelectNameAge;
    assert forall i :: 0 <= i < |stmt| && i != 2 ==> !stmt[i].IdentifierList?;
    ColumnsSingleList(stmt, 2);
  }

  lemma SelectNameAgeWhere()
    ensures WhereClauseOf(SelectNameAge) == Some(map["age" := map["$gt" := "18"]])
  {
    var stmt := SelectNameAge;
    var prefix, comparison := [WhereOther("WHERE"), WhereOther(" ")], Comparison("age", ">", "18");
    assert forall j :: 0 <= j < 8 ==> !stmt[j].Where?;
    assert stmt[8].items == prefix + [comparison];
    assert SupportedOperators[">"] == "$gt";
    WhereClauseSingle(stmt, 8, prefix, comparison);
  }

  lemma SelectNameAgeProjection()
    ensures Projection(["name", "age"]) == map["name" := 1, "age" := 1]
  {
    var columns := ["name", "age"];
    assert (set i | 0 <= i < |columns| :: columns[i]) == {"name", "age"} by {
      assert columns[0] == "name" && columns[1] == "age";
    }
  }

  /** The tokens of "SELECT * FROM users WHERE status = 'active'"; the
      wildcard is a plain token, not an identifier list. */
  const SelectAllActive: Statement :=
    [Other("SELECT"), Other(" "), Other("*"), Other(" "), Other("FROM"), Other(" "),
     Identifier("users", "users"), Other(" "),
     Where("WHERE status = 'active'",
           [WhereOther("WHERE"), WhereOther(" "), Comparison("status", "=", "'active'")])]

  lemma SelectAllActiveTranslates(tokenize: Tokenizer)
    requires tokenize("SELECT * FROM users WHERE status = 'active'") == [SelectAllActive]
    ensures Translate(tokenize, "SELECT * FROM users WHERE status = 'active'") ==
      Success(FindPlan("users", map["status" := map["$eq" := "'active'"]], map[], map[]))
  {
    var stmt := SelectAllActive;
    assert Upper("SELECT") == "SELECT";
    TableNameIsFirstIdentifier(stmt, 6);
    SelectAllActiveColumns();
    SelectAllActiveWhere();
    FindOptionsKeys(None, None);
  }

  lemma SelectAllActiveColumns()
    ensures Columns(SelectAllActive) == []
  {
    var stmt := SelectAllActive;
    ColumnsWithoutLists(stmt, |stmt|);
    assert stmt[..|stmt|] == stmt;
  }

  lemma SelectAllActiveWhere()
    ensures WhereClauseOf(SelectAllActive) == Some(map["status" := map["$eq" := "'active'"]])
  {
    var stmt := SelectAllActive;
    var prefix, comparison := [WhereOther("WHERE"), WhereOther(" ")], Comparison("status", "=", "'active'");
    assert forall j :: 0 <= j < 8 ==> !stmt[j].Where?;
    assert stmt[8].items == prefix + [comparison];
    assert SupportedOperators["="] == "$eq";
    WhereClauseSingle(stmt, 8, prefix, comparison);
  }

  /** The test script's batch translates both queries, in order. */
  lemma SmokeTestBatchTranslates(tokenize: Tokenizer)
    requires tokenize("SELECT * FROM users WHERE status = 'active'") == [SelectAllActive]
    requires tokenize("SELECT name, age FROM users WHERE age > 18") == [SelectNameAge]
    ensures TranslateBatch(tokenize, ["SELECT * FROM users WHERE status = 'active'",
                                      "SELECT name, age FROM users WHERE age > 18"]) ==
      Success([FindPlan("users", map["status" := map["$eq" := "'active'"]], map[], map[]),
               FindPlan("users", map["age" := map["$gt" := "18"]], map["name" := 1, "age" := 1], map[])])
  {
    SelectAllActiveTranslates(tokenize);
    SelectNameAgeTranslates(tokenize);
    TranslateBatchPair(tokenize, "SELECT * FROM users WHERE status = 'active'",
                       "SELECT name, age FROM users WHERE age > 18",
                       FindPlan("users", map["status" := map["$eq" := "'active'"]], map[], map[]),
                       FindPlan("users", map["age" := map["$gt" := "18"]], map["name" := 1, "age" := 1], map[]));
  }
}
