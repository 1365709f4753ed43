/** The translator: parse, then build, for one query or a list of them.
    The translator object only holds a parser and a builder that it creates
    once, so translation is a function of the query text. */
module Translator {
  import opened Wrappers
  import opened Errors
  import opened SqlParser
  import opened MongoDBBuilder

  /** What the SQL tokenizer makes of a query text. */
  type Tokenizer = string -> seq<Statement>

  /** `translate`: `build(parse(sql_query))`; an error in either stage is the
      error of the translation. */
  function Translate(tokenize: Tokenizer, sqlQuery: string): Result<Plan, Error>
  {
    match Parse(tokenize(sqlQuery))
    case Failure(e) => Failure(e)
    case Success(parsedSql) => Build(parsedSql)
  }

  /** A failure to parse is the translation's failure; a parsed query
      translates to what the builder makes of it. */
  lemma TranslateStages(tokenize: Tokenizer, sqlQuery: string)
    ensures Parse(tokenize(sqlQuery)).Failure? ==>
      Translate(tokenize, sqlQuery) == Failure(Parse(tokenize(sqlQuery)).error)
    ensures Parse(tokenize(sqlQuery)).Success? ==>
      Translate(tokenize, sqlQuery) == Build(Parse(tokenize(sqlQuery)).value)
  {
  }

  /** The values of `results` when all of them succeed, otherwise the error
      of the first failure: what a list comprehension whose element
      expression may raise evaluates to. */
  function Collect<T(==), E(==)>(results: seq<Result<T, E>>): (r: Result<seq<T>, E>)
    ensures r.Success? <==> forall i :: 0 <= i < |results| ==> results[i].Success?
    ensures r.Success? ==> |r.value| == |results|
    ensures r.Success? ==> forall i :: 0 <= i < |results| ==> results[i] == Success(r.value[i])
    ensures r.Failure? ==>
      exists i :: 0 <= i < |results| && results[i] == Failure(r.error) &&
        (forall j :: 0 <= j < i ==> results[j].Success?)
  {
    if results == [] then Success([])
    else
      var rest := results[1..];
      assert forall i :: 1 <= i < |results| ==> rest[i - 1] == results[i];
      match results[0]
      case Failure(e) => Failure(e)
      case Success(v) =>
        match Collect(rest)
        case Failure(e) =>
          var k :| 0 <= k < |rest| && rest[k] == Failure(e) &&
            (forall j :: 0 <= j < k ==> rest[j].Success?);
          assert results[k + 1] == Failure(e);
          Failure(e)
        case Success(vs) => Success([v] + vs)
  }

  /** Collecting results that all succeed yields exactly their values. */
  lemma {:induction false} CollectAll<T, E>(results: seq<Result<T, E>>, values: seq<T>)
    requires |values| == |results|
    requires forall i :: 0 <= i < |results| ==> results[i] == Success(values[i])
    ensures Collect(results) == Success(values)
  {
    if results != [] {
      var rest, later := results[1..], values[1..];
      forall i | 0 <= i < |rest| ensures rest[i] == Success(later[i]) {
        assert rest[i] == results[i + 1] && later[i] == values[i + 1];
      }
      CollectAll(rest, later);
      assert values == [values[0]] + later;
    }
  }

  /** The translations of the queries, in order. */
  function Translations(tokenize: Tokenizer, sqlQueries: seq<string>): (rs: seq<Result<Plan, Error>>)
    ensures |rs| == |sqlQueries|
    ensures forall i :: 0 <= i < |sqlQueries| ==> rs[i] == Translate(tokenize, sqlQueries[i])
  {
    seq(|sqlQueries|, i requires 0 <= i < |sqlQueries| => Translate(tokenize, sqlQueries[i]))
  }

  /** `translate_batch`: translates the queries in order, and the first
      query that fails makes the whole batch fail with its error. */
  function TranslateBatch(tokenize: Tokenizer, sqlQueries: seq<string>): Result<seq<Plan>, Error>
  {
    Collect(Translations(tokenize, sqlQueries))
  }

  /** A batch succeeds exactly when every query translates, and then holds
      each query's plan at its position; otherwise it fails with the error
      of the first query that does not translate. */
  lemma TranslateBatchResult(tokenize: Tokenizer, sqlQueries: seq<string>)
    ensures TranslateBatch(tokenize, sqlQueries).Success? <==>
      forall i :: 0 <= i < |sqlQueries| ==> Translate(tokenize, sqlQueries[i]).Success?
    ensures TranslateBatch(tokenize, sqlQueries).Success? ==>
      && |TranslateBatch(tokenize, sqlQueries).value| == |sqlQueries|
      && forall i :: 0 <= i < |sqlQueries| ==>
           Translate(tokenize, sqlQueries[i]) == Success(TranslateBatch(tokenize, sqlQueries).value[i])
    ensures TranslateBatch(tokenize, sqlQueries).Failure? ==>
      exists i :: 0 <= i < |sqlQueries| && Translate(tokenize, sqlQueries[i]) == Failure(TranslateBatch(tokenize, sqlQueries).error) &&
        (forall j :: 0 <= j < i ==> Translate(tokenize, sqlQueries[j]).Success?)
  {
    var rs := Translations(tokenize, sqlQueries);
    var r := Collect(rs);
    if r.Failure? {
      var i :| 0 <= i < |rs| && rs[i] == Failure(r.error) && (forall j :: 0 <= j < i ==> rs[j].Success?);
      assert Translate(tokenize, sqlQueries[i]) == Failure(r.error);
    }
  }

  /** Conversely, a batch whose queries all translate yields their plans, in
      order. */
  lemma TranslateBatchAll(tokenize: Tokenizer, sqlQueries: seq<string>, plans: seq<Plan>)
    requires |plans| == |sqlQueries|
    requires forall i :: 0 <= i < |sqlQueries| ==> Translate(tokenize, sqlQueries[i]) == Success(plans[i])
    ensures TranslateBatch(tokenize, sqlQueries) == Success(plans)
  {
    CollectAll(Translations(tokenize, sqlQueries), plans);
  }

  /** A batch of two queries that both translate. */
  lemma TranslateBatchPair(tokenize: Tokenizer, q1: string, q2: string, p1: Plan, p2: Plan)
    requires Translate(tokenize, q1) == Success(p1) && Translate(tokenize, q2) == Success(p2)
    ensures TranslateBatch(tokenize, [q1, q2]) == Success([p1, p2])
  {
    TranslateBatchAll(tokenize, [q1, q2], [p1, p2]);
  }

  /** A query that occurs twice in a batch translates the same both times. */
  lemma BatchRepeatsAgree(tokenize: Tokenizer, sqlQueries: seq<string>, i: nat, j: nat)
    requires i < |sqlQueries| && j < |sqlQueries| && sqlQueries[i] == sqlQueries[j]
    requires TranslateBatch(tokenize, sqlQueries).Success?
    ensures TranslateBatch(tokenize, sqlQueries).value[i] == TranslateBatch(tokenize, sqlQueries).value[j]
  {
    TranslateBatchResult(tokenize, sqlQueries);
  }

  // ---------------------------------------------------------------------
  // End-to-end consequences of the parser's stubs

  /** No INSERT translates: the parser never supplies values and the builder
      refuses an INSERT without them. */
  lemma InsertAlwaysFails(tokenize: Tokenizer, sqlQuery: string)
    ensures Parse(tokenize(sqlQuery)).Success? && Parse(tokenize(sqlQuery)).value.queryType.Insert? ==>
      Translate(tokenize, sqlQuery) == Failure(NoInsertValues)
    ensures Translate(tokenize, sqlQuery).Success? ==> !Translate(tokenize, sqlQuery).value.InsertPlan?
  {
  }

  /** Every translated SELECT has empty options: neither sort nor limit. */
  lemma SelectHasNoOptions(tokenize: Tokenizer, sqlQuery: string)
    requires Translate(tokenize, sqlQuery).Success?
    requires Translate(tokenize, sqlQuery).value.FindPlan?
    ensures Translate(tokenize, sqlQuery).value.options == map[]
  {
    var p := Parse(tokenize(sqlQuery)).value;
    FindOptionsKeys(p.orderBy, p.limit);
  }

  /** Every translated UPDATE sets nothing: values are only extracted for
      INSERT, so the update document is always `{}`. */
  lemma UpdateSetsNothing(tokenize: Tokenizer, sqlQuery: string)
    requires Translate(tokenize, sqlQuery).Success?
    requires Translate(tokenize, sqlQuery).value.UpdatePlan?
    ensures Translate(tokenize, sqlQuery).value.update == map[]
    ensures Translate(tokenize, sqlQuery).value.options == map["multi" := MultiOption(true)]
  {
  }

  /** A translated plan reads its collection and filter off the first
      statement: the first identifier and the first WHERE token. */
  lemma TranslateFromFirstStatement(tokenize: Tokenizer, sqlQuery: string)
    requires Translate(tokenize, sqlQuery).Success?
    ensures tokenize(sqlQuery) != [] && tokenize(sqlQuery)[0] != []
    ensures Translate(tokenize, sqlQuery).value.collection == TableName(tokenize(sqlQuery)[0])
    ensures !Translate(tokenize, sqlQuery).value.InsertPlan? ==>
      Translate(tokenize, sqlQuery).value.filter == FilterOf(WhereClauseOf(tokenize(sqlQuery)[0]))
  {
  }

  /** A query whose first word is not a statement keyword makes the batch
      fail with that word, upper-cased, when every query before it
      translates, whatever the queries after it are. */
  lemma UnknownKeywordFailsBatch(tokenize: Tokenizer, sqlQueries: seq<string>, k: nat)
    requires k < |sqlQueries|
    requires forall j :: 0 <= j < k ==> Translate(tokenize, sqlQueries[j]).Success?
    requires tokenize(sqlQueries[k]) != [] && tokenize(sqlQueries[k])[0] != []
    requires QueryTypeOf(tokenize(sqlQueries[k])[0][0].text).Failure?
    ensures TranslateBatch(tokenize, sqlQueries) ==
      Failure(UnknownQueryType(Upper(tokenize(sqlQueries[k])[0][0].text)))
  {
    var e := UnknownQueryType(Upper(tokenize(sqlQueries[k])[0][0].text));
    assert Translate(tokenize, sqlQueries[k]) == Failure(e);
    TranslateBatchResult(tokenize, sqlQueries);
    var r := TranslateBatch(tokenize, sqlQueries);
    assert r.Failure?;
    var i :| 0 <= i < |sqlQueries| && Translate(tokenize, sqlQueries[i]) == Failure(r.error) &&
      (forall j :: 0 <= j < i ==> Translate(tokenize, sqlQueries[j]).Success?);
    assert i == k;
  }

  /** "garbage" after a query that translates: the batch fails, and the
      error names the word upper-cased. */
  lemma GarbageFailsBatch(tokenize: Tokenizer, first: string)
    requires Translate(tokenize, first).Success?
    requires tokenize("garbage") == [[Identifier("garbage", "garbage")]]
    ensures TranslateBatch(tokenize, [first, "garbage"]) == Failure(UnknownQueryType("GARBAGE"))
  {
    var queries := [first, "garbage"];
    assert queries[1] == "garbage";
    assert Upper("garbage") == "GARBAGE";
    UnknownKeywordFailsBatch(tokenize, queries, 1);
  }
}
