/** The MongoDB query builder: turns a `ParsedSQL` record into a find,
    insert, update or delete plan. */
module MongoDBBuilder {
  import opened Wrappers
  import opened Errors
  import opened Dicts
  import opened SqlParser

  /** A document to insert or a `$set` payload. */
  type Document = map<string, Value>

  /** The values an `options` dict can hold under its keys. */
  datatype OptionValue =
    | SortOption(sort: map<string, int>)
    | LimitOption(limit: int)
    | MultiOption(multi: bool)

  /** The query dict the builder returns, one constructor per operation. */
  datatype Plan =
    | FindPlan(collection: string, filter: Filter, projection: map<string, int>,
               options: map<string, OptionValue>)
    | InsertPlan(collection: string, documents: seq<Document>)
    | UpdatePlan(collection: string, filter: Filter, update: map<string, Document>,
                 options: map<string, OptionValue>)
    | DeletePlan(collection: string, filter: Filter)
  {
    /** The `"operation"` entry of the dict. */
    function Operation(): string
    {
      match this
      case FindPlan(_, _, _, _) => "find"
      case InsertPlan(_, _) => "insert"
      case UpdatePlan(_, _, _, _) => "update"
      case DeletePlan(_, _) => "delete"
    }
  }

  // ---------------------------------------------------------------------
  // Python truthiness of the optional fields

  /** `parsed_sql.order_by` is truthy. */
  predicate OrderByGiven(orderBy: Option<seq<OrderItem>>)
  {
    orderBy.Some? && orderBy.value != []
  }

  /** `parsed_sql.limit` is truthy: present and not 0. */
  predicate LimitGiven(limit: Option<int>)
  {
    limit.Some? && limit.value != 0
  }

  /** `values` is truthy. */
  predicate ValuesGiven(values: Option<seq<Value>>)
  {
    values.Some? && values.value != []
  }

  /** `parsed_sql.where_clause or {}` */
  function FilterOf(whereClause: Option<Filter>): Filter
  {
    match whereClause
    case Some(w) => w
    case None => map[]
  }

  // ---------------------------------------------------------------------
  // Projection and sort

  /** `_build_projection`: `{}` for no columns or a leading `*`, otherwise
      every column mapped to 1. */
  function Projection(columns: seq<string>): (p: map<string, int>)
    ensures columns == [] || columns[0] == "*" ==> p == map[]
    ensures columns != [] && columns[0] != "*" ==>
      p.Keys == (set i | 0 <= i < |columns| :: columns[i]) && forall c :: c in p ==> p[c] == 1
  {
    if columns == [] || columns[0] == "*" then map[]
    else
      var pairs := seq(|columns|, i requires 0 <= i < |columns| => (columns[i], 1));
      assert KeysOf(pairs) == set i | 0 <= i < |columns| :: columns[i] by {
        assert forall i :: 0 <= i < |columns| ==> pairs[i].0 == columns[i];
      }
      FromPairs(pairs)
  }

  /** 1 for "ASC", -1 for any other direction. */
  function Direction(direction: string): int
  {
    if direction == "ASC" then 1 else -1
  }

  function SortPairs(orderBy: seq<OrderItem>): seq<(string, int)>
  {
    seq(|orderBy|, i requires 0 <= i < |orderBy| => (orderBy[i].field, Direction(orderBy[i].direction)))
  }

  /** `_build_sort`: the ORDER BY fields, each mapped to 1 or -1. */
  function Sort(orderBy: seq<OrderItem>): (s: map<string, int>)
    ensures s.Keys == set i | 0 <= i < |orderBy| :: orderBy[i].field
    ensures forall f :: f in s ==> s[f] == 1 || s[f] == -1
  {
    var pairs := SortPairs(orderBy);
    assert KeysOf(pairs) == set i | 0 <= i < |orderBy| :: orderBy[i].field by {
      assert forall i :: 0 <= i < |orderBy| ==> pairs[i].0 == orderBy[i].field;
    }
    FromPairs(pairs)
  }

  /** A field repeated in ORDER BY takes the direction of its last entry. */
  lemma SortLastWins(orderBy: seq<OrderItem>, i: nat)
    requires i < |orderBy|
    requires forall j :: i < j < |orderBy| ==> orderBy[j].field != orderBy[i].field
    ensures orderBy[i].field in Sort(orderBy)
    ensures Sort(orderBy)[orderBy[i].field] == if orderBy[i].direction == "ASC" then 1 else -1
  {
    FromPairsLastWins(SortPairs(orderBy), i);
  }

  // ---------------------------------------------------------------------
  // find

  /** The options of a find query: `sort` when ORDER BY is given, `limit`
      when the limit is truthy. */
  function FindOptions(orderBy: Option<seq<OrderItem>>, limit: Option<int>): map<string, OptionValue>
  {
    (if OrderByGiven(orderBy) then map["sort" := SortOption(Sort(orderBy.value))] else map[]) +
    (if LimitGiven(limit) then map["limit" := LimitOption(limit.value)] else map[])
  }

  lemma FindOptionsKeys(orderBy: Option<seq<OrderItem>>, limit: Option<int>)
    ensures FindOptions(orderBy, limit).Keys <= {"sort", "limit"}
    ensures "sort" in FindOptions(orderBy, limit) <==> OrderByGiven(orderBy)
    ensures "limit" in FindOptions(orderBy, limit) <==> LimitGiven(limit)
    ensures OrderByGiven(orderBy) ==>
      FindOptions(orderBy, limit)["sort"] == SortOption(Sort(orderBy.value))
    ensures LimitGiven(limit) ==> FindOptions(orderBy, limit)["limit"] == LimitOption(limit.value)
    ensures !OrderByGiven(orderBy) && !LimitGiven(limit) ==> FindOptions(orderBy, limit) == map[]
  {
  }

  /** The find query `_build_find_query` returns. */
  function FindQuery(p: ParsedSQL): Plan
  {
    FindPlan(p.tableName, FilterOf(p.whereClause), Projection(p.columns),
             FindOptions(p.orderBy, p.limit))
  }

  /** `_build_find_query`: starts from empty options and adds `sort` and
      `limit` to them one after the other. */
  method BuildFindQuery(p: ParsedSQL) returns (query: Plan)
    ensures query == FindQuery(p)
  {
    var options: map<string, OptionValue> := map[];
    if OrderByGiven(p.orderBy) {
      options := options["sort" := SortOption(Sort(p.orderBy.value))];
    }
    if LimitGiven(p.limit) {
      options := options["limit" := LimitOption(p.limit.value)];
    }
    assert options == FindOptions(p.orderBy, p.limit) by {
      FindOptionsKeys(p.orderBy, p.limit);
    }
    query := FindPlan(p.tableName, FilterOf(p.whereClause), Projection(p.columns), options);
  }

  // ---------------------------------------------------------------------
  // insert

  /** `iter(row)` as `zip` uses it: a list yields its elements, a string its
      characters, anything else cannot be iterated. */
  function RowItems(row: Value): Result<seq<Value>, Error>
  {
    match row
    case List(items) => Success(items)
    case Str(s) => Success(seq(|s|, i requires 0 <= i < |s| => Str([s[i]])))
    case _ => Failure(NotIterable)
  }

  /** One document per row, in row order; the first row that cannot be
      iterated makes the whole list fail. */
  function RowDocuments(columns: seq<string>, rows: seq<Value>): (r: Result<seq<Document>, Error>)
    ensures r.Success? <==> forall i :: 0 <= i < |rows| ==> RowItems(rows[i]).Success?
    ensures r.Success? ==> |r.value| == |rows|
    ensures r.Success? ==>
      forall i :: 0 <= i < |rows| ==> r.value[i] == ZipDict(columns, RowItems(rows[i]).value)
    ensures r.Failure? ==> r.error == NotIterable
  {
    if rows == [] then Success([])
    else
      match RowItems(rows[0])
      case Failure(e) => Failure(e)
      case Success(items) =>
        match RowDocuments(columns, rows[1..])
        case Failure(e) => Failure(e)
        case Success(docs) =>
          assert forall i :: 1 <= i < |rows| ==> rows[1..][i - 1] == rows[i];
          Success([ZipDict(columns, items)] + docs)
  }

  /** `_build_documents` */
  function Documents(columns: seq<string>, values: seq<Value>): Result<seq<Document>, Error>
  {
    if values == [] then Success([])
    else if values[0].List? then RowDocuments(columns, values)
    else Success([ZipDict(columns, values)])
  }

  /** When the first value is not a list, the values are one row and make
      exactly one document. */
  lemma DocumentsSingleRow(columns: seq<string>, values: seq<Value>)
    requires values != [] && !values[0].List?
    ensures Documents(columns, values).Success?
    ensures |Documents(columns, values).value| == 1
    ensures Documents(columns, values).value[0] == ZipDict(columns, values)
  {
  }

  /** When every value is a list, each is a row and makes one document, in
      row order, from the columns zipped with that row. */
  lemma DocumentsRows(columns: seq<string>, values: seq<Value>)
    requires values != [] && forall i :: 0 <= i < |values| ==> values[i].List?
    ensures Documents(columns, values).Success?
    ensures |Documents(columns, values).value| == |values|
    ensures forall i :: 0 <= i < |values| ==>
      Documents(columns, values).value[i] == ZipDict(columns, values[i].items)
  {
  }

  /** `_build_insert_query` */
  function InsertQuery(p: ParsedSQL): Result<Plan, Error>
  {
    if !ValuesGiven(p.values) then Failure(NoInsertValues)
    else
      match Documents(p.columns, p.values.value)
      case Failure(e) => Failure(e)
      case Success(documents) => Success(InsertPlan(p.tableName, documents))
  }

  // ---------------------------------------------------------------------
  // update and delete

  /** `_build_update_document` */
  function UpdateDocument(columns: seq<string>, values: Option<seq<Value>>): map<string, Document>
  {
    if !ValuesGiven(values) then map[] else map["$set" := ZipDict(columns, values.value)]
  }

  /** `_build_update_query` */
  function UpdateQuery(p: ParsedSQL): Plan
  {
    UpdatePlan(p.tableName, FilterOf(p.whereClause), UpdateDocument(p.columns, p.values),
               map["multi" := MultiOption(true)])
  }

  /** `_build_delete_query` */
  function DeleteQuery(p: ParsedSQL): Plan
  {
    DeletePlan(p.tableName, FilterOf(p.whereClause))
  }

  // ---------------------------------------------------------------------
  // build

  /** `build`: dispatch on the query type. Only INSERT can fail. */
  function Build(p: ParsedSQL): (r: Result<Plan, Error>)
    ensures !p.queryType.Insert? ==> r.Success?
    ensures r.Success? ==> r.value.collection == p.tableName
    ensures r.Success? ==> (r.value.Operation() == "find" <==> p.queryType.Select?)
    ensures r.Success? ==> (r.value.Operation() == "insert" <==> p.queryType.Insert?)
    ensures r.Success? ==> (r.value.Operation() == "update" <==> p.queryType.Update?)
    ensures r.Success? ==> (r.value.Operation() == "delete" <==> p.queryType.Delete?)
    ensures p.queryType.Insert? && !ValuesGiven(p.values) ==> r == Failure(NoInsertValues)
  {
    match p.queryType
    case Select => Success(FindQuery(p))
    case Insert => InsertQuery(p)
    case Update => Success(UpdateQuery(p))
    case Delete => Success(DeleteQuery(p))
  }

  /** Find, update and delete plans filter by the WHERE conditions when there
      are any and by `{}` otherwise. */
  lemma BuildFilter(p: ParsedSQL)
    requires !p.queryType.Insert?
    ensures Build(p).Success? && !Build(p).value.InsertPlan?
    ensures p.whereClause.Some? ==> Build(p).value.filter == p.whereClause.value
    ensures p.whereClause.None? ==> Build(p).value.filter == map[]
  {
  }

  /** A find plan's projection and options. */
  lemma BuildFind(p: ParsedSQL)
    requires p.queryType.Select?
    ensures Build(p).Success? && Build(p).value.FindPlan?
    ensures Build(p).value.projection == Projection(p.columns)
    ensures Build(p).value.options == FindOptions(p.orderBy, p.limit)
    ensures "sort" in Build(p).value.options <==> OrderByGiven(p.orderBy)
    ensures "limit" in Build(p).value.options <==> LimitGiven(p.limit)
    ensures !OrderByGiven(p.orderBy) && !LimitGiven(p.limit) ==> Build(p).value.options == map[]
  {
    FindOptionsKeys(p.orderBy, p.limit);
  }

  /** An update plan always updates many documents, and sets the zipped
      columns and values only when there are values. */
  lemma BuildUpdate(p: ParsedSQL)
    requires p.queryType.Update?
    ensures Build(p).Success? && Build(p).value.UpdatePlan?
    ensures Build(p).value.options == map["multi" := MultiOption(true)]
    ensures !ValuesGiven(p.values) ==> Build(p).value.update == map[]
    ensures ValuesGiven(p.values) ==>
      Build(p).value.update == map["$set" := ZipDict(p.columns, p.values.value)]
  {
  }

  /** An insert plan exists exactly when there are values and every row can
      be zipped. */
  lemma BuildInsert(p: ParsedSQL)
    requires p.queryType.Insert?
    ensures Build(p).Success? <==> ValuesGiven(p.values) && Documents(p.columns, p.values.value).Success?
    ensures Build(p).Success? ==>
      Build(p).value == InsertPlan(p.tableName, Documents(p.columns, p.values.value).value)
    ensures ValuesGiven(p.values) && Build(p).Failure? ==> Build(p).error == NotIterable
  {
  }
}
