/** The SQL parser: classifies a tokenized statement, picks out its table,
    columns and WHERE conditions, and assembles a `ParsedSQL` record.

    The tokenizer itself (the `sqlparse` library) is not modelled: a statement
    arrives as the sequence of its top-level tokens, each carrying its text
    and the little structure the parser inspects. */
module SqlParser {
  import opened Wrappers
  import opened Errors

  /** The four statement kinds; `Keyword()` is the enum member's value. */
  datatype QueryType = Select | Insert | Update | Delete
  {
    function Keyword(): string
    {
      match this
      case Select => "SELECT"
      case Insert => "INSERT"
      case Update => "UPDATE"
      case Delete => "DELETE"
    }
  }

  /** One ORDER BY entry, the dict `{"field": ..., "direction": ...}`. */
  datatype OrderItem = OrderItem(field: string, direction: string)

  /** A Python value carried in INSERT or UPDATE values. */
  datatype Value =
    | Str(s: string)
    | Number(n: int)
    | Bool(b: bool)
    | Null
    | List(items: seq<Value>)

  /** A WHERE clause in target form: field -> {operator: raw value text}. */
  type Filter = map<string, map<string, string>>

  /** The parser's output record. */
  datatype ParsedSQL = ParsedSQL(
    queryType: QueryType,
    tableName: string,
    columns: seq<string>,
    whereClause: Option<Filter>,
    orderBy: Option<seq<OrderItem>>,
    limit: Option<int>,
    values: Option<seq<Value>>)

  /** A child of a WHERE token: a comparison, with the real name of its left
      side, the text of its operator and the raw text of its right side,
      or anything else (the WHERE keyword, whitespace, AND, ...). */
  datatype WhereItem =
    | Comparison(field: string, op: string, right: string)
    | WhereOther(text: string)

  /** A top-level token of a statement. `text` is the token's value. */
  datatype Token =
    | Identifier(text: string, realName: string)
    | IdentifierList(text: string, names: seq<string>)
    | Where(text: string, items: seq<WhereItem>)
    | Other(text: string)

  type Statement = seq<Token>

  /** SQL operators the translation supports, with their MongoDB operators. */
  const SupportedOperators: map<string, string> := map[
    "=" := "$eq",
    "!=" := "$ne",
    ">" := "$gt",
    ">=" := "$gte",
    "<" := "$lt",
    "<=" := "$lte",
    "IN" := "$in",
    "NOT IN" := "$nin",
    "LIKE" := "$regex",
    "AND" := "$and",
    "OR" := "$or"
  ]

  /** The SQL operators the table knows and the MongoDB operators it yields. */
  lemma OperatorTable()
    ensures SupportedOperators.Keys ==
      {"=", "!=", ">", ">=", "<", "<=", "IN", "NOT IN", "LIKE", "AND", "OR"}
    ensures SupportedOperators.Values ==
      {"$eq", "$ne", "$gt", "$gte", "$lt", "$lte", "$in", "$nin", "$regex", "$and", "$or"}
  {
  }

  // ---------------------------------------------------------------------
  // Query type

  /** `str.upper` on one character, for the characters whose upper case is
      an ASCII letter: a-z, dotless i and long s. Every other character is
      kept as it is. */
  function UpperChar(c: char): char
  {
    if 'a' <= c <= 'z' then (c as int - 32) as char
    else if c == '\U{0131}' then 'I'
    else if c == '\U{017F}' then 'S'
    else c
  }

  function Upper(s: string): string
  {
    seq(|s|, i requires 0 <= i < |s| => UpperChar(s[i]))
  }

  /** `QueryType(first_token.upper())`: succeeds exactly when the upper-cased
      text is one of the four keywords. */
  function QueryTypeOf(first: string): (r: Result<QueryType, Error>)
    ensures r.Success? ==> r.value.Keyword() == Upper(first)
    ensures forall q: QueryType :: q.Keyword() == Upper(first) ==> r == Success(q)
    ensures r.Failure? ==> r.error == UnknownQueryType(Upper(first))
  {
    var u := Upper(first);
    if u == "SELECT" then Success(Select)
    else if u == "INSERT" then Success(Insert)
    else if u == "UPDATE" then Success(Update)
    else if u == "DELETE" then Success(Delete)
    else Failure(UnknownQueryType(u))
  }

  /** Classification, error included, depends on the upper-cased text alone. */
  lemma {:induction false} QueryTypeIgnoresCase(first: string)
    ensures QueryTypeOf(Upper(first)) == QueryTypeOf(first)
  {
    assert Upper(Upper(first)) == Upper(first);
  }

  /** The enum's own values classify as themselves. */
  lemma QueryTypeOfKeyword(q: QueryType)
    ensures QueryTypeOf(q.Keyword()) == Success(q)
  {
    assert Upper(q.Keyword()) == q.Keyword();
  }

  /** `_get_query_type`: the first token's text decides. */
  function GetQueryType(stmt: Statement): Result<QueryType, Error>
  {
    if stmt == [] then Failure(EmptyStatement) else QueryTypeOf(stmt[0].text)
  }

  // ---------------------------------------------------------------------
  // Table name

  /** The real name of the first top-level identifier, or "" if there is none. */
  function TableName(stmt: Statement): string
  {
    if stmt == [] then ""
    else if stmt[0].Identifier? then stmt[0].realName
    else TableName(stmt[1..])
  }

  lemma {:induction false} TableNameIsFirstIdentifier(stmt: Statement, i: nat)
    requires i < |stmt| && stmt[i].Identifier?
    requires forall j :: 0 <= j < i ==> !stmt[j].Identifier?
    ensures TableName(stmt) == stmt[i].realName
  {
    if i > 0 {
      TableNameIsFirstIdentifier(stmt[1..], i - 1);
    }
  }

  lemma {:induction false} TableNameWithoutIdentifier(stmt: Statement)
    requires forall j :: 0 <= j < |stmt| ==> !stmt[j].Identifier?
    ensures TableName(stmt) == ""
  {
    if stmt != [] {
      TableNameWithoutIdentifier(stmt[1..]);
    }
  }

  /** `_extract_table_name`: a scan with an early return. */
  method ExtractTableName(stmt: Statement) returns (name: string)
    ensures name == TableName(stmt)
  {
    for i := 0 to |stmt|
      invariant TableName(stmt[i..]) == TableName(stmt)
    {
      assert stmt[i..][0] == stmt[i] && stmt[i..][1..] == stmt[i + 1..];
      if stmt[i].Identifier? {
        return stmt[i].realName;
      }
    }
    return "";
  }

  // ---------------------------------------------------------------------
  // Columns

  function NamesOf(t: Token): seq<string>
  {
    if t.IdentifierList? then t.names else []
  }

  /** The names of every identifier list, concatenated in token order. */
  function Columns(stmt: Statement): seq<string>
  {
    if stmt == [] then [] else Columns(stmt[..|stmt| - 1]) + NamesOf(stmt[|stmt| - 1])
  }

  lemma {:induction false} ColumnsConcat(a: Statement, b: Statement)
    ensures Columns(a + b) == Columns(a) + Columns(b)
  {
    if b == [] {
      assert a + b == a;
    } else {
      assert (a + b)[..|a + b| - 1] == a + b[..|b| - 1];
      ColumnsConcat(a, b[..|b| - 1]);
    }
  }

  /** A single token contributes the names of its list, or nothing. */
  lemma ColumnsOfToken(t: Token)
    ensures Columns([t]) == NamesOf(t)
  {
    assert [t][..0] == [];
  }

  /** A prefix with no identifier list contributes no columns. */
  lemma {:induction false} ColumnsWithoutLists(stmt: Statement, k: nat)
    requires k <= |stmt|
    requires forall i :: 0 <= i < k ==> !stmt[i].IdentifierList?
    ensures Columns(stmt[..k]) == []
  {
    if k > 0 {
      assert stmt[..k][..k - 1] == stmt[..k - 1];
      ColumnsWithoutLists(stmt, k - 1);
    }
  }

  /** When one token is the only identifier list, its names are the columns. */
  lemma {:induction false} ColumnsSingleList(stmt: Statement, k: nat)
    requires k < |stmt| && stmt[k].IdentifierList?
    requires forall i :: 0 <= i < |stmt| && i != k ==> !stmt[i].IdentifierList?
    ensures Columns(stmt) == stmt[k].names
  {
    var head, tail := stmt[..k], stmt[k + 1..];
    assert stmt == head + ([stmt[k]] + tail);
    ColumnsConcat(head, [stmt[k]] + tail);
    ColumnsConcat([stmt[k]], tail);
    ColumnsWithoutLists(stmt, k);
    ColumnsWithoutLists(tail, |tail|);
    assert tail[..|tail|] == tail;
    ColumnsOfToken(stmt[k]);
  }

  /** `_extract_columns`: nested loops appending to `columns`. */
  method ExtractColumns(stmt: Statement) returns (columns: seq<string>)
    ensures columns == Columns(stmt)
  {
    columns := [];
    for i := 0 to |stmt|
      invariant columns == Columns(stmt[..i])
    {
      if stmt[i].IdentifierList? {
        var names := stmt[i].names;
        for j := 0 to |names|
          invariant columns == Columns(stmt[..i]) + names[..j]
        {
          columns := columns + [names[j]];
        }
        assert names[..|names|] == names;
      }
      assert stmt[..i + 1][..i] == stmt[..i];
    }
    assert stmt[..|stmt|] == stmt;
  }

  // ---------------------------------------------------------------------
  // WHERE clause

  /** A comparison whose operator text is in the table. */
  predicate Supported(item: WhereItem)
  {
    item.Comparison? && item.op in SupportedOperators
  }

  /** `{mongo_op: value}` for a supported comparison. */
  function Condition(item: WhereItem): map<string, string>
    requires Supported(item)
  {
    map[SupportedOperators[item.op] := item.right]
  }

  /** `_parse_where_clause`'s result: a field is present exactly when some
      supported comparison names it, and it maps to a one-entry operator
      dict. */
  function Conditions(items: seq<WhereItem>): (c: Filter)
    ensures forall f :: f in c <==>
      exists i :: 0 <= i < |items| && Supported(items[i]) && items[i].field == f
    ensures forall f :: f in c ==> |c[f]| == 1 && c[f].Keys <= SupportedOperators.Values
  {
    if items == [] then map[]
    else
      var init := items[..|items| - 1];
      var last := items[|items| - 1];
      var c := Conditions(init);
      assert forall i :: 0 <= i < |init| ==> init[i] == items[i];
      if Supported(last) then c[last.field := Condition(last)] else c
  }

  /** A later supported comparison on a field overwrites an earlier one. */
  lemma {:induction false} ConditionsLastWins(items: seq<WhereItem>, i: nat)
    requires i < |items| && Supported(items[i])
    requires forall j :: i < j < |items| && Supported(items[j]) ==> items[j].field != items[i].field
    ensures items[i].field in Conditions(items)
    ensures Conditions(items)[items[i].field] ==
      map[SupportedOperators[items[i].op] := items[i].right]
  {
    if i < |items| - 1 {
      var init := items[..|items| - 1];
      assert forall j :: 0 <= j < |init| ==> init[j] == items[j];
      ConditionsLastWins(init, i);
    }
  }

  /** A comparison with an unsupported operator, or any other child of the
      WHERE token, leaves the conditions as they were. */
  lemma ConditionsDropUnsupported(items: seq<WhereItem>, item: WhereItem)
    requires !Supported(item)
    ensures Conditions(items + [item]) == Conditions(items)
  {
    assert (items + [item])[..|items|] == items;
  }

  /** Without a supported comparison there are no conditions. */
  lemma {:induction false} ConditionsNoneSupported(items: seq<WhereItem>)
    requires forall i :: 0 <= i < |items| ==> !Supported(items[i])
    ensures Conditions(items) == map[]
  {
    if items != [] {
      var init := items[..|items| - 1];
      assert forall i :: 0 <= i < |init| ==> init[i] == items[i];
      ConditionsNoneSupported(init);
    }
  }

  /** A WHERE clause whose only supported comparison is its last child. */
  lemma ConditionsSingle(items: seq<WhereItem>, item: WhereItem)
    requires forall i :: 0 <= i < |items| ==> !Supported(items[i])
    requires Supported(item)
    ensures Conditions(items + [item]) == map[item.field := Condition(item)]
  {
    assert (items + [item])[..|items|] == items;
    ConditionsNoneSupported(items);
  }

  /** `_parse_where_clause`: a loop writing into `conditions`. */
  method ParseWhereClause(items: seq<WhereItem>) returns (conditions: Filter)
    ensures conditions == Conditions(items)
  {
    conditions := map[];
    for i := 0 to |items|
      invariant conditions == Conditions(items[..i])
    {
      var item := items[i];
      if item.Comparison? {
        var field, operator, value := item.field, item.op, item.right;
        if operator in SupportedOperators {
          conditions := conditions[field := map[SupportedOperators[operator] := value]];
        }
      }
      assert items[..i + 1][..i] == items[..i];
    }
    assert items[..|items|] == items;
  }

  /** The children of the first WHERE token, if any. */
  function FirstWhere(stmt: Statement): (w: Option<seq<WhereItem>>)
    ensures w.None? <==> forall i :: 0 <= i < |stmt| ==> !stmt[i].Where?
    ensures w.Some? ==>
      exists i :: 0 <= i < |stmt| && stmt[i].Where? && stmt[i].items == w.value &&
        (forall j :: 0 <= j < i ==> !stmt[j].Where?)
  {
    if stmt == [] then None
    else if stmt[0].Where? then Some(stmt[0].items)
    else
      var w := FirstWhere(stmt[1..]);
      assert forall i :: 1 <= i < |stmt| ==> stmt[1..][i - 1] == stmt[i];
      w
  }

  /** Only the first WHERE token counts. */
  lemma {:induction false} FirstWhereIsFirst(stmt: Statement, i: nat)
    requires i < |stmt| && stmt[i].Where?
    requires forall j :: 0 <= j < i ==> !stmt[j].Where?
    ensures FirstWhere(stmt) == Some(stmt[i].items)
  {
    if i > 0 {
      FirstWhereIsFirst(stmt[1..], i - 1);
    }
  }

  /** `_extract_where_clause`'s result. */
  function WhereClauseOf(stmt: Statement): Option<Filter>
  {
    match FirstWhere(stmt)
    case None => None
    case Some(items) => Some(Conditions(items))
  }

  /** The WHERE conditions come from the first WHERE token alone. */
  lemma WhereClauseOfFirst(stmt: Statement, i: nat)
    requires i < |stmt| && stmt[i].Where?
    requires forall j :: 0 <= j < i ==> !stmt[j].Where?
    ensures WhereClauseOf(stmt) == Some(Conditions(stmt[i].items))
  {
    FirstWhereIsFirst(stmt, i);
  }

  /** A first WHERE token whose only supported comparison is its last child
      yields that one condition. */
  lemma WhereClauseSingle(stmt: Statement, i: nat, prefix: seq<WhereItem>, comparison: WhereItem)
    requires i < |stmt| && stmt[i].Where? && stmt[i].items == prefix + [comparison]
    requires forall j :: 0 <= j < i ==> !stmt[j].Where?
    requires forall j :: 0 <= j < |prefix| ==> !Supported(prefix[j])
    requires Supported(comparison)
    ensures WhereClauseOf(stmt) ==
      Some(map[comparison.field := map[SupportedOperators[comparison.op] := comparison.right]])
  {
    WhereClauseOfFirst(stmt, i);
    ConditionsSingle(prefix, comparison);
  }

  /** `_extract_where_clause`: a search with `break`, then the fold. */
  method ExtractWhereClause(stmt: Statement) returns (w: Option<Filter>)
    ensures w == WhereClauseOf(stmt)
  {
    var whereToken: Option<Token> := None;
    var i := 0;
    while i < |stmt|
      invariant 0 <= i <= |stmt|
      invariant FirstWhere(stmt[i..]) == FirstWhere(stmt)
    {
      assert stmt[i..][0] == stmt[i] && stmt[i..][1..] == stmt[i + 1..];
      if stmt[i].Where? {
        whereToken := Some(stmt[i]);
        break;
      }
      i := i + 1;
    }
    if whereToken.None? {
      return None;
    }
    var conditions := ParseWhereClause(whereToken.value.items);
    return Some(conditions);
  }

  // ---------------------------------------------------------------------
  // Clauses the parser does not extract

  /** `_extract_order_by`: not implemented, always `None`. */
  function ExtractOrderBy(stmt: Statement): Option<seq<OrderItem>>
  {
    None
  }

  /** `_extract_limit`: not implemented, always `None`. */
  function ExtractLimit(stmt: Statement): Option<int>
  {
    None
  }

  /** `_extract_values`: not implemented, always `None`. */
  function ExtractValues(stmt: Statement): Option<seq<Value>>
  {
    None
  }

  // ---------------------------------------------------------------------
  // parse

  /** `parse`: only the first statement the tokenizer returns is looked at. */
  function Parse(statements: seq<Statement>): (r: Result<ParsedSQL, Error>)
    ensures statements == [] ==> r == Failure(NoStatement)
    ensures statements != [] && statements[0] == [] ==> r == Failure(EmptyStatement)
    ensures statements != [] && statements[0] != [] ==>
      (r.Success? <==> QueryTypeOf(statements[0][0].text).Success?)
    ensures statements != [] && statements[0] != [] && QueryTypeOf(statements[0][0].text).Failure? ==>
      r == Failure(UnknownQueryType(Upper(statements[0][0].text)))
    ensures r.Success? ==> r.value.queryType.Keyword() == Upper(statements[0][0].text)
    ensures r.Success? ==>
      && r.value.tableName == TableName(statements[0])
      && r.value.columns == Columns(statements[0])
      && r.value.whereClause == WhereClauseOf(statements[0])
      && r.value.orderBy.None? && r.value.limit.None? && r.value.values.None?
  {
    if statements == [] then Failure(NoStatement)
    else
      var parsed := statements[0];
      match GetQueryType(parsed)
      case Failure(e) => Failure(e)
      case Success(queryType) =>
        Success(ParsedSQL(
          queryType := queryType,
          tableName := TableName(parsed),
          columns := Columns(parsed),
          whereClause := WhereClauseOf(parsed),
          orderBy := ExtractOrderBy(parsed),
          limit := ExtractLimit(parsed),
          values := if queryType == Insert then ExtractValues(parsed) else None))
  }

  /** Statements after the first one are ignored. */
  lemma ParseIgnoresLaterStatements(first: Statement, rest: seq<Statement>)
    ensures Parse([first] + rest) == Parse([first])
  {
  }
}
