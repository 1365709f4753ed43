/** The exceptions the translation pipeline can raise, one constructor per
    way the Python code fails. */
module Errors {

  datatype Error =
    /** `sqlparse.parse(sql_query)[0]` when the tokenizer produced no statement (IndexError) */
    | NoStatement
    /** `parsed.tokens[0]` on a statement without tokens (IndexError) */
    | EmptyStatement
    /** `QueryType(first_token)` on a keyword that is not a query type (ValueError);
        carries the first token's text after upper-casing, as the enum receives it */
    | UnknownQueryType(text: string)
    /** "No values provided for INSERT query" (ValueError) */
    | NoInsertValues
    /** `zip(columns, row)` over a row that cannot be iterated (TypeError) */
    | NotIterable
}
