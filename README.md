# SQL to MongoDB translation, modelled in Dafny

This project models the translation pipeline of SQL_to_MongoDB. The pipeline has three stages:

- **Parser:** `SQLParser` classifies a tokenized SQL statement and picks out its table name, its columns and its WHERE conditions. It returns a `ParsedSQL` record.
- **Builder:** `MongoDBQueryBuilder` turns that record into a MongoDB find, insert, update or delete query.
- **Translator:** `SQLToMongoDBTranslator` composes the two stages for one query, and for a batch of queries.

The Dafny modules follow the Python modules:

| module | file | models |
|---|---|---|
| `SqlParser` | `sql_parser.dfy` | `sql_to_mongodb/sql_parser.py` |
| `MongoDBBuilder` | `mongodb_builder.dfy` | `sql_to_mongodb/mongodb_builder.py` |
| `Translator` | `translator.dfy` | `sql_to_mongodb/translator.py` |
| `Dicts` | `dicts.dfy` | Python dict comprehensions (last write wins on a repeated key) and `zip` (stops at the shorter input) |
| `Errors` | `errors.dfy` | each exception the pipeline can raise, as one constructor |
| `Wrappers` | `wrappers.dfy` | `Option` and `Result` |
| `SmokeTests` | `smoke_tests.dfy` | the queries the repository's test script translates |

## How the code is represented

**Tokens.** The `sqlparse` library is not modelled. A statement reaches the parser as the sequence of its top-level tokens, and each token keeps only what the parser reads:

- `Identifier`: its real name;
- `IdentifierList`: its identifiers' real names;
- `Where`: its children;
- `Other`: anything else.

The children of a WHERE token are comparisons or anything else. A comparison keeps three things: the left side's real name, the operator text and the raw text of the right side.

**The tokenizer.** The translator takes the tokenizer as a parameter, `Tokenizer = string -> seq<Statement>`. A translation is therefore still a function from the query text to its result.

**Exceptions.** Python exceptions become `Failure` values of `Errors.Error`.

**Dicts.** Python dicts become Dafny maps:

- a WHERE filter: field to `{operator: value}`;
- a projection, a sort map or an options dict;
- a document.

**Methods and functions.** Each loop in the parser is a Dafny `method` with its loop: `_extract_table_name`, `_extract_columns`, `_extract_where_clause` and `_parse_where_clause`. So is `_build_find_query`, which updates its options step by step. Each such method is proved equal to a specification function. `parse`, `build` and the translator use those functions.

## Model

| member | source | states |
|---|---|---|
| SqlParser.OperatorTable | sql_to_mongodb/sql_parser.py:25-37 | the operator table has exactly the eleven SQL operators `=` `!=` `>` `>=` `<` `<=` `IN` `NOT IN` `LIKE` `AND` `OR` as keys, and exactly the eleven MongoDB operators `$eq` … `$or` as values |
| SqlParser.QueryTypeOf | sql_to_mongodb/sql_parser.py:73-76 | classifying a first token succeeds exactly when its upper-cased text is one of the four enum values (sql_parser.py:6-10), and then yields that member; otherwise it fails with `UnknownQueryType` carrying the upper-cased text, the value the enum was given |
| SqlParser.QueryTypeIgnoresCase | sql_to_mongodb/sql_parser.py:75-76 | the whole classification result, error included, depends only on the upper-cased text: a token and its upper-cased form classify identically |
| SqlParser.QueryTypeOfKeyword | sql_to_mongodb/sql_parser.py:6-10 | every enum value classifies as its own member |
| SqlParser.GetQueryType | sql_to_mongodb/sql_parser.py:73-76 | the query type of a statement: `EmptyStatement` when there is no first token (the IndexError of `tokens[0]`), otherwise the classification of the first token's text (`QueryTypeOf`, `QueryTypeIgnoresCase`) |
| SqlParser.TableNameIsFirstIdentifier | sql_to_mongodb/sql_parser.py:82-84 | the table name is the real name of the first top-level identifier, whatever tokens follow it |
| SqlParser.TableNameWithoutIdentifier | sql_to_mongodb/sql_parser.py:85 | with no identifier among the tokens, the table name is `""` |
| SqlParser.ExtractTableName | sql_to_mongodb/sql_parser.py:78-85 | the scan with early return yields the table-name specification |
| SqlParser.ColumnsConcat | sql_to_mongodb/sql_parser.py:89-94 | the columns of two token runs placed side by side are the first run's columns followed by the second's (column order is token order) |
| SqlParser.ColumnsOfToken | sql_to_mongodb/sql_parser.py:91-93 | one token contributes its identifier list's names in order, or nothing when it is not a list |
| SqlParser.ColumnsWithoutLists | sql_to_mongodb/sql_parser.py:89-94 | a run of tokens without an identifier list contributes no columns |
| SqlParser.ColumnsSingleList | sql_to_mongodb/sql_parser.py:89-94 | when one token is the only identifier list, its names are exactly the columns |
| SqlParser.ExtractColumns | sql_to_mongodb/sql_parser.py:87-94 | the nested appending loops yield the names of every identifier list, concatenated in token order |
| SqlParser.Conditions | sql_to_mongodb/sql_parser.py:114-126 | a field is in the conditions exactly when some comparison on it has a supported operator; each field maps to a one-entry dict whose key is a MongoDB operator from the table |
| SqlParser.ConditionsLastWins | sql_to_mongodb/sql_parser.py:121-124 | the last supported comparison on a field decides its entry: `{table[op]: right text}` |
| SqlParser.ConditionsDropUnsupported | sql_to_mongodb/sql_parser.py:115-124 | a comparison with an operator outside the table, or any other WHERE child, leaves the conditions unchanged |
| SqlParser.ConditionsNoneSupported | sql_to_mongodb/sql_parser.py:114-126 | without a supported comparison the conditions are `{}` |
| SqlParser.ConditionsSingle | sql_to_mongodb/sql_parser.py:114-126 | a single supported comparison after unsupported children yields exactly its one condition |
| SqlParser.ParseWhereClause | sql_to_mongodb/sql_parser.py:110-126 | the loop writing into `conditions` yields the conditions specification |
| SqlParser.FirstWhere | sql_to_mongodb/sql_parser.py:98-102 | there is no WHERE token exactly when the search finds nothing; otherwise it finds the children of the first WHERE token |
| SqlParser.FirstWhereIsFirst | sql_to_mongodb/sql_parser.py:99-102 | the search stops at the first WHERE token, whatever follows it |
| SqlParser.WhereClauseOfFirst | sql_to_mongodb/sql_parser.py:104-108 | the WHERE clause is the conditions of the first WHERE token alone |
| SqlParser.WhereClauseSingle | sql_to_mongodb/sql_parser.py:96-126 | a first WHERE token holding one supported comparison yields the filter `{field: {table[op]: right}}` |
| SqlParser.ExtractWhereClause | sql_to_mongodb/sql_parser.py:96-108 | the search with `break`, followed by the fold, yields `None` without a WHERE token and the first WHERE token's conditions otherwise |
| SqlParser.ExtractOrderBy | sql_to_mongodb/sql_parser.py:128-131 | ORDER BY is not extracted: the result is always `None`, so `Parse` always gives `order_by == None` and `SelectHasNoOptions` follows |
| SqlParser.ExtractLimit | sql_to_mongodb/sql_parser.py:133-136 | LIMIT is not extracted: the result is always `None`, so `Parse` always gives `limit == None` and `SelectHasNoOptions` follows |
| SqlParser.ExtractValues | sql_to_mongodb/sql_parser.py:138-141 | VALUES is not extracted: the result is always `None`, even for INSERT, so `Parse` always gives `values == None` and `InsertAlwaysFails` and `UpdateSetsNothing` follow |
| SqlParser.Parse | sql_to_mongodb/sql_parser.py:39-71 | no statement and an empty statement fail; otherwise parsing succeeds exactly when the first token classifies, and fails with the classification's `UnknownQueryType` error when it does not; on success the keyword = upper-cased token text; table, columns and WHERE clause come from the first statement; `order_by`, `limit` and `values` are always `None` (sql_parser.py:128-141) |
| SqlParser.ParseIgnoresLaterStatements | sql_to_mongodb/sql_parser.py:50 | only the first statement is looked at |
| MongoDBBuilder.Projection | sql_to_mongodb/mongodb_builder.py:73-77 | `{}` for no columns or a leading `*`; otherwise the keys are exactly the set of columns and every value is 1 |
| MongoDBBuilder.Sort | sql_to_mongodb/mongodb_builder.py:79-82 | the keys are exactly the ORDER BY fields and every value is 1 or -1 |
| MongoDBBuilder.SortLastWins | sql_to_mongodb/mongodb_builder.py:81-82 | a field takes 1 when the direction of its last entry is exactly "ASC" and -1 otherwise |
| MongoDBBuilder.FindOptionsKeys | sql_to_mongodb/mongodb_builder.py:33-40 | options has `sort` exactly when ORDER BY is non-empty and `limit` exactly when the limit is truthy (non-zero), with those values; with neither it is `{}` |
| MongoDBBuilder.BuildFindQuery | sql_to_mongodb/mongodb_builder.py:26-42 | the find query built with step-by-step option updates equals the find-plan specification |
| MongoDBBuilder.RowDocuments | sql_to_mongodb/mongodb_builder.py:91-92 | the rows make documents exactly when every row can be iterated; there is one document per row, in row order, each the zip of the columns with that row; a row that cannot be iterated fails with `NotIterable` (the TypeError of `zip`) |
| MongoDBBuilder.DocumentsSingleRow | sql_to_mongodb/mongodb_builder.py:93-95 | when the first value is not a list, the values make exactly one document: the zip of columns and values |
| MongoDBBuilder.DocumentsRows | sql_to_mongodb/mongodb_builder.py:89-92 | when every value is a list, there is one document per row, in order, zipped from that row |
| MongoDBBuilder.Documents | sql_to_mongodb/mongodb_builder.py:84-95 | `_build_documents`: no documents for no values, then, according to whether the first value is a list, one document per row or exactly one document (`DocumentsRows`, `DocumentsSingleRow`, `RowDocuments`) |
| MongoDBBuilder.InsertQuery | sql_to_mongodb/mongodb_builder.py:44-53 | `_build_insert_query`: `NoInsertValues` when values are missing or empty, otherwise the insert plan of the table with the documents, or the documents' error (`BuildInsert`, `Build`) |
| MongoDBBuilder.UpdateDocument | sql_to_mongodb/mongodb_builder.py:97-102 | `_build_update_document`: `{}` without values, otherwise `{"$set": zip(columns, values)}` (`BuildUpdate`, `ZipDictAt`) |
| MongoDBBuilder.UpdateQuery | sql_to_mongodb/mongodb_builder.py:55-63 | `_build_update_query`: the table, the WHERE filter or `{}`, the update document and options `{"multi": True}` (`BuildUpdate`, `BuildFilter`) |
| MongoDBBuilder.DeleteQuery | sql_to_mongodb/mongodb_builder.py:65-71 | `_build_delete_query`: the table and the WHERE filter or `{}` (`Build`, `BuildFilter`) |
| MongoDBBuilder.Build | sql_to_mongodb/mongodb_builder.py:15-24 | only INSERT can fail; `collection` is the table name; the operation is "find", "insert", "update" or "delete" exactly for SELECT, INSERT, UPDATE and DELETE; an INSERT without values fails with `NoInsertValues` (mongodb_builder.py:46-47) |
| MongoDBBuilder.BuildFilter | sql_to_mongodb/mongodb_builder.py:26-71 | find, update and delete filter by the WHERE clause when present and by `{}` when absent |
| MongoDBBuilder.BuildFind | sql_to_mongodb/mongodb_builder.py:28-42 | a SELECT gives a find plan with the columns' projection and exactly the options `FindOptions(order_by, limit)`, whose keys and values `FindOptionsKeys` gives |
| MongoDBBuilder.BuildUpdate | sql_to_mongodb/mongodb_builder.py:55-63 | an UPDATE has options `{"multi": True}`; its update is `{}` without values and `{"$set": zip(columns, values)}` with values (mongodb_builder.py:97-102) |
| MongoDBBuilder.BuildInsert | sql_to_mongodb/mongodb_builder.py:44-53 | an INSERT succeeds exactly when values are given and every row can be zipped, and then holds the table name and the documents; with values given, its only failure is `NotIterable` |
| Dicts.FromPairs | sql_to_mongodb/mongodb_builder.py:77 | a dict comprehension's keys are exactly the keys produced, and every entry comes from one of the pairs |
| Dicts.FromPairsLastWins | sql_to_mongodb/mongodb_builder.py:81-82 | a key repeated in a comprehension keeps the value of its last occurrence |
| Dicts.Zip | sql_to_mongodb/mongodb_builder.py:91 | `zip` pairs position by position and stops at the shorter input |
| Dicts.ZipDictAt | sql_to_mongodb/mongodb_builder.py:91-102 | a zipped dict's keys are the columns that found a value, and each key holds the value at its last such position |
| Translator.Translate | sql_to_mongodb/translator.py:10-26 | `build(parse(q))` on the statements the tokenizer gives, a failure in either stage propagating (`TranslateStages`, `TranslateFromFirstStatement`) |
| Translator.TranslateStages | sql_to_mongodb/translator.py:21-26 | a parse failure is the translation's failure; otherwise the result is `build(parse(q))` |
| Translator.Collect | sql_to_mongodb/translator.py:38 | a comprehension whose element may raise succeeds exactly when every element does, and then holds each value at its position; otherwise it fails with the error of the first failing element |
| Translator.CollectAll | sql_to_mongodb/translator.py:38 | elements that all succeed are collected as exactly their values |
| Translator.TranslateBatch | sql_to_mongodb/translator.py:28-38 | the list comprehension over `translate`: the collected translations of the queries, in order, the first failure aborting (`TranslateBatchResult`, `TranslateBatchAll`, `UnknownKeywordFailsBatch`) |
| Translator.TranslateBatchResult | sql_to_mongodb/translator.py:38 | a batch succeeds exactly when every query translates; then it has one plan per query, equal to that query's translation; otherwise it fails with the error of the first failing query, and no partial list is returned |
| Translator.TranslateBatchAll | sql_to_mongodb/translator.py:38 | when every query translates to a given plan, the batch is exactly those plans in order |
| Translator.TranslateBatchPair | sql_to_mongodb/translator.py:38 | a two-query batch whose queries translate to two plans is exactly those two plans in order |
| Translator.BatchRepeatsAgree | sql_to_mongodb/translator.py:6-8 | translation is deterministic: a query repeated in a batch gets the same plan both times |
| Translator.InsertAlwaysFails | sql_to_mongodb/translator.py:21-24 | no INSERT ever translates, because the parser never supplies values (sql_parser.py:61,141) and the builder refuses an INSERT without them |
| Translator.SelectHasNoOptions | sql_to_mongodb/translator.py:21-24 | every translated SELECT has options `{}`, because ORDER BY and LIMIT are never extracted (sql_parser.py:128-136) |
| Translator.UpdateSetsNothing | sql_to_mongodb/translator.py:21-24 | every translated UPDATE has update `{}` and options `{"multi": True}`, because values are never extracted for it (sql_parser.py:61) |
| Translator.TranslateFromFirstStatement | sql_to_mongodb/translator.py:21-24 | a successful translation had a non-empty first statement; its collection is that statement's table name, and its filter comes from that statement's first WHERE token |
| Translator.UnknownKeywordFailsBatch | sql_to_mongodb/translator.py:38 | when every query before position k translates and the first token of query k is not a statement keyword, the whole batch fails with `UnknownQueryType` of that token upper-cased, whatever follows |
| Translator.GarbageFailsBatch | sql_to_mongodb/translator.py:38 | the instance "garbage", tokenized as one identifier, after a query that translates: the batch fails with `UnknownQueryType("GARBAGE")` (sql_parser.py:75-76) |
| SmokeTests.SelectNameAgeTranslates | test_translator.py:13-16 | "SELECT name, age FROM users WHERE age > 18" becomes find on `users` with filter `{"age": {"$gt": "18"}}`, projection `{"name": 1, "age": 1}` and no options |
| SmokeTests.SelectNameAgeColumns | sql_to_mongodb/sql_parser.py:87-94 | that statement's columns are `["name", "age"]` |
| SmokeTests.SelectNameAgeWhere | sql_to_mongodb/sql_parser.py:96-126 | that statement's WHERE clause is `{"age": {"$gt": "18"}}` |
| SmokeTests.SelectNameAgeProjection | sql_to_mongodb/mongodb_builder.py:73-77 | the projection of `["name", "age"]` is `{"name": 1, "age": 1}` |
| SmokeTests.SelectAllActiveTranslates | test_translator.py:29-35 | "SELECT * FROM users WHERE status = 'active'" becomes find on `users` with filter `{"status": {"$eq": "'active'"}}`, projection `{}` and no options |
| SmokeTests.SelectAllActiveColumns | sql_to_mongodb/sql_parser.py:87-94 | the wildcard is not an identifier list, so that statement has no columns |
| SmokeTests.SmokeTestBatchTranslates | test_translator.py:29-35 | the test script's batch of those two queries succeeds with both find plans, in the order given |
| SmokeTests.SelectAllActiveWhere | sql_to_mongodb/sql_parser.py:96-126 | that statement's WHERE clause is `{"status": {"$eq": "'active'"}}` |

## Left out

- Tokenization by `sqlparse` (sql_parser.py:50, 83, 91, 100, 116-119) is not modelled, because it is a foreign library. Statements arrive already tokenized through the `Tokenizer` parameter. The smoke-test lemmas require that the tokenizer returns the token sequences written out in `SmokeTests`.
- Whether `sqlparse` groups a single-column `SELECT x FROM t` so that `x` is the first identifier depends on that library. The model takes the first `Identifier` token as the table, as the code does, and says nothing about which token that is.
- `SqlParser.UpperChar`: `str.upper` is modelled for ASCII a-z, dotless i (to I) and long s (to S). Other characters are kept as they are, so upper-casing of other scripts is not modelled. Some other characters also upper-case to ASCII letters: `ß` to "SS", `ﬅ` and `ﬆ` to "ST", `ﬁ` and `ﬂ` to "FI" and "FL", and `ﬀ`, `ﬃ`, `ﬄ` to F-sequences. They expand to two or three letters, and "SS", "ST" and "F" never occur inside SELECT, INSERT, UPDATE or DELETE. So no first token containing them classifies in Python either, and the model agrees on success. Their failure text in the model keeps those characters rather than their expansion.
- `SqlParser.QueryTypeOf`: its `UnknownQueryType` text is the first token upper-cased by `UpperChar`, so for a token holding a character that `UpperChar` does not model, the text differs from Python's. The success or failure of the classification does not differ.
- Dict key order is not modelled. Dicts are maps, so the printed order of a query's keys is not captured.
- `SqlParser.Value` covers strings, integers, booleans, `None` and lists. It leaves out floats and dicts that a caller could put into `values`, and it leaves out iteration over a dict row in `zip`. The parser never produces values in any case.
- ORDER BY items are modelled as records with a field and a direction. So the `KeyError` that a dict without `"field"` or `"direction"` would raise (mongodb_builder.py:81) is not modelled. The parser never produces ORDER BY items.
- `build`'s final `else: raise ValueError` (mongodb_builder.py:23-24) cannot be reached, because `QueryType` has exactly four members. The dispatch is a complete match.
- Behaviour the code does not implement is not modelled: nested AND/OR predicate trees, LIKE-to-regex conversion, omitting `$eq`, and an arity check between columns and values. The model follows the code: the WHERE fold is flat, values are zipped with truncation, and a table name may be `""`.
- The translator object's construction (translator.py:6-8) is not modelled as a class. Its two fields are assigned once and never changed, so translation is modelled as a function.
- The LLM agent (`agent.py`), the web application (`web/main.py`) and packaging (`setup.py`) are not part of this model. Printing in the test script is left out too.
