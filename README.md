# SQL agent chat route: the query gate and the tool handlers

The chat route of this SQL assistant lets a language model call two tools.
`schema` returns a fixed text describing the `products` and `sales` tables.
`db` takes a query string from the model and trims it. It then refuses it
unless the upper-cased text starts with `SELECT`, and refuses it if it holds
a semicolon, `--` or `/*`. Only a query that passes both checks is handed,
trimmed, to the SQLite client. A refusal throws an Error whose message goes
back to the model.

The Dafny model has three modules:

- `JsString` (`js_string.dfy`): the JavaScript string operations the gate
  uses. `Trim` removes the exact ECMAScript WhiteSpace and LineTerminator
  set. `ToUpper` upper-cases ASCII letters. `StartsWith` and `Includes` are
  `startsWith` and `includes`. Each comes with its meaning as lemmas: `Trim`
  cuts only trimmable code points and its result is unique, and `Includes`
  holds exactly when the needle occurs at some index.
- `QueryGate` (`query_gate.dfy`): `Validate(raw)` returns
  `Accepted(sanitized)`, `Rejected(NonSelect)` or `Rejected(UnsafeSequence)`.
  Its checks are written as the handler writes them: upper-case then
  `startsWith`, then three `includes` tests. Two reference predicates state
  the same checks index by index. `BeginsWithSelect` asks that each of the
  first six code points be the capital or small letter of SELECT.
  `HasForbiddenSequence` asks that some index hold `;` or start `--` or `/*`.
  The lemmas prove that the verdict follows them, that the first check wins
  when both fail, and that whitespace padding and letter case do not change
  the decision. They also prove that an accepted query is accepted again
  unchanged. Concrete cases cover a plain SELECT, a stacked second
  statement, a DELETE, a query failing both checks and a keyword glued to
  the next word.
- `ChatTools` (`chat_tools.dfy`): the two handlers. `SchemaTool` is the
  constant document. `DbTool(query, run)` is the `db` handler over a store
  `run`. The store is a function from statement text to rows or a store
  error. Each call records the statements passed to the store, so that
  "the store is never reached on a rejection" can be stated and proved.

The first check is `startsWith("SELECT")` on the upper-cased text. It tests
a prefix, not a first token, so `SELECTED_ROWS` and a bare `SELECT` pass it
(`QueryGate.BareKeywordAccepted`, `QueryGate.GluedKeywordAccepted`).

## Model

| member | source | states |
|---|---|---|
| `JsString.Trim` | src/app/api/chat/route.ts:70 | the trimmed query has no trimmable code point at either end and is no longer than the input |
| `JsString.TrimSplits` | src/app/api/chat/route.ts:70 | the input is the trimmed text between a prefix and a suffix made only of trimmable code points: trimming cuts nothing else |
| `JsString.TrimOfPadded` | src/app/api/chat/route.ts:70 | whatever trimmable padding surrounds a text with non-trimmable ends, trimming returns exactly that text (trim is uniquely determined) |
| `JsString.TrimIdempotent` | src/app/api/chat/route.ts:70 | trimming an already trimmed query changes nothing |
| `JsString.TrimIgnoresPadding` | src/app/api/chat/route.ts:70 | adding trimmable code points on either side of a query does not change its trim |
| `JsString.ToUpper` | src/app/api/chat/route.ts:73 | upper-casing keeps the length and upper-cases each code point in place |
| `JsString.IncludesIff` | src/app/api/chat/route.ts:83-85 | `includes` holds exactly when the needle occurs in the text at some index, both directions |
| `QueryGate.SelectCheckIff` | src/app/api/chat/route.ts:73 | upper-casing and then testing the `SELECT` prefix holds exactly when each of the first six code points is the capital or small letter of SELECT: the test is case-insensitive |
| `QueryGate.SequenceCheckIff` | src/app/api/chat/route.ts:82-86 | the three `includes` tests hold together exactly when some index holds `;` or starts `--` or `/*` |
| `QueryGate.Validate` | src/app/api/chat/route.ts:69-92 | a query is handed on only as exactly the trimmed input |
| `QueryGate.ValidateDecides` | src/app/api/chat/route.ts:72-90 | non-SELECT refusal exactly when the trimmed text does not begin with SELECT in some case, whatever else it holds; unsafe-sequence refusal exactly when it does but holds a forbidden sequence; acceptance exactly when neither |
| `QueryGate.AcceptedQueryShape` | src/app/api/chat/route.ts:70-92 | an accepted query has non-trimmable ends, at least six code points, no semicolon, no two adjacent hyphens and no slash before an asterisk |
| `QueryGate.TrimDoesNotChangeVerdict` | src/app/api/chat/route.ts:70 | `Validate(Trim(raw)) == Validate(raw)` |
| `QueryGate.PaddingDoesNotChangeVerdict` | src/app/api/chat/route.ts:70 | surrounding a query with any trimmable code points leaves the verdict, sanitized text included, unchanged |
| `QueryGate.SameTrimSameVerdict` | src/app/api/chat/route.ts:70-92 | two inputs with the same trim get the same verdict: the gate looks at nothing but the trimmed text |
| `QueryGate.AcceptedIsFixedPoint` | src/app/api/chat/route.ts:70-92 | validating an accepted query's sanitized text accepts it again with the same text |
| `QueryGate.CaseDoesNotChangeDecision` | src/app/api/chat/route.ts:70-90 | two queries that differ only in ASCII letter case are accepted together or refused for the same reason, and accepted ones hand on case variants of each other |
| `QueryGate.TrimSameIgnoringCase` | src/app/api/chat/route.ts:70 | trimming two case variants yields two case variants |
| `QueryGate.PlainSelectAccepted` | src/app/api/chat/route.ts:70-92 | `SELECT * FROM products` is accepted and handed on unchanged |
| `QueryGate.StackedStatementRejected` | src/app/api/chat/route.ts:82-89 | `SELECT * FROM products; DROP TABLE products` is refused for its unsafe sequence |
| `QueryGate.DeleteRejected` | src/app/api/chat/route.ts:73-74 | `DELETE FROM sales` is refused as non-SELECT |
| `QueryGate.FirstCheckDecidesFirst` | src/app/api/chat/route.ts:73-90 | `DELETE FROM x; --` fails both checks and gets the non-SELECT reason |
| `QueryGate.BareKeywordAccepted` | src/app/api/chat/route.ts:73 | the bare keyword `SELECT` is accepted: the check is a prefix test |
| `QueryGate.GluedKeywordAccepted` | src/app/api/chat/route.ts:70-73 | a tab- and newline-padded `selected_rows` is accepted as `selected_rows`: lower case passes, and the keyword need not be a separate word |
| `ChatTools.SchemaTool` | src/app/api/chat/route.ts:41-61 | the schema document opens with the products table, defines the sales table, and holds the foreign key from `sales.product_id` to `products.id` after the sales table's header |
| `ChatTools.DbTool` | src/app/api/chat/route.ts:69-93 | the store is reached at most once, exactly when the gate accepts, with the trimmed query; a refusal throws the gate's message; on acceptance the store's rows are the tool's output and a store error is thrown with the store's message unchanged |
| `ChatTools.ExecutedQueriesPassGate` | src/app/api/chat/route.ts:70-92 | every statement passed to the store is one the gate accepts again exactly as it is |
| `ChatTools.RejectionIgnoresStore` | src/app/api/chat/route.ts:73-92 | a refused query never reaches the store, and its outcome is the same whatever the store would answer |
| `ChatTools.AcceptedDependsOnlyOnTrimmedQuery` | src/app/api/chat/route.ts:92 | an accepted query's outcome depends on the store only through its answer to the trimmed query |
| `ChatTools.StoreErrorThrownVerbatim` | src/app/api/chat/route.ts:92 | on an accepted query the handler throws a store error with the store's message verbatim, after exactly one statement |

## Left out

- JsString.ToUpper: upper-cases only `a`–`z`. JavaScript's `toUpperCase` follows full Unicode case mapping. Some non-ASCII letters upper-case to ASCII letters: U+017F (long s) becomes `S`, and U+1E97 becomes `T` followed by a combining diaeresis. So `ſelect 1` passes the source's first check but is refused by the model.
- JsString.IsTrimmable: the space separators are those of current Unicode versions. An engine built on an older Unicode version trims a slightly different set.
- Strings are sequences of Unicode scalar values, not of UTF-16 code units. A lone surrogate cannot be written in the model. None of the characters the gate looks for is a surrogate.
- The SQLite client (`db.run`, route.ts:92) is not part of this model. It is the parameter `run`, a function from statement text to rows or a store error. Its state, its asynchrony and whether it really executes only one statement are not modelled.
- The `ai` library's orchestration is foreign code: `streamText`, the five-step budget `stepCountIs(5)`, dispatching tool calls by name, `convertToModelMessages` and `toUIMessageStreamResponse` (route.ts:32-37, route.ts:98). The route only passes parameters to it.
- The language-model provider (`google("gemini-2.5-flash")`, route.ts:33) is left out because it is a network service.
- The system prompt (route.ts:18-30) embeds the wall-clock time, so it is not deterministic. It is not modelled.
- The request parsing (route.ts:16) and the 30-second `maxDuration` (route.ts:13) belong to the transport layer.
- The zod input schemas (route.ts:40, route.ts:66-68) belong to a library. The model takes the `query` argument to be a string, as that schema guarantees.
- The tool descriptions (route.ts:39, route.ts:65) are text for the model and have no behaviour.
- The browser page (`src/app/page.tsx`) is presentation only.
- ChatTools.SchemaTool: the source returns the same document on every call. That holds by construction here, because the tool is a function with no parameters. No lemma states it.
