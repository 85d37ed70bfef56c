# Partial-update SET clause builder

A Dafny model of `sqlForPartialUpdate` from the express-jobly helpers. The
function turns a partial update into the SET fragment of a parameterised SQL
`UPDATE`, plus the ordered list of values bound to that fragment's placeholders:

- The update is a JavaScript object mapping field names to new values.
- An optional table `jsToSql` translates field names into column names.

For every field, in key order, the fragment holds one term `"<column>"=$<k>`. The
terms are joined with `", "`. `values` lists the field values in the same order.
An object with no fields is rejected with a `BadRequestError("No data")`.

Modules:

- `Wrappers`: `Option` and `Result`.
- `Strings`: the pieces of JavaScript the helper relies on:
  - decimal rendering of the placeholder number (`NatToString`), with its inverse `ParseDecimal`;
  - `Array.prototype.join` (`Join`);
  - two scanning functions used by the reader below.
- `Sql`: the helper itself.
  - The object is an ordered `seq<(string, V)>` of fields and values.
  - The table is a `map<string, string>`.
  - The thrown error is `Failure(BadRequest("No data"))`.
  - `Column` is the JavaScript expression `jsToSql[colName] || colName`: an entry
    that is missing or is the empty string (falsy) falls back to the field name.
- `SetClauseReading`: a reader for the fragment's own format (not the database's
  full rules for quoted identifiers). It reads `"<column>"=$<digits>`
  terms separated by `", "`. It is the partner of the builder: decoding a built
  fragment gives back exactly the intended assignments, as long as no resolved
  column name contains a double quote.
- `SqlExamples`: the scenarios of `helpers/sql.test.js` and of the documentation
  comment, stated as lemmas. One more lemma shows that column names are not escaped.
- `OptionalTable`: what happens when `jsToSql` is left out (see Findings).

The code uses `||`, so a table entry mapped to `""` falls back to the field name, as a
missing entry does; the model follows the code.

## Model

| member | source | states |
|---|---|---|
| `Sql.SqlForPartialUpdate` | helpers/sql.js:27-39 | Fails exactly when the payload is empty, and then only with `BadRequest("No data")`. Otherwise `setCols` is the rendering of the assignments that give the k-th field's resolved column placeholder k+1. `values` has one entry per field, and entry k is the k-th field's value, unchanged. |
| `Sql.ObjectKeys` | helpers/sql.js:28 | Gives one key per field, in payload order. |
| `Sql.ObjectValues` | helpers/sql.js:37 | Gives one value per field, in payload order, each passed through unchanged. |
| `Sql.MapTerms` | helpers/sql.js:31-33 | Mapping the keys from index `idx` gives as many terms as keys. Term k is the term for key k's resolved column with placeholder `idx + k + 1`. |
| `Sql.ValueOwnsPlaceholder` | helpers/sql.js:31-37 | With distinct keys, the field assigned at placeholder k+1 is the field whose value is `values[k]`: looking that field up by name in the payload gives `values[k]`. |
| `Sql.SingleField` | helpers/sql.js:31-37 | A one-field payload gives the single term `"<column>"=$1` with no separator, and a one-element `values`. |
| `Sql.EmptyPayloadRejected` | helpers/sql.js:28-29 | An empty payload gives `BadRequest("No data")` whatever the table holds. |
| `Strings.NatToString` | helpers/sql.js:32 | The placeholder number is rendered as a non-empty string of decimal digits, with no leading zero unless it is 0. |
| `Strings.ParseNatToString` | helpers/sql.js:32 | Parsing the rendering of n gives n back. |
| `Strings.NatToStringParse` | helpers/sql.js:32 | Every canonical digit string is the rendering of the number it denotes. With the lemma above, rendering and parsing are inverse bijections. |
| `Strings.NatToStringInjective` | helpers/sql.js:32 | Different placeholder numbers render differently. |
| `SetClauseReading.DecodeSetCols` | helpers/sql.js:16-18 | Reads a SET fragment as a non-empty list of (column, placeholder) assignments, or rejects it. |
| `SetClauseReading.DecodeTerm` | helpers/sql.js:32 | A quote-free column's term decodes to its own (column, position). When the term is followed by `", "`, decoding continues after the separator. |
| `SetClauseReading.DecodeRender` | helpers/sql.js:31-36 | Decoding the joined terms of a non-empty, quote-free list of assignments gives that list back. |
| `SetClauseReading.LockStep` | helpers/sql.js:31-37 | For a non-empty payload with distinct keys and quote-free columns, the built fragment decodes to exactly n assignments, and `values` has n entries. Assignment k is (column of field k, k+1), so placeholders run 1..n without gaps. `values[k]` is the value of that same field. |
| `SetClauseReading.ColumnOfPlaceholder` | helpers/sql.js:32 | The column read back at placeholder k+1 is the table's entry for field k when that entry exists and is non-empty. Otherwise it is the field name itself. |
| `SqlExamples.TwoFields` | helpers/sql.js:31-37 | Two fields give `"<c1>"=$1, "<c2>"=$2` and `[v1, v2]`. |
| `SqlExamples.ExampleWithMapping` | helpers/sql.test.js:8-19 | `{firstName:'John', age:45}` with `{firstName:'first_name', age:'age'}` gives `"first_name"=$1, "age"=$2` and `['John', 45]`. |
| `SqlExamples.ExampleWithoutMapping` | helpers/sql.test.js:21-31 | The same payload with `{}` gives `"firstName"=$1, "age"=$2` and `['John', 45]`. |
| `SqlExamples.ExampleNoData` | helpers/sql.test.js:33-38 | `{}` with `{firstName:'first_name'}` fails with `BadRequest("No data")`. |
| `SqlExamples.ExampleOneField` | helpers/sql.test.js:40-50 | `{age:45}` with `{age:'age'}` gives `"age"=$1` and `[45]`. |
| `SqlExamples.ExampleDocComment` | helpers/sql.js:20-25 | `{firstName:'John', age:45}` with `{firstName:'first_name'}` gives `"first_name"=$1, "age"=$2` and `['John', 45]`. |
| `SqlExamples.ExampleUnescapedQuote` | helpers/sql.js:32 | The column name is embedded without escaping. A field named `a"=$1, "b` yields the fragment `"a"=$1, "b"=$1` from a single field. |
| `SqlExamples.UnescapedQuoteSplits` | helpers/sql.js:32 | For any quote-free `a` and `b`, the single field `a"=$1, "b` with an empty table yields the two terms `"a"=$1, "b"=$1`, which read back as two assignments, `a` and `b`, both from `$1`: one field becomes two, which is where `LockStep` stops holding. |
| `SqlExamples.DecodeTwoTerms` | helpers/sql.js:31-36 | Two joined terms with quote-free columns read back as exactly their two assignments. |
| `OptionalTable.SqlForPartialUpdateAsWritten` | helpers/sql.js:27-33 | With the table possibly undefined: an empty payload still fails with `BadRequest("No data")`, because the empty check comes first. A non-empty payload without a table fails with a `TypeError`. With a table, the result is that of `SqlForPartialUpdate`. |
| `OptionalTable.OmittedTableThrows` | helpers/sql.js:32 | `sqlForPartialUpdate({age: 45})` ends in a `TypeError` as written. |
| `OptionalTable.SqlForPartialUpdateOptional` | helpers/sql.js:10-12 | The intended helper fails only on an empty payload, and then with `BadRequest("No data")`. Without a table, every field is its own column at its placeholder and the values are the payload's values in order. With a table, it agrees with `SqlForPartialUpdate`. |
| `OptionalTable.OmittedTableIsIdentity` | helpers/sql.js:10-12 | For every non-empty payload, leaving the table out means the empty table in the intended helper, while the helper as written throws a `TypeError`. |

## Findings

| source | as written | input that shows it | evidently intended | confidence | as-written member | corrected member |
|---|---|---|---|---|---|---|
| helpers/sql.js:32 | `jsToSql[colName]` is read even when `jsToSql` was not passed, which raises a `TypeError` for any non-empty payload | `sqlForPartialUpdate({ age: 45 })` | The documentation (helpers/sql.js:10-12) calls `jsToSql` optional, and the test comment at helpers/sql.test.js:24 says a missing table falls back to the field names, so an omitted table should translate nothing | high; not executed | `OptionalTable.OmittedTableThrows` | `OptionalTable.OmittedTableIsIdentity` |

## Left out

- The `BadRequestError` class of `../expressError` is not part of this model. It is modelled by the `BadRequest(message)` error value.
- Keys inherited from `Object.prototype` are not modelled. For example, a field named `constructor` with an empty table reads `{}.constructor`, which is truthy, so the column would become the function's source text. The table is modelled as a plain map of its own entries.
- `Object.keys` ordering rules are not modelled (integer-like keys come first). The payload is already an ordered sequence of pairs, and `DistinctKeys` states the absence of repeated keys where a lemma needs it.
- Table entries that are not strings are not modelled (numbers, `null`, objects coerced by the template string). Entries are strings, and only `""` is falsy.
- A `dataToUpdate` that is `null` or `undefined` is not modelled; `Object.keys` would throw on it. The payload is always a sequence.
- Values are an opaque type parameter. They are never inspected or coerced, as in the source.
- Column names are neither escaped nor validated, exactly as in the source. The decoding lemmas therefore require quote-free resolved columns, and `ExampleUnescapedQuote` shows what happens without that.
- Running the query, the database driver, and the callers that splice the fragment into `UPDATE ... WHERE` are I/O and are not modelled.
