# Tao action wrapper, modelled in Dafny

Tao is a thin layer over the Katana microservice SDK (for PHP) and PDO. Its
`Tao\Action` class wraps one inbound SDK action. It does four things:

- it merges `settings.local.ini` over `settings.ini`;
- it opens one database handle the first time one is needed;
- it turns request parameters, or a key => value array, into the named
  arguments of a PostgreSQL function call (`SELECT * FROM fn(p_a := 1, p_b := x)`)
  and writes the first row (entity) or every row (collection) into the SDK response;
- it registers relations, links and errors, and turns every exception it
  catches into an `error(message, code)` call on the SDK action.

The model follows that code file by file:

| file | module | what it holds |
|---|---|---|
| `wrappers.dfy` | `Wrappers` | `Option`, for PHP's `null` |
| `php.dfy` | `Php` | the PHP values the wrapper inspects: `is_string`/`is_array`, truthiness, the text that interpolation writes (integers through `Decimal`, with its inverse) and the order `foreach` visits |
| `sql.dfy` | `Sql` | pure functions: the token `p_<name> := <value>`, `implode`, the argument list of `params()` and of an explicit mapping, the `$params` dispatch and the `SELECT * FROM fn(...)` text, with lemmas on their layout |
| `settings.dfy` | `Settings` | the `array_merge` of the two INI section maps and the `settings[section][key]` lookup |
| `katana.dfy` | `Katana` | the SDK and driver boundary: an abstract response record, the calls the wrapper makes, oracles that say which call throws and what a query returns, and the try/catch shape (`Guarded`, `Report`) |
| `action.dfy` | `Tao` | the `Action` class: the memoised handle (`Database`), the parameter loop (`Params`), the mapping loop (`BuildMappingList`), `Entity`, `Collection`, `Relation`, `Link` and `Error`, each proved against the pure specification beside it (`Fetch`, `EntityCall`, `CollectionCall`, `Settle`) |

Foreign code is made into parameters. `Environment.fault` says whether a call
into the SDK or PDO throws, and with which exception. `Environment.located`
lists what `getParams($location)` returns. `Environment.rows` says what a
query returns. A call that throws changes nothing. The `Action` class keeps
two ghost fields for observation only. `connections` counts the handles it
has created: each method that may open one says that the count rises by one
exactly when the handle goes from `null` to a fresh object. `queries` lists
the SQL it has sent. `Valid()` ties the count to the field: it is 0 while the
field is `null` and 1 once it is set. Every method preserves `Valid()`, and
no method replaces a handle once it is set.

Behaviours of the code to note:

- Values are interpolated verbatim into the SQL. The code does no quoting,
  no escaping and no choice of literal by type.
- An entity query with no rows stores `null`. PHP's `$rows[0]` on an empty
  array gives `null` and a warning, not an empty mapping.
- `array_merge` replaces a same-named section as a whole. Keys inside a
  section are not merged (`Settings.WholeSectionReplaced`).
- When the three-argument `error` call throws, the fallback is the
  two-argument call with the caught exception's message and code. It passes
  no status of its own.
- The fallback call in each `catch` is itself unguarded. If it throws, its
  exception leaves the wrapper. The model returns that as `Raised`.

## Model

| member | source | states |
|---|---|---|
| `Php.FalsyValues` | src/Action.php:152 | a value is falsy exactly when it is `null`, `false`, `0`, `""`, `"0"` or an empty array |
| `Php.Truthy` | src/Action.php:152 | PHP's truthiness of `if ($params)`; `FalsyValues` and `Sql.FalsyIffNoParams` characterise it |
| `Php.Text` | src/Action.php:156 | the text `"{$value}"` writes for each kind of value; integers through `IntText` |
| `Php.IntText` | src/Action.php:156 | an integer's decimal text with its sign; `IntTextRoundTrip` proves it reads back |
| `Php.Decimal` | src/Action.php:156 | an integer interpolated into a token is a non-empty string of digits without a leading zero |
| `Php.DecimalRoundTrip` | src/Action.php:156 | the digits written for a natural number read back as that number |
| `Php.IntTextRoundTrip` | src/Action.php:156 | an interpolated integer starts with '-' exactly when it is negative, and reads back as itself |
| `Php.ListEntriesIndexed` | src/Action.php:155 | `foreach` over a list visits item k under a key that reads back as k, in order |
| `Sql.Token` | src/Action.php:132 | one named argument `p_<name> := <value>`, the value unquoted |
| `Sql.Implode` | src/Action.php:134 | PHP's `implode`; `ImplodeLength`, `ImplodePiece` and `ImplodeSeparator` give its layout |
| `Sql.ImplodeLength` | src/Action.php:134 | n pieces implode to the pieces' total length plus exactly n - 1 separators |
| `Sql.ImplodePiece` | src/Action.php:134 | piece i of an imploded string stands, unchanged, at the offset after all earlier pieces and their separators |
| `Sql.ImplodeSeparator` | src/Action.php:134 | every piece but the last is followed directly by the separator and then by the next piece |
| `Sql.OffsetOfLast` | src/Action.php:134 | the last piece ends the imploded string |
| `Sql.ParamList` | src/Action.php:128-135 | the argument list of `params()` is empty exactly when there are no parameters |
| `Sql.ParamListLayout` | src/Action.php:128-135 | parameter i gives `p_<name> := <value>` at its place in input order, followed by ", " when another parameter comes after it |
| `Sql.MappingMatchesParams` | src/Action.php:153-158 | the explicit-mapping branch writes exactly the token list `params()` would write for the same names and values |
| `Sql.CallArgumentsRoundTrip` | src/Action.php:162-164 | the argument list can be read back from the issued `SELECT * FROM fn(...)`; the bare call has the empty list |
| `Sql.FalsyIffNoParams` | src/Action.php:152 | `$params` is falsy exactly when no argument list is built |
| `Sql.Dispatch` | src/Action.php:152-161 | which argument list `$params` selects: none, the mapping, a location, or all parameters |
| `Sql.CallSql` | src/Action.php:162-164 | `SELECT * FROM fn()` or `SELECT * FROM fn(list)`; `CallArgumentsRoundTrip` is its inverse |
| `Sql.IssuedSql` | src/Action.php:152-164 | the SQL issued for `fn` and `$params`; the two lemmas below give each branch |
| `Sql.FalsyParamsGiveBareCall` | src/Action.php:152-164 | any falsy `$params` issues exactly `SELECT * FROM fn()` |
| `Sql.TruthyParamsGiveArgumentList` | src/Action.php:152-162 | a truthy `$params` issues `SELECT * FROM fn(P)`: P from the mapping for an array, from `params($params)` for a string, from `params()` otherwise |
| `Sql.EmptyLocationLikeNoParams` | src/Action.php:160-164 | a location with no parameters issues the same SQL as passing none |
| `Settings.Merge` | src/Action.php:54 | the merge has every section of either file; a local section replaces the base one wholesale; base-only sections are kept |
| `Tao.DatabaseConfigAfterMerge` | src/Action.php:99-101 | with a local `[database]` section, dsn, username and password all come from it; without one, from the base file |
| `Settings.Resolve` | src/Action.php:51-55 | the base sections alone when no local file is readable, else their merge |
| `Settings.MergeIdempotent` | src/Action.php:54 | the merge overrides rather than accumulates: the merged settings already hold every local section verbatim, so merging the same local file again changes nothing |
| `Settings.MergeEmptyLocal` | src/Action.php:54 | an empty local file leaves the base settings unchanged |
| `Settings.SettingAfterMerge` | src/Action.php:51-55 | after the merge, a key of a section the local file defines is looked up in the local section only |
| `Settings.WholeSectionReplaced` | src/Action.php:54 | a key missing from a local section is missing after the merge, whatever the base section holds |
| `Katana.Effect` | src/Action.php:168 | each completed SDK call writes only its own slot: `setEntity`/`setCollection` set exactly that field to the given value and leave the other alone; relations, links and errors keep their old entries and grow by one only for their own call, by exactly the relation, link or error report (with or without status) that call names; params, connect and query calls leave the response unchanged |
| `Katana.Report` | src/Action.php:170 | a `catch` body: the two-argument error call, whose own exception escapes |
| `Katana.Guarded` | src/Action.php:243-247 | an SDK call inside `try`, with `Report` as its `catch` |
| `Katana.ReportRecordsOrEscapes` | src/Action.php:169-171 | a caught exception appends exactly one error with its message and code, or the forwarding call's own exception escapes with the response unchanged |
| `Katana.GuardedOutcomes` | src/Action.php:243-248 | a call that does not throw takes effect; a call that throws is handled exactly as `Report` of its exception, so one error is recorded unless the report's own exception escapes with nothing changed |
| `Tao.QueryOutcome` | src/Action.php:117-120 | opening the handle when there is none, then running the SQL, with either step able to throw |
| `Tao.Fetch` | src/Action.php:152-164 | the rows for `fn` and `$params`, or the exception from `getParams`, connecting or the query |
| `Tao.FirstRow` | src/Action.php:166 | row 0, or `null` when there is none |
| `Tao.EntityCall` | src/Action.php:151-168 | the `setEntity` call, or the exception met before it |
| `Tao.CollectionCall` | src/Action.php:189-205 | the `setCollection` call, or the exception met before it |
| `Tao.FetchRunsIssuedSql` | src/Action.php:150-166 | rows are fetched exactly when parameters resolve, a handle is available and the query does not throw; they are the rows of the issued SQL |
| `Tao.LiteralPassesThrough` | src/Action.php:151-168 | a non-string entity or collection goes to the SDK unchanged, with no query |
| `Tao.EntityKeepsFirstRow` | src/Action.php:162-168 | a string entity stores row 0 of the result, or `null` when there is no row |
| `Tao.CollectionKeepsAllRows` | src/Action.php:200-205 | a string collection stores every row, unmodified and in order |
| `Tao.EntityCollectionFailAlike` | src/Action.php:188-209 | `entity` and `collection` fail on the same exception for the same function and `$params` |
| `Tao.BuildMappingList` | src/Action.php:153-158 | the loop over a mapping produces exactly the mapping's token list |
| `Tao.DatabaseConfig` | src/Action.php:99-101 | the dsn, username and password of the `[database]` section, each possibly missing |
| `Tao.Connection.constructor` | src/Action.php:98-106 | the handle is made from the `[database]` dsn, username and password |
| `Tao.Action.constructor` | src/Action.php:48-57 | the settings are the base file, merged with the local file when it is readable; no handle is open and no SQL sent |
| `Tao.Action.Database` | src/Action.php:95-109 | the first call creates one fresh handle from the settings and counts it, or throws and keeps none; later calls return the same handle and create none |
| `Tao.Action.Query` | src/Action.php:117-120 | opens the handle if needed; sends the SQL once a handle exists; returns its rows or the exception |
| `Tao.Action.Params` | src/Action.php:128-135 | returns the argument list of the location's parameters, or the exception `getParams` throws |
| `Tao.Action.Load` | src/Action.php:151-164 | builds the argument list the `$params` argument selects, issues `IssuedSql` and returns `Fetch`'s outcome |
| `Tao.Action.Invoke` | src/Action.php:168 | an SDK call, which throws as the environment says or else takes its `Effect` |
| `Tao.Action.Catch` | src/Action.php:169-171 | a caught exception is forwarded by the two-argument `error` call |
| `Tao.Action.Guard` | src/Action.php:243-247 | a single SDK call inside `try`/`catch` |
| `Tao.Action.Entity` | src/Action.php:148-173 | the response is `Settle` of `EntityCall`; the SQL sent and the handle follow `Load`; `$this` is returned unless the fallback report threw |
| `Tao.Action.Collection` | src/Action.php:186-210 | the same as `Entity`, with every row stored as the collection |
| `Tao.Action.Relation` | src/Action.php:220-232 | `relateMany` when `$fk` is an array, `relateOne` otherwise, guarded and reported |
| `Tao.Action.Link` | src/Action.php:241-249 | the link is registered, guarded and reported |
| `Tao.Action.Error` | src/Action.php:259-267 | forwards message, code (default 0) and status (default `500 Internal Server Error`); if that throws, forwards the caught message and code |

## Left out

- PDO itself (driver options, the persistent connection, `fetchAll`). The handle is an abstract `Connection`, and whether it can be opened is decided by the `fault` oracle.
- Reading the INI files, `is_readable` and the script-path lookup through `$_SERVER`. The constructor takes the parsed base sections and, when the local file is readable, the local ones.
- The Katana SDK's internals. The response record stands for it. Each call either throws or takes effect, as the `fault` oracle decides. That oracle is a function, so the same call always behaves the same way.
- `init()`, `action()` and `run()`: a factory and two getters. The constructor and the `response` field stand for them.
- `src/Service.php` and the plugin base classes: they only delegate to the SDK or hold an owner reference.
- Floats, objects and resources among PHP values. Integer keys of an explicit mapping are written as their text. Keys of a `Record` are not checked for uniqueness.
- `Settings.Merge`: order of sections is not kept, and PHP's renumbering of integer keys in `array_merge` (a section named like `[1]`) is not modelled; sections are keyed by strings.
- Exception codes are integers. PDO can report a string SQLSTATE as its code; that case is not modelled.
- PHP `Error`s, such as a `TypeError`, are not caught by `catch (\Exception $e)`. The model has no such errors.
- PHP notices and warnings; only the value the code goes on with is modelled: `$rows[0]` on an empty result (`null`), interpolating an array value into a token at src/Action.php:132 and :156 ("Array to string conversion"; `Php.Text` gives "Array"), and a missing `[database]` section or key read at src/Action.php:99-101 (undefined index; `Tao.DatabaseConfig` gives `None`).
- Dafny strings count UTF-16 code units, PHP strings count bytes; the lengths in `Sql.ImplodeLength` are in Dafny's units.
- PHP integers are 64-bit and overflow into floats; the model's integers (and their `Decimal` text) are unbounded.
