# SuggestionsAPI request gateway

This is a Dafny model of the request gateway of SuggestionsAPI. SuggestionsAPI is a small HTTP service that stores a Discord bot's suggestions and reports per guild. Every route handler runs a fixed sequence of checks, then at most one SQL statement, except `/fetchall`, which reads both tables:

1. The `Api-Key` header must be present and must name a configured key (`Invalid token.`).
2. On POST routes, every required body field must be non-null (`Required body parameters were not given.`).
3. The key's policy must be `global`, or its `guilds` list must contain the target guild. POST routes answer `You cannot submit information for that guild.` and GET routes answer `You cannot fetch information for that guild.`
4. The id prefix picks the table: `s_` means suggestions, `r_` means reports, and anything else gets `ID parameter was invalid.`
5. One INSERT, UPDATE or SELECT runs against the selected table. `/fetchall` has no id and runs one SELECT on each table.

Every error is reported in-band, as a `Response` value.

The code is split into four modules:

- `Records` (records.dfy): the rows of the `suggestions` and `reports` tables, and the parsed JSON bodies. A body field is an `Option`, so that null and missing can be expressed.
- `Auth` (auth.dfy): the token table (key to `{global, guilds}`) and the guild-scope test.
- `Tables` (tables.dfy): what `SELECT ... WHERE` and `UPDATE ... WHERE` do to a table held as a sequence of rows. This module replaces the PostgreSQL database.
- `Routes` (routes.dfy, modelling routes.ts): the id-prefix dispatch and the class `Store`.
  - `Store` has the read-only token table and two sequence fields, one per table.
  - `Submit` and `SetStatus` change those fields.
  - `Fetch`, `FetchAll`, `Upvote` and `Downvote` have no `modifies` clause. The verifier therefore guarantees that they never write to either table.

The id that `/submit` and `/setstatus` dispatch on is `ctx.params.id`. It is an input of its own (`dispatchId`), separate from `body.id`, which the INSERT and UPDATE use. When it is absent, the handler throws, and the model answers `Crash` (see Findings).

What the code does, and so what the model does:

- The code has no vote aggregation. The upvote and downvote handlers stop after their checks and assign no response body (`NoBody`).
- The vote routes read `body.id`; they have no `message` field.
- `setstatus` succeeds even when no row matched. It has no not-found result and returns no message or channel id.
- The code has no `move` route.
- All four POST routes check the required body fields before the guild scope. `/fetch` and `/fetchall` check no body fields at all.

Small helpers state the individual checks and columns, and the handler rows below describe what they mean:

- `Auth.KnownKey` is the key check (routes.ts:25, 71, 111, 144, 176, 210).
- `Records.SubmitBody.Complete`, `Records.StatusBody.Complete` and `Records.VoteBody.Complete` are the required-field checks (routes.ts:31, 77, 117, 150).
- `Records.NewSuggestion` and `Records.NewReport` are the rows the two INSERTs write (routes.ts:44-45, 50-51), with `"[]"` as both vote columns of a suggestion.

## Model

| member | source | states |
|---|---|---|
| `Auth.MayAccess` | routes.ts:37-40 | A global key passes the guild-scope check for every guild. A non-global key passes exactly when its guild list contains the guild. |
| `Tables.Filter` | routes.ts:187-194 | A SELECT with a WHERE condition returns a row exactly when the row is stored in the table and meets the condition. It never returns more rows than the table holds. |
| `Tables.FilterCounts` | routes.ts:222-230 | The SELECT has bag semantics. A matching row comes back exactly as many times as it is stored, and a non-matching row never comes back. |
| `Tables.UpdateWhere` | routes.ts:88-93 | The UPDATE keeps the table's length and order. Each matching row is rewritten, and every other row stays as it was. |
| `Tables.FilterAppend` | routes.ts:42-53 | After an INSERT, a SELECT returns the rows it returned before, followed by the new row if that row matches. |
| `Tables.FilterAfterUpdate` | routes.ts:88-93 | If an UPDATE keeps rows matching its own condition, a later SELECT with that condition returns the same rows, in the same order, each rewritten. |
| `Tables.UpdateWithoutHit` | routes.ts:88-93 | An UPDATE that matches no row leaves the table exactly as it was. |
| `Routes.Classify` | routes.ts:42-56 | The id dispatch: the result is suggestions if and only if the id starts with `s_`, reports if and only if it starts with `r_`, and nothing otherwise. The two prefixes exclude each other. |
| `Routes.Store.constructor` | routes.ts:5-6 | The token table is fixed at start-up. The two tables start with the contents given. |
| `Routes.Store.Submit` | routes.ts:21-57 | The errors come in this order: unknown or absent key, missing field, out-of-scope guild. After that, an absent dispatch id gives `Crash`, and an id with neither prefix gives `Err("ID parameter was invalid.")`. An `s_` id appends exactly one suggestions row built from the body, with `"[]"` as both vote lists, and leaves reports unchanged. An `r_` id appends one reports row and leaves suggestions unchanged. Every other outcome leaves both tables unchanged. |
| `Routes.Store.SetStatus` | routes.ts:67-97 | The checks and dispatch are the same as for `Submit`. On `Ok`, only the selected table changes: `status` is set on the rows whose guild and id equal the body's, and no other row or column changes. It answers `Ok` even when no row matched. On every other outcome, neither table changes. |
| `Routes.Store.Upvote` | routes.ts:107-130 | Invalid key, missing field and out-of-scope guild give their errors in that order. The handler answers `NoBody` exactly when all checks pass. It has no `modifies` clause, so neither table ever changes. |
| `Routes.Store.Downvote` | routes.ts:140-163 | Behaves as `Upvote`. The different order of its field tests does not change the outcome. It never changes either table. |
| `Routes.Store.Fetch` | routes.ts:172-198 | Invalid key, then out-of-scope `guild_id`, give `Err` with the fetch wording. An id with neither prefix gives `Err("ID parameter was invalid.")`. Otherwise the result is `OkData` holding exactly the rows of the selected table that have this guild and id. That set may be empty. The handler never writes. |
| `Routes.Store.FetchAll` | routes.ts:206-231 | Invalid key, then out-of-scope guild, give `Err`. Otherwise the result is `OkAll` with exactly the suggestions and exactly the reports whose guild is `guild_id`. This is a success even when both lists are empty. The handler never writes. |
| `Routes.Store.PostSubmit` | routes.ts:21-42 | `/submit` as registered, with no `id` path parameter. It never answers `Ok` and never writes. It answers `Crash` exactly when the request passes all three checks. |
| `Routes.Store.PostSetStatus` | routes.ts:67-88 | `/setstatus` as registered. It never answers `Ok` and never writes. It answers `Crash` exactly when the request passes all three checks. |
| `Routes.Store.SubmitByBodyId` | routes.ts:42-53 | Submit dispatching on `body.id`. An admitted request succeeds exactly when the id has a known prefix. On success, the selected table becomes the old table plus exactly the new row, and the other table is unchanged. A fetch of the same guild and id then returns its earlier result followed by the new row. On failure, neither table changes. |
| `Routes.Store.SetStatusByBodyId` | routes.ts:88-93 | Setstatus dispatching on `body.id`. On success, the selected table becomes `UpdateWhere` of the old table: only rows with the body's guild and id get the new status, and every other row is unchanged. The other table is unchanged. A fetch of the same guild and id then returns the same rows, in the same order, each with the new status. On failure, neither table changes. |

## Findings

| source | as written | input that shows it | evidently intended | confidence | as-written member | corrected member |
|---|---|---|---|---|---|---|
| routes.ts:42-56 | `/submit` dispatches on `ctx.params.id`, but the route path declares no `:id`. So `startsWith` is called on `undefined` and throws. | A known key, every body field present, `body.guild` in scope, `body.id = "s_1"`: the handler throws and no row is inserted. | Dispatch on `body.id`, the id the INSERT writes. | high, not executed | `Routes.Store.PostSubmit` | `Routes.Store.SubmitByBodyId` |
| routes.ts:88-96 | `/setstatus` dispatches on `ctx.params.id` in the same way, and its path has no `:id` either. | A known key, a body `{id: "s_1", guild: g, status: "approved"}` with `g` in scope: the handler throws and no status is written. | Dispatch on `body.id`, the id the UPDATE matches. | high, not executed | `Routes.Store.PostSetStatus` | `Routes.Store.SetStatusByBodyId` |

## Left out

- HTTP plumbing is not modelled: the Oak application, the timing and logging middleware, the banner answer for unmatched routes, and `listen` (mod.ts).
- What Oak sends for `NoBody` (its default not-found answer) and for `Crash` (a server error) is not modelled. The model only records that the handler did not answer normally.
- The database connection handling (structures/PostgreSQL.ts) is not modelled. Opening and closing a client around each query is replaced by two in-memory sequences of rows. Connection and query failures are not modelled.
- The `created_at` column is not modelled. The INSERT does not write it, and the database fills it from a clock.
- `Tables.Filter`: SQL promises no row order, but the model returns matching rows in table order. The membership and count properties (`Tables.Filter`, `Tables.FilterCounts`) are the part that does not depend on order.
- JSON parsing of the request body is not modelled. Bodies are taken as parsed records whose fields are absent or strings. A missing or malformed body, which would throw, and non-string field values are not modelled.
- JavaScript object-lookup quirks are not modelled. An `Api-Key` such as `toString` finds an inherited property rather than `null`, and the later `guilds.includes` then throws. The token table is a plain map.
- The `console.log` calls in the vote handlers are not modelled.
- Concurrency between requests (interleaved statements, lost updates) is not modelled. Each handler runs as one atomic step.
- No vote toggling, vote counts, `move` route, or not-found result for `setstatus` is modelled, because the code has none of them.
