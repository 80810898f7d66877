# nbauth-rust: sign-up, sign-in lockout and tokens, in Dafny

This project models the authentication core of `nbauth-rust`. Users are identified by phone number and
password. Sign-up stores a salted SHA-256 hash under a fresh id and issues a signed, expiring token.
Sign-in (`auth`) looks the phone up, applies a per-account retry lockout, checks the password, records
the outcome in the account row and issues a token. Token verification accepts only an authentic token
whose expiration is still in the future.

Modules, one per source component:

- `Wrappers`: `Option` and `Result`.
- `Model` (src/model.rs): `Account`, `AccountInsert`, `AccountQuery` and `AccountUpdate`.
  - `Selects` is the AND of the optional `id`/`phone` filters.
  - `Apply` is the partial-update semantics of a changeset.
- `Dao` (src/dao.rs): class `Database`, whose field `rows: seq<Account>` holds the table in table order.
  - Its methods are `InsertAccount`, `UpdateAccount` and `GetAccount`.
  - The filter chain is built step by step (`BuildFilters`), as the boxed query builders are.
  - The loops in `UpdateAccount` and `GetAccount` stand for the database scanning the table.
  - Each method is proved against a specification function: `UpdateRows`, `CountSelected` or `Lookup`.
- `Mysql` (src/store/mysql.rs): class `MysqlStore` over a `Database`. It runs the same queries and maps
  failures onto `StoreError = NetworkError | InternalError`.
- `Credentials`: the uppercase two-digit hex rendering of digest bytes, its inverse, the salted
  password hash, and the shapes of the salt and the account id.
- `Tokens`: `Claim`, `sign_jwt` and `verify_jwt`.
- `Lockout`: the lockout decision, the three counter writes (reset, failure, success) and the
  per-account invariant `WithinLimit`.
- `Handlers`: the `Error` type and `respond_to`, plus the methods `SignUp`, `CheckErrorCount`,
  `CheckPassword` and `Auth`.
  - They run against the dao's `Database`, as the handlers do.
  - `AuthStep` is the function that specifies one `auth` call.
- `AuthProperties`: sign-in as a state machine over the table.
  - Per-call cases: unknown phone, locked, wrong password, success.
  - The counter bound over any sequence of calls (`AuthRun`).
  - The sign-up to sign-in round trip.
  - A concrete walk-through of the lockout.

Parameters in place of effects:

- SHA-256 and HMAC-SHA256 are function parameters (`Hasher`, `Mac`). The model uses only that they are
  functions, which makes them deterministic, and that a digest is 32 bytes.
- The clock (`now`, epoch seconds), the random salt (16 alphanumeric characters) and the UUID
  (32 lowercase hex digits) are parameters.
- The pool's connection is a parameter: `PoolResult = PoolTimeout | Acquired(Healthy | Broken)`.

Assumption: a freshly inserted row has `login_error_count = 0`. That value is the column's database
default, which the schema does not show.

Edge behaviour, as the code has it:

- The lock holds only while `last_error_at + interval > now` (src/handlers.rs:144). At exactly
  `now == last_error_at + interval` the account is no longer locked: the attempt proceeds after a reset.
- `MysqlStore::get_account` reports a missing row as `InternalError`, like any other query failure
  (src/store/mysql.rs:39). The store does not tell "no such account" apart.
- An `AccountUpdate` with every column `None` is an empty changeset. The query builder refuses it
  before anything reaches the table, so `update_account` fails with it (`EmptyChangeset`). The handlers
  never send one.
- The store files refer to `Storer`, `StoreError` and `StoreResult`, which src/handlers.rs does not
  define. `StoreError` is defined here in `Mysql`. The handlers call the dao directly, as the shown code
  does.

## Model

| member | source | states |
|---|---|---|
| `Model.Selects` | src/dao.rs:21-26 | a query selects a row iff each supplied filter equals that column (AND); the empty query selects every row |
| `Model.NewAccount` | src/model.rs:19-25 | an inserted row carries the inserted `id`, `phone`, `password`, `salt` and `create_at`, a zero counter and absent times |
| `Model.Apply` | src/model.rs:33-40 | an update never changes `id`, `phone`, `salt`, `create_at` or `update_at` (they are not in the changeset) |
| `Model.ApplyOverwritesExactlySome` | src/model.rs:35-40 | every `Some` column of the changeset is written, and every `None` column keeps its old value |
| `Model.DefaultUpdateIsNoOp` | src/model.rs:33-40 | `AccountUpdate::default()` changes nothing |
| `Model.ApplyIdempotent` | src/model.rs:33-40 | applying a changeset twice equals applying it once |
| `Model.DefaultQuerySelectsAll` | src/model.rs:27-31 | `AccountQuery::default()` imposes no filter |
| `Model.SelectsStableUnderApply` | src/model.rs:5-15 | whether a query selects a row is unchanged by any update |
| `Dao.BuildFilters` | src/dao.rs:31-37 | the stepwise filter chain holds of a row iff every supplied filter matches (AND); absent filters add nothing |
| `Dao.FirstMatchFrom` | src/dao.rs:38 | returns the first selected index at or after `from`, or none when no row there is selected |
| `Dao.Lookup` | src/dao.rs:30-38 | `first()` succeeds iff some row is selected, and then returns a selected row with no selected row before it; otherwise the error is `NotFound` |
| `Dao.UpdateRows` | src/dao.rs:15-27 | selected rows get the changeset, unselected rows are unchanged, and length and order are kept |
| `Dao.CountSelected` | src/dao.rs:27 | the affected count is the number of positions the query selects, at most the table size, and 0 iff no row is selected |
| `Dao.Database.InsertAccount` | src/dao.rs:8-13 | appends exactly the new row; a duplicate primary key or a broken connection is an error with no change |
| `Dao.Database.UpdateAccount` | src/dao.rs:15-28 | an all-`None` changeset is refused (`EmptyChangeset`) with no change; a broken connection changes nothing; otherwise the table becomes `UpdateRows(old, q, u)` and the result is the selected count; primary keys stay unique |
| `Dao.Database.GetAccount` | src/dao.rs:30-39 | returns the first row in table order that satisfies every supplied filter, else `NotFound` |
| `Dao.UpdateRowsKeepsIds` | src/dao.rs:15-27 | an update keeps every id, so the table's ids stay unique |
| `Dao.FirstMatchStableUnderUpdate` | src/dao.rs:15-38 | after any update, a query finds its first row at the same position |
| `Dao.UpdateThenGet` | src/dao.rs:20-38 | after `update_account(q, u)`, `get_account(q)` finds the updated form of the same row and sees every `Some` field of `u` |
| `Dao.UpdateAllWithDefaultQuery` | src/dao.rs:15-27 | an empty query updates, and counts, every row |
| `Dao.InsertThenGetById` | src/dao.rs:8-13 | a row inserted under a fresh id is what a lookup by that id returns, carrying the inserted fields, a zero count and absent times |
| `Mysql.MysqlStore.constructor` | src/store/mysql.rs:10 | the store wraps the given database and starts valid |
| `Mysql.MysqlStore.InsertAccount` | src/store/mysql.rs:13-16 | no connection gives `NetworkError`; an insert failure (including a duplicate id) gives `InternalError`; success appends the row and returns 1 |
| `Mysql.MysqlStore.UpdateAccount` | src/store/mysql.rs:18-28 | same AND filters as the dao; no connection gives `NetworkError`; any statement failure, an empty changeset included, gives `InternalError` with no change |
| `Mysql.MysqlStore.GetAccount` | src/store/mysql.rs:30-40 | returns the first selected row; no connection gives `NetworkError`; a missing row gives `InternalError` |
| `Credentials.HexDigit` | src/handlers.rs:125 | each rendered digit is `0-9` or uppercase `A-F`, and reads back as the nibble it renders |
| `Credentials.HexByte` | src/handlers.rs:125 | `{:02X?}` gives two uppercase hex digits whose value, high digit first, is the byte |
| `Credentials.Hex` | src/handlers.rs:121-126 | two uppercase hex digits per byte |
| `Credentials.UnHexHex` | src/handlers.rs:168-173 | reading the rendering back gives the original digest bytes |
| `Credentials.HexUnHex` | src/handlers.rs:168-175 | a string of uppercase hex digit pairs is the rendering of what it reads back as |
| `Credentials.HexInjective` | src/handlers.rs:168-175 | two digests have equal renderings iff they are equal |
| `Credentials.PasswordHash` | src/handlers.rs:116-126 | the stored hash of `password ++ salt` is 64 uppercase hex characters |
| `Credentials.PasswordMatches` | src/handlers.rs:175 | the candidate passes iff the stored column is 64 uppercase hex digits that read back as SHA-256 of `candidate ++ salt` |
| `Credentials.PasswordRoundTrip` | src/handlers.rs:166-175 | against a sign-up hash, a candidate passes iff its salted digest equals the original's; the sign-up password always passes |
| `Tokens.SignWithKey` | src/handlers.rs:80 | the signed token carries the claim, and verifying it under the same key yields that claim |
| `Tokens.SignJwt` | src/handlers.rs:73-82 | the claim is `{id, phone, now + exp}`; the token verifies under the key at time `t` iff `t < now + exp` |
| `Tokens.VerifyWithKey` | src/handlers.rs:86 | yields the token's claim iff its tag is the key's MAC of that claim |
| `Tokens.VerifyJwt` | src/handlers.rs:84-93 | true iff the token is authentic under the key and `expiration > now` |
| `Tokens.SignThenVerify` | src/handlers.rs:73-93 | a signed token carries id, phone and `now + exp`, and verifies under the same key exactly while it has not expired; with `exp > 0` it verifies when issued |
| `Tokens.ExpiredStaysExpired` | src/handlers.rs:87-91 | a token that fails at `now` fails at every later time |
| `Lockout.Decide` | src/handlers.rs:143-145 | proceed iff `count < limit`; locked iff the limit is reached and `now < last_error_at + interval`; reset iff the limit is reached and the interval has elapsed |
| `Lockout.ResetUpdate` | src/handlers.rs:153-156 | the reset write is a non-empty changeset that leaves the password alone |
| `Lockout.FailureUpdate` | src/handlers.rs:182-186 | the failure write is a non-empty changeset that leaves the password alone |
| `Lockout.SuccessUpdate` | src/handlers.rs:226-229 | the success write is a non-empty changeset that leaves the password alone |
| `Lockout.CounterWritesEffect` | src/handlers.rs:153-229 | the reset writes exactly `count := 0`; the failure exactly `count := read + 1, last_error_at := now`; the success exactly `count := 0, last_login_at := now` |
| `Lockout.UnlockedAtBoundary` | src/handlers.rs:144 | at `now == last_error_at + interval` the attempt proceeds after a reset; one second earlier it is locked |
| `Lockout.LockMonotoneInTime` | src/handlers.rs:144 | a lock at a later time implies a lock at an earlier time; a reset allowed now stays allowed later |
| `Lockout.WithinLimitCanUnwrap` | src/handlers.rs:143-144 | with `limit >= 1`, a row inside the limit never reaches the `unwrap` of an absent `last_error_at` |
| `Lockout.CounterWritesKeepLimit` | src/handlers.rs:153-156 | the reset and success writes, and a failure write from a count below the limit, keep a row inside `0..limit` |
| `Lockout.NewAccountWithinLimit` | src/model.rs:19-25 | a freshly inserted row starts inside the limit |
| `Handlers.RespondTo` | src/handlers.rs:44-60 | a missing row gives 404; other query failures and pool failures give 500; an auth error answers with its own status |
| `Handlers.SignUpInsert` | src/handlers.rs:118-129 | the inserted row has the given id, phone, salt and time, and its password column accepts exactly the candidates whose salted digest equals the sign-up password's, that password included |
| `Handlers.SignUp` | src/handlers.rs:102-135 | inserts `{id, phone, hex(sha256(password ++ salt)), salt, now}` and returns a token for `id` and `phone`; a pool or insert failure changes nothing |
| `Handlers.CheckErrorCount` | src/handlers.rs:137-163 | below the limit: Ok with no write; locked: 429 with no write; interval elapsed: writes exactly `login_error_count := 0` for the phone and clears the caller's count |
| `Handlers.CheckPassword` | src/handlers.rs:165-191 | on a match: Ok with no write; on a mismatch: writes `{count + 1, last_error_at: now}` for the phone and returns 422 |
| `Handlers.CounterWriteKeepsCredentials` | src/handlers.rs:153-229 | a write without a password column keeps every row's id, phone, password and salt |
| `Handlers.AuthStep` | src/handlers.rs:193-235 | one `auth` call keeps the table's length and every row's credentials; without a healthy connection nothing changes; a token is issued only for the first account with the phone when it is not locked and the password matches, and it is `sign_jwt` of that account's id; 429 iff that account is locked; every rejection other than 422 writes nothing |
| `Handlers.Auth` | src/handlers.rs:193-235 | runs lookup, lockout, password check, success write and signing in that order; its result and the new table are `AuthStep`'s |
| `Handlers.VerifyJwtToken` | src/handlers.rs:237-244 | Ok iff the token is authentic and unexpired; otherwise 422 |
| `AuthProperties.AuthUnknownPhone` | src/handlers.rs:211-213 | an unknown phone gives 422 and writes nothing |
| `AuthProperties.AuthLookupFailurePropagates` | src/handlers.rs:214-215 | a lookup failure other than `NotFound` propagates as that database error (500) and writes nothing |
| `AuthProperties.AuthLockedWritesNothing` | src/handlers.rs:218 | while locked, even the right password gets 429, and no counter or `last_login_at` is written |
| `AuthProperties.AuthWrongPassword` | src/handlers.rs:218-219 | a wrong password gives 422 and leaves the row with one more failure (exactly 1 after a lazy reset) at time `now` |
| `AuthProperties.AuthSuccess` | src/handlers.rs:220-232 | the right password, when not locked, writes `{count: 0, last_login_at: now}` and returns exactly `sign_jwt` of the account's id and phone at `now` |
| `AuthProperties.AllWithinLimitCanUnwrap` | src/handlers.rs:143-144 | in a table inside the limit (with `limit >= 1`), the row found for any phone never hits the `unwrap` on an absent time |
| `AuthProperties.AuthKeepsCounterBound` | src/handlers.rs:143-188 | one `auth` call keeps every counter in `0..limit`, and a positive counter has an error time |
| `AuthProperties.AuthRun` | src/handlers.rs:193-235 | from a table inside the limit, any sequence of `auth` calls keeps every counter in `0..limit` |
| `AuthProperties.SignUpThenSignIn` | src/handlers.rs:116-126 | after sign-up, signing in with the same phone and password succeeds, with a token for the new id |
| `AuthProperties.OneRowFailure` | src/handlers.rs:175-188 | on a one-row table, a wrong password below the limit bumps the counter and stamps `last_error_at` |
| `AuthProperties.OneRowLocked` | src/handlers.rs:144-145 | on a one-row table, a locked account answers 429 and the table is unchanged |
| `AuthProperties.OneRowResetThenSuccess` | src/handlers.rs:146-159 | on a one-row table, the right password after the interval resets the counter, signs in and records the login |
| `AuthProperties.LockoutScenario` | src/handlers.rs:137-232 | with limit 3 and interval 60: three failures leave count 3; the right password at `t + 1` gets 429; at `t + 60` it signs in and the counter is reset |

## Left out

- HTTP transport is not modelled: the Rocket routes, `State` and `Json` wrappers, and `set_jwt_cookie`. The handlers return the token instead of setting a cookie.
- src/main.rs (environment variables, pool construction, server launch) is not part of this model. Durations are integer seconds from the start.
- The `logout` handler and the `Storer` trait that src/main.rs names are not part of this model.
- SHA-256 and HMAC internals are function parameters.
  - Collision resistance is not claimed. So the model does not claim that a wrong password always fails, or that a token signed under another key is rejected.
- JWT string serialisation is not modelled: a token is its claim paired with its tag. So malformed token strings cannot be represented.
- Randomness (salt, UUID) and clocks are parameters. One `now` is used per request, although the source reads the clock at each step.
- The concurrent read-modify-write race on the failure counter is not modelled; calls are sequential.
- Integer widths are unbounded `int` (`i32` counters and limit, `i64` times). `AuthKeepsCounterBound` shows that counters never exceed the limit, so the `count + 1` write stays within `i32` whenever the limit does.
- A connection is fixed for the whole request. A connection that fails after a successful lookup in `auth` is not modelled. `CheckErrorCount` and `CheckPassword` do model failing writes on their own.
- Phone uniqueness is not enforced: the schema shows only the primary key on `id`. A phone query takes the first matching row, and an update by phone writes every matching row.
- `check_error_count` panics when the limit is reached with no `last_error_at`. The model makes this a precondition on the row `auth` finds (`FoundCanUnwrap`), which the lockout invariant discharges when `limit >= 1`.
- The `password` column of `AccountUpdate` and the `ChangePassword` request have no handler writing them. Only `Apply` covers that column.
- `Model.Selects` compares filter values by exact string equality. MySQL compares `CHAR`/`VARCHAR` columns under the column's collation (by default case-insensitive, with trailing spaces ignored) and drops trailing spaces of `CHAR` values on read. None of that is modelled, so a phone differing only in case or trailing spaces counts as a different phone here.
- `Dao.Lookup` takes the first selected row in insertion order. `first()` sends `LIMIT 1` without `ORDER BY`, so MySQL may return any of several rows with the same phone. The model fixes that choice as insertion order.
