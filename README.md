# A verified model of a small MySQL data-access layer

The layer sits on top of the `mysql` driver and offers three things:

- a process-wide registration point for the pool, in two forms:
  - `connectionProvider` keeps a `config` slot and a `pool` slot, written by `setConfig` and read by two getters;
  - `poolProvider` keeps one `pool` slot, filled by `setPool` from a factory and read by `getPool`;
- query helpers. `query` runs a statement. `all`, `single`, `first`, `any` and `insert` shape its result;
- a transaction coordinator, `inTransacation` (the name as the source spells it). It borrows a connection, begins a transaction, runs a unit of work, commits (or rolls back and rethrows) and releases the connection in a `finally`.

The model is written in Dafny, one module per source file:

- `outcomes.dfy` (`Outcomes`): driver handles, the layer's errors (one per message it throws, plus `Foreign` for errors from the driver, `createPool`, a unit of work or a factory), and `Outcome` = `Ok(value) | Err(error)`.
- `js_values.dfy` (`JsValues`): the JavaScript semantics the code depends on. These are truthiness, `typeof`, and loose equality between a boolean and a string.
- `connection_provider.dfy` (`ConnectionProvider`):
  - the slots as a class `Provider` whose methods update its fields;
  - pure step functions that specify those methods;
  - lemmas over sequences of calls.
- `pool_provider.dfy` (`PoolProvider`): the same structure for `poolProvider`, with class `Slot`. A ghost counter records how often a factory was invoked.
- `mysql_base.dfy` (`MysqlBase`):
  - the query helpers as functions. Each takes the call's arguments, the current pool slot and the driver's answer for each handle;
  - the coordinator as a method on a `Connection` object that records its calls. It is proved against a path-by-path specification, `Transaction`/`Protocol`;
  - lemmas about that specification.

Every driver call is an outcome given to the model as a parameter. This covers `createPool`, `getConnection`, `query`, `beginTransaction`, `commit`, `rollback` and the pool factory. SQL text is never interpreted.

Where the design description and the code disagree, the model follows the code:

- The design says exactly one of commit and rollback is attempted. In the code, a failed commit is caught by the same `catch` as a failed unit of work, so rollback follows it (`CommitFailureAlsoRollsBack`).
- The design has `single` carry the row count and `insert` fail on a result without an insert id. The code throws one fixed message for zero and for several rows. It returns `insertId` unchecked, so a missing one comes back `undefined` (`None`).
- The design describes a BIT-to-boolean pass over the rows. `query` returns the driver's rows untouched, so no such pass is modelled.
- The design describes `setConfig` accepting a factory. The code stores the config and calls `createPool` directly.
- The parameter guard `!typeof params == 'object'` never fires (`ParamsGuardNeverFires`), so any `params` value is accepted.
- `query`'s default parameter `con = connection.pool` is evaluated on entry. So with no connection passed and no pool registered, the pool getter's error is thrown even before the SQL text is checked (`Query`, `HelpersNeedARegisteredPool`).
- `connectionProvider`'s guard tests the pool, not the config. If `createPool` throws, the config is already stored, the pool is still empty and `setConfig` can be called again (`RetryAfterCreatePoolFails`).

## Model

| member | source | states |
|---|---|---|
| `ConnectionProvider.PoolOf` | src/connectionProvider.js:18-24 | the pool getter succeeds iff a pool is set, returns exactly that pool, and otherwise throws the no-pool error |
| `ConnectionProvider.ConfigOf` | src/connectionProvider.js:26-32 | the config getter succeeds iff the stored config is truthy, returns it unchanged, and otherwise throws the no-config error |
| `ConnectionProvider.Provider.constructor` | src/connectionProvider.js:3-4 | both slots start out null |
| `ConnectionProvider.Provider.SetConfig` | src/connectionProvider.js:9-16 | with a pool set: throws and changes neither slot; otherwise stores the config, then stores the created pool, or passes on `createPool`'s error with the pool slot still empty |
| `ConnectionProvider.Provider.GetPool` | src/connectionProvider.js:18-24 | throws while no pool is set, otherwise returns the pool |
| `ConnectionProvider.Provider.GetConfig` | src/connectionProvider.js:26-32 | throws while the config is falsy, otherwise returns it |
| `ConnectionProvider.RejectedWhilePoolSet` | src/connectionProvider.js:9-12 | `setConfig` with a pool set throws, leaves both slots as they were, and its outcome does not depend on `createPool` |
| `ConnectionProvider.GettersAfterSetConfig` | src/connectionProvider.js:14-32 | after an accepted `setConfig(c)` the pool getter returns the created pool and the config getter returns `c` (throws if `c` is falsy) |
| `ConnectionProvider.RetryAfterCreatePoolFails` | src/connectionProvider.js:10-15 | a throwing `createPool` leaves the config recorded and the pool empty, so the pool getter throws and a second `setConfig` is accepted |
| `ConnectionProvider.SetOnce` | src/connectionProvider.js:8-33 | while a pool is set, every call in any sequence of `setConfig` calls throws, and both slots stay unchanged |
| `ConnectionProvider.FirstPoolStays` | src/connectionProvider.js:8-24 | from the initial state, the first successful `setConfig` fixes the pool the getter returns after any later calls |
| `PoolProvider.GetPoolOf` | src/poolProvider.js:11-18 | `getPool` succeeds iff the slot is truthy, returns its value unchanged, and otherwise throws |
| `PoolProvider.Slot.constructor` | src/poolProvider.js:1 | the slot starts out null and no factory has run |
| `PoolProvider.Slot.SetPool` | src/poolProvider.js:3-9 | with a truthy slot: throws without invoking the factory and changes nothing; otherwise invokes the factory once and stores its value, or passes on its error and leaves the slot as it was |
| `PoolProvider.Slot.GetPool` | src/poolProvider.js:11-19 | throws while the slot is falsy, otherwise returns it |
| `PoolProvider.FactoryInvokedOnlyWhenAccepted` | src/poolProvider.js:3-8 | a rejected `setPool` leaves the state, factory count included, unchanged; an accepted one invokes the factory exactly once |
| `PoolProvider.GetPoolAfterSetPool` | src/poolProvider.js:8-18 | after `setPool` with a factory yielding a truthy pool, `getPool` returns exactly that pool |
| `PoolProvider.RetryAfterFailedFactory` | src/poolProvider.js:4-12 | a throwing factory or a falsy result leaves the slot empty: `getPool` still throws and a later `setPool` is accepted and read back |
| `PoolProvider.SetOnce` | src/poolProvider.js:3-18 | while a pool is set, every call in any sequence of `setPool` calls throws, no factory runs and the stored pool stays |
| `MysqlBase.ParamsGuardNeverFires` | src/mysqlBase.js:12 | the parameter check never throws, for any `params` value |
| `MysqlBase.Query` | src/mysqlBase.js:10-20 | without a connection or a registered pool: the pool getter's error; otherwise a non-string SQL text throws before the driver; otherwise exactly the driver's answer for the passed connection, or for the registered pool by default |
| `MysqlBase.All` | src/mysqlBase.js:72-74 | resolves exactly when `query` does, with the same rows and insert id, or rejects with the same error |
| `MysqlBase.Single` | src/mysqlBase.js:30-38 | succeeds iff the query succeeds with exactly one row, and returns that row; 0 rows and 2 or more rows throw the same error; query errors pass through |
| `MysqlBase.Any` | src/mysqlBase.js:48-50 | returns whether the row count is positive; query errors pass through |
| `MysqlBase.First` | src/mysqlBase.js:60-62 | never fails on a successful query; returns row 0, or null exactly when there are no rows; query errors pass through |
| `MysqlBase.Insert` | src/mysqlBase.js:84-86 | returns the result's insert id as it is, absent included, with no check; query errors pass through |
| `MysqlBase.AnyIffAllNonEmpty` | src/mysqlBase.js:48-74 | `any` is true iff `all` resolves with a non-empty sequence, and false iff it resolves with an empty one |
| `MysqlBase.FirstAgreesWithSingle` | src/mysqlBase.js:30-62 | where `single` succeeds, `first` returns the same row |
| `MysqlBase.HelpersPassOnQueryErrors` | src/mysqlBase.js:30-86 | a failing `query` makes `all`, `single`, `any`, `first` and `insert` fail with that same error |
| `MysqlBase.HelpersNeedARegisteredPool` | src/mysqlBase.js:10 | with no connection passed and no pool registered, every helper throws the pool getter's error |
| `MysqlBase.SqlCheckedBeforeDriver` | src/mysqlBase.js:10-15 | a non-string SQL text fails, whatever the driver would answer |
| `MysqlBase.SingleMessageForAnyWrongCount` | src/mysqlBase.js:30-37 | zero rows and two or more rows both make `single` throw the one fixed "more than one result" message |
| `MysqlBase.Connection.constructor` | src/mysqlBase.js:105 | a newly borrowed connection has no calls recorded |
| `MysqlBase.Connection.BeginTransaction` | src/mysqlBase.js:110-112 | records a begin call and answers with the driver's outcome |
| `MysqlBase.Connection.CommitTransaction` | src/mysqlBase.js:108-116 | records a commit call and answers with the driver's outcome |
| `MysqlBase.Connection.RollbackTransaction` | src/mysqlBase.js:109-120 | records a rollback call and answers with the driver's outcome |
| `MysqlBase.Connection.ReleaseToPool` | src/mysqlBase.js:125 | records the release |
| `MysqlBase.InvokeWork` | src/mysqlBase.js:115 | the unit of work is invoked with the connection, and its outcome is returned |
| `MysqlBase.InTransacation` | src/mysqlBase.js:99-127 | the caller's outcome and the connection's new call record are exactly those of the path-by-path specification `Transaction` |
| `MysqlBase.NotAFunctionTouchesNothing` | src/mysqlBase.js:100-102 | a non-function unit of work throws `TypeError` before any borrow, so nothing is called on any connection |
| `MysqlBase.ReleasedExactlyOnce` | src/mysqlBase.js:105-126 | once a connection is borrowed, it is released exactly once and last, on every path; without a borrow nothing is called |
| `MysqlBase.BeginFailureSkipsWork` | src/mysqlBase.js:107-126 | if begin fails, the work, commit and rollback are never invoked; the connection is released and the begin error reaches the caller |
| `MysqlBase.ValueOnlyAfterCommit` | src/mysqlBase.js:114-117 | the caller gets a value iff begin, work and commit all succeed; the value is the work's, after a commit and with no rollback |
| `MysqlBase.ErrorAfterFailedWorkOrCommit` | src/mysqlBase.js:114-123 | after a failed work or commit, rollback is attempted; the caller sees the rollback's error if it fails, else the original error of the work or the commit |
| `MysqlBase.FailedWorkNotCommitted` | src/mysqlBase.js:114-120 | a failed unit of work is never committed |
| `MysqlBase.CommitFailureAlsoRollsBack` | src/mysqlBase.js:116-120 | a failed commit is followed by a rollback: the calls are begin, work, commit, rollback, release |
| `MysqlBase.NestedQueriesUseTheConnection` | src/mysqlBase.js:26-27 | a statement run with the borrowed connection goes to that connection's driver, whether or not a pool is registered |
| `MysqlBase.BeginAndReleaseCounts` | src/mysqlBase.js:107-126 | each transaction makes one begin and one release if it borrowed a connection, none otherwise |
| `MysqlBase.NoConnectionLeaks` | src/mysqlBase.js:104-126 | over any sequence of transactions, the number of releases and the number of begins both equal the number of borrowed connections |

## Left out

- The `mysql` driver (`createPool`, `getConnection`, `query` callbacks, `beginTransaction`, `commit`, `rollback`, `util.promisify`) is a foreign library. Each call is an outcome passed in as a parameter, and the `fields` metadata is not modelled.
- Promises and concurrency: every operation runs as one sequential step. A synchronous throw and a rejected promise are both `Err`. Two overlapping `setPool` calls can both pass the guard before either stores its pool; that race is not modelled.
- SQL text and parameter substitution: opaque values, never interpreted. How rows reach the database, and so the effect of a rollback on visible rows, is not modelled.
- `MysqlBase.Connection.ReleaseToPool` cannot fail. A `release()` that threw inside the `finally` would replace the outcome; the driver does not throw on the single release of a fresh borrow.
- JavaScript numbers are integers here; NaN, fractions and the full string-to-number conversion are not modelled. `ToNumber` handles only the empty string and plain digit strings, which is enough for the parameter guard.
- A caller passing `null` or a non-handle as the connection is not modelled. `con` is either absent (the default applies) or a handle.
- The result of a write statement is a driver object whose `length` is undefined. It is represented as a result with no rows, which gives the same answers for `=== 1`, `> 0` and `[0]`.
- `src/guid.js` (a wrapper over random UUIDs) and `index.js` (re-exports; it imports `src/isProduction.js`, which is not part of this model) are not modelled.
- The test calls `inTransaction`, a name the class does not define. The model keeps the source's `inTransacation`.
