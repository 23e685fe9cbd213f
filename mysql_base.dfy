/** The query helpers and the transaction coordinator. Every driver call is
    an outcome supplied from outside; SQL text is never interpreted. */
module MysqlBase {
  import opened Outcomes
  import opened JsValues
  import opened ConnectionProvider

  // ---------------------------------------------------------------------
  // Query helpers
  // ---------------------------------------------------------------------

  /** A row as the driver returns it: column name to value. */
  datatype Row = Row(columns: map<string, JsValue>)

  /** What the driver resolves a statement with: its rows (none for a write)
      and the `insertId` property, present only after an insert. */
  datatype QueryResult = QueryResult(rows: seq<Row>, insertId: Option<int>)

  /** The arguments every helper passes on unchanged to `query`: the SQL
      text, the parameters and the optional pool-or-connection (`None` when
      left out, so that the default applies). */
  datatype Arguments = Arguments(sql: JsValue, params: JsValue, con: Option<Handle>)

  /** The driver's `query` on a handle: rows or the driver's error. */
  type Driver = Handle -> Outcome<QueryResult>

  /** The parameter guard as written: `!typeof params == 'object'`. */
  predicate ParamsGuardFires(params: JsValue)
  {
    LooseEqualsBoolString(!Truthy(Str(TypeOf(params))), "object")
  }

  /** The parameter guard never throws: `typeof` always yields a non-empty
      string, so its negation is `false`, and `false` is loosely equal only
      to strings that convert to 0, which "object" does not. */
  lemma ParamsGuardNeverFires(params: JsValue)
    ensures !ParamsGuardFires(params)
  {
    assert !IsDigit("object"[0]);
  }

  /** `query(sqlString, params, con)`. The default `con = connection.pool`
      is evaluated on entry, so a missing pool throws before anything else;
      then a non-string SQL text throws before the driver is reached;
      otherwise the driver's rows or error come back unchanged (`fields` is
      dropped). */
  function Query(args: Arguments, registered: Option<Handle>, driver: Driver): (r: Outcome<QueryResult>)
    ensures args.con.None? && registered.None? ==> r == Err(NoPoolSetUp)
    ensures args.con.Some? && !args.sql.Str? ==> r == Err(SqlNotString)
    ensures args.con.Some? && args.sql.Str? ==> r == driver(args.con.value)
    ensures args.con.None? && registered.Some? && !args.sql.Str? ==> r == Err(SqlNotString)
    ensures args.con.None? && registered.Some? && args.sql.Str? ==> r == driver(registered.value)
  {
    var target := if args.con.Some? then Ok(args.con.value) else PoolOf(registered);
    ParamsGuardNeverFires(args.params);
    if target.Err? then Err(target.error)
    else if TypeOf(args.sql) != "string" then Err(SqlNotString)
    else if ParamsGuardFires(args.params) then Err(ParamsNotArray)
    else driver(target.value)
  }

  /** `all`: the result of `query`, not augmented. */
  function All(args: Arguments, registered: Option<Handle>, driver: Driver): (r: Outcome<QueryResult>)
    ensures var q := Query(args, registered, driver);
      && (r.Ok? <==> q.Ok?)
      && (r.Ok? ==> r.value.rows == q.value.rows && r.value.insertId == q.value.insertId)
      && (r.Err? ==> r.error == q.error)
  {
    Query(args, registered, driver)
  }

  /** `single`: the one row of a one-row result; zero rows and several rows
      both throw the same error. */
  function Single(args: Arguments, registered: Option<Handle>, driver: Driver): (r: Outcome<Row>)
    ensures var q := Query(args, registered, driver);
      && (q.Err? ==> r == Err(q.error))
      && (q.Ok? ==> (r.Ok? <==> |q.value.rows| == 1))
      && (r.Ok? ==> q.Ok? && |q.value.rows| == 1 && r.value == q.value.rows[0])
      && (q.Ok? && |q.value.rows| != 1 ==> r == Err(WrongRowCount))
  {
    var q := Query(args, registered, driver);
    if q.Err? then Err(q.error)
    else if |q.value.rows| == 1 then Ok(q.value.rows[0])
    else Err(WrongRowCount)
  }

  /** `any`: whether the result has at least one row. */
  function Any(args: Arguments, registered: Option<Handle>, driver: Driver): (r: Outcome<bool>)
    ensures var q := Query(args, registered, driver);
      && (q.Err? ==> r == Err(q.error))
      && (q.Ok? ==> r == Ok(|q.value.rows| > 0))
  {
    var q := Query(args, registered, driver);
    if q.Err? then Err(q.error) else Ok(|q.value.rows| > 0)
  }

  /** `first`: row 0, or null for an empty result; an empty result is never
      an error. Rows are objects and so always truthy, which makes
      `e[0] || null` exactly "row 0 if there is one". */
  function First(args: Arguments, registered: Option<Handle>, driver: Driver): (r: Outcome<Option<Row>>)
    ensures var q := Query(args, registered, driver);
      && (q.Err? ==> r == Err(q.error))
      && (q.Ok? ==> r.Ok?)
      && (r.Ok? ==> q.Ok? && (r.value.None? <==> q.value.rows == []))
      && (r.Ok? && r.value.Some? ==> r.value.value == q.value.rows[0])
  {
    var q := Query(args, registered, driver);
    if q.Err? then Err(q.error)
    else if |q.value.rows| > 0 then Ok(Some(q.value.rows[0]))
    else Ok(None)
  }

  /** `insert`: the result's `insertId` property, read without checking it
      is there (a missing one comes back as `undefined`, here `None`). */
  function Insert(args: Arguments, registered: Option<Handle>, driver: Driver): (r: Outcome<Option<int>>)
    ensures var q := Query(args, registered, driver);
      && (q.Err? ==> r == Err(q.error))
      && (q.Ok? ==> r == Ok(q.value.insertId))
  {
    var q := Query(args, registered, driver);
    if q.Err? then Err(q.error) else Ok(q.value.insertId)
  }

  /** `any` is true exactly when `all` resolves with a non-empty sequence,
      for the same statement. */
  lemma AnyIffAllNonEmpty(args: Arguments, registered: Option<Handle>, driver: Driver)
    ensures Any(args, registered, driver) == Ok(true) <==>
      All(args, registered, driver).Ok? && |All(args, registered, driver).value.rows| > 0
    ensures Any(args, registered, driver) == Ok(false) <==>
      All(args, registered, driver).Ok? && All(args, registered, driver).value.rows == []
  {
  }

  /** Where `single` succeeds, `first` yields the same row. */
  lemma FirstAgreesWithSingle(args: Arguments, registered: Option<Handle>, driver: Driver)
    requires Single(args, registered, driver).Ok?
    ensures First(args, registered, driver) == Ok(Some(Single(args, registered, driver).value))
  {
  }

  /** A failing `query` makes every helper fail with the same error. */
  lemma HelpersPassOnQueryErrors(args: Arguments, registered: Option<Handle>, driver: Driver)
    requires Query(args, registered, driver).Err?
    ensures var e := Query(args, registered, driver).error;
      All(args, registered, driver) == Err(e) &&
      Single(args, registered, driver) == Err(e) &&
      Any(args, registered, driver) == Err(e) &&
      First(args, registered, driver) == Err(e) &&
      Insert(args, registered, driver) == Err(e)
  {
  }

  /** With no connection given and no pool registered, every helper throws
      the pool getter's error, whatever the SQL text. */
  lemma HelpersNeedARegisteredPool(args: Arguments, driver: Driver)
    requires args.con.None?
    ensures Query(args, None, driver) == Err(NoPoolSetUp)
    ensures All(args, None, driver) == Err(NoPoolSetUp)
    ensures Single(args, None, driver) == Err(NoPoolSetUp)
    ensures Any(args, None, driver) == Err(NoPoolSetUp)
    ensures First(args, None, driver) == Err(NoPoolSetUp)
    ensures Insert(args, None, driver) == Err(NoPoolSetUp)
  {
  }

  /** A non-string SQL text is refused before the driver is reached: the
      outcome is the same whatever the driver would have answered. */
  lemma SqlCheckedBeforeDriver(args: Arguments, registered: Option<Handle>, d1: Driver, d2: Driver)
    requires !args.sql.Str?
    ensures Query(args, registered, d1) == Query(args, registered, d2)
    ensures Query(args, registered, d1).Err?
  {
  }

  /** Zero rows and two or more rows make `single` throw one and the same
      error, whose message speaks of "more than one result" in both cases. */
  lemma SingleMessageForAnyWrongCount(args: Arguments, registered: Option<Handle>, driver: Driver)
    requires Query(args, registered, driver).Ok?
    requires |Query(args, registered, driver).value.rows| != 1
    ensures Single(args, registered, driver).Err?
    ensures Message(Single(args, registered, driver).error) == "Query returned more than one result"
  {
  }

  // ---------------------------------------------------------------------
  // Transaction coordinator
  // ---------------------------------------------------------------------

  /** The calls made on a borrowed connection, in order. `Work` marks the
      unit of work being invoked with the connection. */
  datatype Call = Begin | Work | Commit | Rollback | Release

  /** A connection borrowed from the pool, with the record of the calls made
      on it. */
  class Connection {
    const handle: Handle
    var calls: seq<Call>

    constructor (handle: Handle)
      ensures this.handle == handle && calls == []
    {
      this.handle := handle;
      calls := [];
    }

    /** `beginTransaction()`, answering with the driver's `outcome`. */
    method BeginTransaction(outcome: Outcome<()>) returns (r: Outcome<()>)
      modifies this
      ensures calls == old(calls) + [Begin] && r == outcome
    {
      calls := calls + [Begin];
      r := outcome;
    }

    /** `commit()`, answering with the driver's `outcome`. */
    method CommitTransaction(outcome: Outcome<()>) returns (r: Outcome<()>)
      modifies this
      ensures calls == old(calls) + [Commit] && r == outcome
    {
      calls := calls + [Commit];
      r := outcome;
    }

    /** `rollback()`, answering with the driver's `outcome`. */
    method RollbackTransaction(outcome: Outcome<()>) returns (r: Outcome<()>)
      modifies this
      ensures calls == old(calls) + [Rollback] && r == outcome
    {
      calls := calls + [Rollback];
      r := outcome;
    }

    /** `release()`: hands the connection back to the pool. */
    method ReleaseToPool()
      modifies this
      ensures calls == old(calls) + [Release]
    {
      calls := calls + [Release];
    }
  }

  /** `func(con)`: the unit of work receives the connection and produces
      `outcome`. */
  method InvokeWork<T>(con: Connection, outcome: Outcome<T>) returns (r: Outcome<T>)
    modifies con
    ensures con.calls == old(con.calls) + [Work] && r == outcome
  {
    con.calls := con.calls + [Work];
    r := outcome;
  }

  /** What the driver and the unit of work do at each step once a
      connection is borrowed. */
  datatype Steps<T> = Steps(begin: Outcome<()>, work: Outcome<T>, commit: Outcome<()>, rollback: Outcome<()>)

  /** How a transaction ends: what the caller gets, and the calls made on
      the borrowed connection (none when nothing was borrowed). */
  datatype Finish<T> = Finish(result: Outcome<T>, calls: seq<Call>)

  /** The protocol on a borrowed connection, path by path. */
  function Protocol<T>(s: Steps<T>): Finish<T>
  {
    if s.begin.Err? then
      Finish(Err(s.begin.error), [Begin, Release])
    else if s.work.Ok? && s.commit.Ok? then
      Finish(Ok(s.work.value), [Begin, Work, Commit, Release])
    else
      var attempted := if s.work.Ok? then [Begin, Work, Commit] else [Begin, Work];
      var original := if s.work.Err? then s.work.error else s.commit.error;
      var raised := if s.rollback.Err? then s.rollback.error else original;
      Finish(Err(raised), attempted + [Rollback, Release])
  }

  /** Whether a connection is borrowed at all: the unit of work must be a
      function, a pool must be registered and `getConnection` must
      succeed. */
  predicate Borrows(func: JsValue, registered: Option<Handle>, acquire: Outcome<Connection>)
  {
    TypeOf(func) == "function" && registered.Some? && acquire.Ok?
  }

  /** `inTransacation(func)` as a whole, where `acquire` is what
      `getConnection` yields. */
  function Transaction<T>(func: JsValue, registered: Option<Handle>, acquire: Outcome<Connection>, s: Steps<T>): Finish<T>
  {
    if TypeOf(func) != "function" then Finish(Err(NotAFunction), [])
    else if PoolOf(registered).Err? then Finish(Err(PoolOf(registered).error), [])
    else if acquire.Err? then Finish(Err(acquire.error), [])
    else Protocol(s)
  }

  function Borrowed(acquire: Outcome<Connection>): set<object>
  {
    if acquire.Ok? then {acquire.value} else {}
  }

  /** `inTransacation(func)`: check the unit of work, borrow a connection,
      begin, run the work, commit, or on a failure of the work or of the
      commit roll back and rethrow; release in a `finally`. `acquire` is
      what `getConnection` yields and `steps` what the driver and the work
      do. */
  method InTransacation<T>(func: JsValue, provider: Provider, acquire: Outcome<Connection>, steps: Steps<T>)
    returns (r: Outcome<T>)
    modifies Borrowed(acquire)
    ensures r == Transaction(func, provider.pool, acquire, steps).result
    ensures acquire.Ok? ==>
      acquire.value.calls == old(acquire.value.calls) + Transaction(func, provider.pool, acquire, steps).calls
  {
    if TypeOf(func) != "function" {
      return Err(NotAFunction);
    }
    var pool := provider.GetPool();
    if pool.Err? {
      return Err(pool.error);
    }
    if acquire.Err? {
      return Err(acquire.error);
    }
    var con := acquire.value;
    // From here on, every path ends by releasing the connection.
    var begun := con.BeginTransaction(steps.begin);
    if begun.Err? {
      r := Err(begun.error);
    } else {
      // The unit of work, then the commit.
      var outcome := InvokeWork(con, steps.work);
      if outcome.Ok? {
        var committed := con.CommitTransaction(steps.commit);
        if committed.Err? {
          outcome := Err(committed.error);
        }
      }
      // A failed work or commit: roll back, then rethrow (the rollback's
      // error instead, if the rollback fails).
      if outcome.Err? {
        var rolledBack := con.RollbackTransaction(steps.rollback);
        if rolledBack.Err? {
          outcome := Err(rolledBack.error);
        }
      }
      r := outcome;
    }
    // On every path: release, as in a `finally`.
    con.ReleaseToPool();
  }

  /** A unit of work that is not a function is refused before any
      connection is borrowed: no begin, commit, rollback or release. */
  lemma NotAFunctionTouchesNothing<T>(func: JsValue, registered: Option<Handle>, acquire: Outcome<Connection>, s: Steps<T>)
    requires !func.Function?
    ensures Transaction(func, registered, acquire, s) == Finish(Err(NotAFunction), [])
  {
  }

  /** Once a connection is borrowed it is released exactly once, as the
      last call, on every path; without a borrow nothing is called. */
  lemma ReleasedExactlyOnce<T>(func: JsValue, registered: Option<Handle>, acquire: Outcome<Connection>, s: Steps<T>)
    ensures var calls := Transaction(func, registered, acquire, s).calls;
      if Borrows(func, registered, acquire)
      then multiset(calls)[Release] == 1 && calls[|calls| - 1] == Release
      else calls == []
  {
  }

  /** If `beginTransaction` fails, the unit of work, commit and rollback
      are never invoked; the connection is released and the begin error
      reaches the caller. */
  lemma BeginFailureSkipsWork<T>(func: JsValue, registered: Option<Handle>, acquire: Outcome<Connection>, s: Steps<T>)
    requires Borrows(func, registered, acquire) && s.begin.Err?
    ensures Transaction(func, registered, acquire, s) == Finish(Err(s.begin.error), [Begin, Release])
  {
  }

  /** The caller gets a value exactly when begin, the work and the commit
      all succeed; the value is the work's, and it is returned only after a
      commit and with no rollback. */
  lemma ValueOnlyAfterCommit<T>(func: JsValue, registered: Option<Handle>, acquire: Outcome<Connection>, s: Steps<T>)
    ensures Transaction(func, registered, acquire, s).result.Ok? <==>
      Borrows(func, registered, acquire) && s.begin.Ok? && s.work.Ok? && s.commit.Ok?
    ensures Transaction(func, registered, acquire, s).result.Ok? ==>
      Transaction(func, registered, acquire, s).result.value == s.work.value &&
      Commit in Transaction(func, registered, acquire, s).calls &&
      Rollback !in Transaction(func, registered, acquire, s).calls
  {
  }

  /** When the work or the commit fails, rollback is attempted; the caller
      sees the original error, unless the rollback fails too, in which case
      it sees the rollback's error. */
  lemma ErrorAfterFailedWorkOrCommit<T>(func: JsValue, registered: Option<Handle>, acquire: Outcome<Connection>, s: Steps<T>)
    requires Borrows(func, registered, acquire) && s.begin.Ok?
    requires s.work.Err? || s.commit.Err?
    ensures Rollback in Transaction(func, registered, acquire, s).calls
    ensures s.rollback.Err? ==> Transaction(func, registered, acquire, s).result == Err(s.rollback.error)
    ensures s.rollback.Ok? && s.work.Err? ==> Transaction(func, registered, acquire, s).result == Err(s.work.error)
    ensures s.rollback.Ok? && s.work.Ok? ==> Transaction(func, registered, acquire, s).result == Err(s.commit.error)
  {
  }

  /** A failed work is never committed. */
  lemma FailedWorkNotCommitted<T>(func: JsValue, registered: Option<Handle>, acquire: Outcome<Connection>, s: Steps<T>)
    requires s.work.Err?
    ensures Commit !in Transaction(func, registered, acquire, s).calls
  {
  }

  /** A failing commit is followed by a rollback, so both are attempted on
      the same connection: commit and rollback are not exclusive. */
  lemma CommitFailureAlsoRollsBack<T>(func: JsValue, registered: Option<Handle>, acquire: Outcome<Connection>, s: Steps<T>)
    requires Borrows(func, registered, acquire)
    requires s.begin.Ok? && s.work.Ok? && s.commit.Err?
    ensures Transaction(func, registered, acquire, s).calls == [Begin, Work, Commit, Rollback, Release]
  {
  }

  /** A statement the unit of work runs with the borrowed connection goes to
      that connection, whether or not a pool is registered: passing the
      connection is how a statement joins the transaction. */
  lemma NestedQueriesUseTheConnection(con: Connection, sql: string, params: JsValue, registered: Option<Handle>, driver: Driver)
    ensures Query(Arguments(Str(sql), params, Some(con.handle)), registered, driver) == driver(con.handle)
  {
  }

  /** One call of `inTransacation` in a sequence of them against one
      registered pool. */
  datatype TxAttempt<T> = TxAttempt(func: JsValue, acquire: Outcome<Connection>, steps: Steps<T>)

  /** How many of the calls borrowed a connection. */
  function BorrowCount<T>(registered: Option<Handle>, attempts: seq<TxAttempt<T>>): nat
    decreases |attempts|
  {
    if attempts == [] then 0
    else
      (if Borrows(attempts[0].func, registered, attempts[0].acquire) then 1 else 0) +
      BorrowCount(registered, attempts[1..])
  }

  /** All connection calls made by the sequence, in order. */
  function AllCalls<T>(registered: Option<Handle>, attempts: seq<TxAttempt<T>>): seq<Call>
    decreases |attempts|
  {
    if attempts == [] then []
    else
      Transaction(attempts[0].func, registered, attempts[0].acquire, attempts[0].steps).calls +
      AllCalls(registered, attempts[1..])
  }

  /** Per transaction: one begin and one release when a connection is
      borrowed, none otherwise. */
  lemma BeginAndReleaseCounts<T>(func: JsValue, registered: Option<Handle>, acquire: Outcome<Connection>, s: Steps<T>)
    ensures var calls := Transaction(func, registered, acquire, s).calls;
      multiset(calls)[Release] == multiset(calls)[Begin] == (if Borrows(func, registered, acquire) then 1 else 0)
  {
    ReleasedExactlyOnce(func, registered, acquire, s);
  }

  /** No connection leaks: after any number of sequential transactions,
      successful or not, exactly as many releases have happened as
      connections were borrowed, and as many transactions were begun. */
  lemma {:induction false} NoConnectionLeaks<T>(registered: Option<Handle>, attempts: seq<TxAttempt<T>>)
    ensures multiset(AllCalls(registered, attempts))[Release] == BorrowCount(registered, attempts)
    ensures multiset(AllCalls(registered, attempts))[Begin] == BorrowCount(registered, attempts)
    decreases |attempts|
  {
    if attempts != [] {
      var a := attempts[0];
      var head := Transaction(a.func, registered, a.acquire, a.steps).calls;
      var tail := AllCalls(registered, attempts[1..]);
      BeginAndReleaseCounts(a.func, registered, a.acquire, a.steps);
      NoConnectionLeaks(registered, attempts[1..]);
      assert AllCalls(registered, attempts) == head + tail;
      assert multiset(head + tail) == multiset(head) + multiset(tail);
    }
  }
}
