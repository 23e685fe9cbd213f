/** The process-wide registration point: a `config` slot and a `pool` slot,
    written by `setConfig` and read by two getters. */
module ConnectionProvider {
  import opened Outcomes
  import opened JsValues

  /** The two module-level slots. `pool` holds what `createPool` returned,
      which is always an object, so "set" and "truthy" coincide for it. */
  datatype Slots = Slots(config: JsValue, pool: Option<Handle>)

  /** Both slots start out null. */
  const Initial := Slots(Null, None)

  /** The `pool` getter on the value of the pool slot. */
  function PoolOf(pool: Option<Handle>): (r: Outcome<Handle>)
    ensures r.Ok? <==> pool.Some?
    ensures r.Ok? ==> r.value == pool.value
    ensures r.Err? ==> r.error == NoPoolSetUp
  {
    if pool.Some? then Ok(pool.value) else Err(NoPoolSetUp)
  }

  /** The `config` getter on the value of the config slot: it tests
      truthiness, so a stored falsy config reads as missing. */
  function ConfigOf(config: JsValue): (r: Outcome<JsValue>)
    ensures r.Ok? <==> Truthy(config)
    ensures r.Ok? ==> r.value == config
    ensures r.Err? ==> r.error == NoConfigDefined
  {
    if Truthy(config) then Ok(config) else Err(NoConfigDefined)
  }

  /** `setConfig(config)` on slot values, where `created` is what
      `createPool(config)` returns or throws. The guard tests the pool slot;
      the config slot is written before `createPool` runs. */
  function SetConfigStep(s: Slots, config: JsValue, created: Outcome<Handle>): (Slots, Outcome<()>)
  {
    if s.pool.Some? then (s, Err(ConfigAlreadySet))
    else if created.Err? then (Slots(config, s.pool), Err(created.error))
    else (Slots(config, Some(created.value)), Ok(()))
  }

  /** One call of `setConfig`: its argument and what `createPool` does. */
  datatype Attempt = Attempt(config: JsValue, created: Outcome<Handle>)

  /** A sequence of `setConfig` calls, one after another: the final slots
      and what each call returned. */
  function Replay(s: Slots, attempts: seq<Attempt>): (Slots, seq<Outcome<()>>)
    decreases |attempts|
  {
    if attempts == [] then (s, [])
    else
      var first := SetConfigStep(s, attempts[0].config, attempts[0].created);
      var rest := Replay(first.0, attempts[1..]);
      (rest.0, [first.1] + rest.1)
  }

  /** A `setConfig` made while a pool is set throws and changes neither slot
      (and does not reach `createPool`: the outcome does not depend on it). */
  lemma RejectedWhilePoolSet(s: Slots, config: JsValue, created: Outcome<Handle>, other: Outcome<Handle>)
    requires s.pool.Some?
    ensures SetConfigStep(s, config, created) == (s, Err(ConfigAlreadySet))
    ensures SetConfigStep(s, config, created) == SetConfigStep(s, config, other)
  {
  }

  /** After an accepted `setConfig(c)` whose `createPool` succeeds, the pool
      getter returns the created pool and the config getter returns `c`
      (or throws when `c` is falsy). */
  lemma GettersAfterSetConfig(s: Slots, c: JsValue, pool: Handle)
    requires s.pool.None?
    ensures SetConfigStep(s, c, Ok(pool)).1 == Ok(())
    ensures PoolOf(SetConfigStep(s, c, Ok(pool)).0.pool) == Ok(pool)
    ensures ConfigOf(SetConfigStep(s, c, Ok(pool)).0.config) == (if Truthy(c) then Ok(c) else Err(NoConfigDefined))
  {
  }

  /** When `createPool` throws, its error propagates, the config is already
      recorded, the pool slot stays empty, and a later `setConfig` is
      accepted because the guard looks only at the pool. */
  lemma RetryAfterCreatePoolFails(s: Slots, c: JsValue, e: Error, c2: JsValue, pool: Handle)
    requires s.pool.None?
    ensures SetConfigStep(s, c, Err(e)) == (Slots(c, None), Err(e))
    ensures PoolOf(SetConfigStep(s, c, Err(e)).0.pool) == Err(NoPoolSetUp)
    ensures SetConfigStep(SetConfigStep(s, c, Err(e)).0, c2, Ok(pool)) == (Slots(c2, Some(pool)), Ok(()))
  {
  }

  /** Set-once: while a pool is set, any sequence of further `setConfig`
      calls throws on every call and leaves both slots as they were. */
  lemma {:induction false} SetOnce(s: Slots, attempts: seq<Attempt>)
    requires s.pool.Some?
    ensures Replay(s, attempts).0 == s
    ensures |Replay(s, attempts).1| == |attempts|
    ensures forall i :: 0 <= i < |attempts| ==> Replay(s, attempts).1[i] == Err(ConfigAlreadySet)
    decreases |attempts|
  {
    if attempts != [] {
      SetOnce(s, attempts[1..]);
      var rest := Replay(s, attempts[1..]);
      assert Replay(s, attempts).1 == [Err(ConfigAlreadySet)] + rest.1;
    }
  }

  /** From the initial slots, the first successful `setConfig` fixes the
      pool for good: the getter returns it after any later calls. */
  lemma {:induction false} FirstPoolStays(c: JsValue, pool: Handle, later: seq<Attempt>)
    ensures var first := SetConfigStep(Initial, c, Ok(pool));
      first.1 == Ok(()) &&
      PoolOf(Replay(first.0, later).0.pool) == Ok(pool)
  {
    var first := SetConfigStep(Initial, c, Ok(pool));
    SetOnce(first.0, later);
  }

  /** The module's exported class: the slots as fields, `setConfig` and the
      two getters as methods. */
  class Provider {
    var config: JsValue
    var pool: Option<Handle>

    ghost function State(): Slots
      reads this
    {
      Slots(config, pool)
    }

    /** Module load: both slots null. */
    constructor ()
      ensures State() == Initial
    {
      config := Null;
      pool := None;
    }

    /** `setConfig(databaseConfig)`, where `created` is what
        `createPool(databaseConfig)` returns or throws. */
    method SetConfig(databaseConfig: JsValue, created: Outcome<Handle>) returns (r: Outcome<()>)
      modifies this
      ensures (State(), r) == SetConfigStep(old(State()), databaseConfig, created)
      ensures old(pool).Some? ==> r == Err(ConfigAlreadySet) && config == old(config) && pool == old(pool)
      ensures old(pool).None? ==> config == databaseConfig
      ensures old(pool).None? && created.Ok? ==> r == Ok(()) && pool == Some(created.value)
      ensures old(pool).None? && created.Err? ==> r == Err(created.error) && pool == None
    {
      if pool.Some? {
        return Err(ConfigAlreadySet);
      }
      config := databaseConfig;
      if created.Err? {
        return Err(created.error);
      }
      pool := Some(created.value);
      r := Ok(());
    }

    /** The static `pool` getter. */
    method GetPool() returns (r: Outcome<Handle>)
      ensures pool.None? ==> r == Err(NoPoolSetUp)
      ensures pool.Some? ==> r == Ok(pool.value)
    {
      r := PoolOf(pool);
    }

    /** The static `config` getter. */
    method GetConfig() returns (r: Outcome<JsValue>)
      ensures !Truthy(config) ==> r == Err(NoConfigDefined)
      ensures Truthy(config) ==> r == Ok(config)
    {
      r := ConfigOf(config);
    }
  }
}
