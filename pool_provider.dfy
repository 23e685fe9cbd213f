/** The newer registration point: a single `pool` slot filled once from an
    asynchronous factory, and a getter. */
module PoolProvider {
  import opened Outcomes
  import opened JsValues

  /** The slot's value and, for reasoning only, how many times a factory has
      been invoked. The slot holds whatever the factory resolved with, which
      may be a falsy value; the guards test truthiness. */
  datatype SlotState = SlotState(pool: JsValue, factoryCalls: nat)

  /** The slot starts out null. */
  const Initial := SlotState(Null, 0)

  /** `getPool()` on the value of the slot. */
  function GetPoolOf(pool: JsValue): (r: Outcome<JsValue>)
    ensures r.Ok? <==> Truthy(pool)
    ensures r.Ok? ==> r.value == pool
    ensures r.Err? ==> r.error == PoolNotSetUp
  {
    if Truthy(pool) then Ok(pool) else Err(PoolNotSetUp)
  }

  /** `setPool(func)` on slot values, where `made` is what `await func()`
      yields or throws (calling a non-function throws too). */
  function SetPoolStep(s: SlotState, made: Outcome<JsValue>): (SlotState, Outcome<()>)
  {
    if Truthy(s.pool) then (s, Err(PoolAlreadySet))
    else if made.Err? then (SlotState(s.pool, s.factoryCalls + 1), Err(made.error))
    else (SlotState(made.value, s.factoryCalls + 1), Ok(()))
  }

  /** A sequence of `setPool` calls, one after another, each given what its
      factory produces: the final state and what each call returned. */
  function Replay(s: SlotState, made: seq<Outcome<JsValue>>): (SlotState, seq<Outcome<()>>)
    decreases |made|
  {
    if made == [] then (s, [])
    else
      var first := SetPoolStep(s, made[0]);
      var rest := Replay(first.0, made[1..]);
      (rest.0, [first.1] + rest.1)
  }

  /** `setPool` while a pool is set throws without invoking the factory and
      leaves the slot unchanged; otherwise the factory is invoked exactly
      once. */
  lemma FactoryInvokedOnlyWhenAccepted(s: SlotState, made: Outcome<JsValue>)
    ensures Truthy(s.pool) ==> SetPoolStep(s, made) == (s, Err(PoolAlreadySet))
    ensures !Truthy(s.pool) ==> SetPoolStep(s, made).0.factoryCalls == s.factoryCalls + 1
  {
  }

  /** After a `setPool` whose factory yields a truthy pool, `getPool`
      returns exactly that pool. */
  lemma GetPoolAfterSetPool(s: SlotState, p: JsValue)
    requires !Truthy(s.pool) && Truthy(p)
    ensures SetPoolStep(s, Ok(p)).1 == Ok(())
    ensures GetPoolOf(SetPoolStep(s, Ok(p)).0.pool) == Ok(p)
  {
  }

  /** A factory that throws, or that yields a falsy value, leaves the slot
      empty: `getPool` keeps throwing and a later `setPool` is accepted. */
  lemma RetryAfterFailedFactory(s: SlotState, made: Outcome<JsValue>, p: JsValue)
    requires !Truthy(s.pool)
    requires made.Err? || !Truthy(made.value)
    requires Truthy(p)
    ensures GetPoolOf(SetPoolStep(s, made).0.pool) == Err(PoolNotSetUp)
    ensures SetPoolStep(SetPoolStep(s, made).0, Ok(p)).1 == Ok(())
    ensures GetPoolOf(SetPoolStep(SetPoolStep(s, made).0, Ok(p)).0.pool) == Ok(p)
  {
  }

  /** Set-once: while a pool is set, every further `setPool` throws, no
      factory runs and the stored pool stays the one `getPool` returns. */
  lemma {:induction false} SetOnce(s: SlotState, made: seq<Outcome<JsValue>>)
    requires Truthy(s.pool)
    ensures Replay(s, made).0 == s
    ensures |Replay(s, made).1| == |made|
    ensures forall i :: 0 <= i < |made| ==> Replay(s, made).1[i] == Err(PoolAlreadySet)
    decreases |made|
  {
    if made != [] {
      SetOnce(s, made[1..]);
      var rest := Replay(s, made[1..]);
      assert Replay(s, made).1 == [Err(PoolAlreadySet)] + rest.1;
    }
  }

  /** The module-level `pool` variable and the two exported functions. */
  class Slot {
    var pool: JsValue
    ghost var factoryCalls: nat

    ghost function State(): SlotState
      reads this
    {
      SlotState(pool, factoryCalls)
    }

    /** Module load: the slot is null and no factory has run. */
    constructor ()
      ensures State() == Initial
    {
      pool := Null;
      factoryCalls := 0;
    }

    /** `setPool(func)`, where `made` is what `await func()` yields or
        throws. */
    method SetPool(made: Outcome<JsValue>) returns (r: Outcome<()>)
      modifies this
      ensures (State(), r) == SetPoolStep(old(State()), made)
      ensures Truthy(old(pool)) ==> r == Err(PoolAlreadySet) && pool == old(pool) && factoryCalls == old(factoryCalls)
      ensures !Truthy(old(pool)) ==> factoryCalls == old(factoryCalls) + 1
      ensures !Truthy(old(pool)) && made.Ok? ==> r == Ok(()) && pool == made.value
      ensures !Truthy(old(pool)) && made.Err? ==> r == Err(made.error) && pool == old(pool)
    {
      if Truthy(pool) {
        return Err(PoolAlreadySet);
      }
      factoryCalls := factoryCalls + 1;
      if made.Err? {
        return Err(made.error);
      }
      pool := made.value;
      r := Ok(());
    }

    /** `getPool()`. */
    method GetPool() returns (r: Outcome<JsValue>)
      ensures !Truthy(pool) ==> r == Err(PoolNotSetUp)
      ensures Truthy(pool) ==> r == Ok(pool)
    {
      r := GetPoolOf(pool);
    }
  }
}
