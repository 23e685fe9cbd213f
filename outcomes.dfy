/** Values shared by every part of the data-access layer: opaque driver
    handles, the errors the layer raises and the outcome of a step that may
    throw. */
module Outcomes {

  /** An opaque pool or connection object owned by the driver. */
  datatype Handle = Handle(id: nat)

  /** JavaScript's `null`/`undefined` versus a present value. */
  datatype Option<+T> = None | Some(value: T)

  /** Every error the layer throws itself, plus `Foreign` for an error that
      arrives from code outside the model (the driver, `createPool`, a unit
      of work, a pool factory). The identity of a foreign error is kept so
      that "the original error is rethrown" can be stated. */
  datatype Error =
    | SqlNotString      // query: the SQL text is not a string
    | ParamsNotArray    // query: the parameter guard (it can never fire)
    | WrongRowCount     // single: anything other than exactly one row
    | NotAFunction      // inTransacation: the unit of work is not callable
    | ConfigAlreadySet  // connectionProvider.setConfig after a pool exists
    | NoPoolSetUp       // connectionProvider's pool getter with no pool
    | NoConfigDefined   // connectionProvider's config getter with no config
    | PoolAlreadySet    // poolProvider.setPool after a pool exists
    | PoolNotSetUp      // poolProvider.getPool with no pool
    | Foreign(id: nat)

  /** The text each error carries. */
  function Message(e: Error): string
  {
    match e
    case SqlNotString => "sqlString must be a string"
    case ParamsNotArray => "params must be an array"
    case WrongRowCount => "Query returned more than one result"
    case NotAFunction => "func is not a function"
    case ConfigAlreadySet => "A config has already been set"
    case NoPoolSetUp => "No pool as been setup"
    case NoConfigDefined => "No config as been defined"
    case PoolAlreadySet => "A pool has already been set"
    case PoolNotSetUp => "No pool as been setup. Ensure 'await poolProvider.setPool(pool)' is called on startup"
    case Foreign(_) => ""
  }

  /** A step either produces a value or throws (rejects with) an error. */
  datatype Outcome<+T> = Ok(value: T) | Err(error: Error)
}
