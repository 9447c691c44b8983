/** Outcome types shared by every component: the source's exceptions become
    `Failure` values, and a unit of work that rolls back becomes an `Abort`. */
module Common {

  datatype Option<+T> = None | Some(value: T)

  /** The domain exceptions of `errors.py` that callers tell apart. */
  datatype Failure = Authorization | Conflict | NotFound

  /** A transaction either commits a new state with a value, or aborts and leaves the state as it was. */
  datatype Tx<+S, +T> = Commit(state: S, value: T) | Abort(failure: Failure) {
    predicate IsFailure() { Abort? }
    function PropagateFailure<R, U>(): Tx<R, U>
      requires Abort?
    { Abort(failure) }
    function Extract(): (S, T)
      requires Commit?
    { (state, value) }
  }

  /** A lookup inside a transaction. */
  datatype Result<+T> = Ok(value: T) | Err(failure: Failure) {
    predicate IsFailure() { Err? }
    function PropagateFailure<R, U>(): Tx<R, U>
      requires Err?
    { Abort(failure) }
    function Extract(): T
      requires Ok?
    { value }
  }

  /** A guard inside a transaction. */
  datatype Check = Pass | Fail(failure: Failure) {
    predicate IsFailure() { Fail? }
    function PropagateFailure<R, U>(): Tx<R, U>
      requires Fail?
    { Abort(failure) }
  }

  function Need(condition: bool, failure: Failure): Check {
    if condition then Pass else Fail(failure)
  }

  /** What an object holds after running transaction `tx` from `before`: the
      committed state and value, or the unchanged state and the failure. */
  ghost predicate Ran<S(!new), T(!new)>(tx: Tx<S, T>, before: S, after: S, r: Result<T>) {
    match tx
    case Commit(s, v) => after == s && r == Ok(v)
    case Abort(f) => after == before && r == Err(f)
  }

  function Min(a: int, b: int): int { if a <= b then a else b }

  function Max(a: int, b: int): int { if a >= b then a else b }

  function PowerOfTwo(n: nat): nat { if n == 0 then 1 else 2 * PowerOfTwo(n - 1) }
}
