/**
 * The success/errors/exception envelope returned by every store and manager
 * operation (`WarehouseResult`, `WarehouseResult<TValue>`), and the "unwrap"
 * convention the managers apply to it.
 */
module WarehouseResults {
  import opened Wrappers

  /** A (code, description) pair reported by a validator or synthesised from an exception. */
  datatype WarehouseError = WarehouseError(code: string, description: string)

  /**
   * `Errors == None` is a null error sequence, `exception == None` a null
   * exception.
   */
  datatype WarehouseResult = WarehouseResult(
    succeeded: bool,
    errors: Option<seq<WarehouseError>>,
    exception: Option<Exception>)

  /** `WarehouseResult<TValue>`: the base envelope plus a value (`None` for null / default). */
  datatype ValueResult<+T> = ValueResult(result: WarehouseResult, value: Option<T>)

  /**
   * The envelope invariant every public constructor establishes: a success
   * carries neither errors nor an exception; a failure carries an error
   * sequence; a captured exception comes with exactly one error quoting its
   * message.
   */
  predicate WellFormed(r: WarehouseResult) {
    && (r.succeeded ==> r.errors.None? && r.exception.None?)
    && (!r.succeeded ==> r.errors.Some?)
    && (r.exception.Some? ==>
          !r.succeeded && r.errors == Some([WarehouseError("", r.exception.value.message)]))
  }

  /** The internal `WarehouseResult(bool)` constructor: only the flag is set. */
  function FromFlag(succeeded: bool): (r: WarehouseResult)
    ensures r.succeeded == succeeded && r.errors.None? && r.exception.None?
    ensures succeeded ==> WellFormed(r)
  {
    WarehouseResult(succeeded, None, None)
  }

  /**
   * `WarehouseResult.Success`. The source hands out one shared instance; as a
   * value, every use of `Success()` is the same value.
   */
  function Success(): (r: WarehouseResult)
    ensures r.succeeded && WellFormed(r)
  {
    FromFlag(true)
  }

  /** `WarehouseResult.Failed(params WarehouseError[] errors)`: the array is stored as given. */
  function Failed(errors: seq<WarehouseError>): (r: WarehouseResult)
    ensures !r.succeeded && r.errors == Some(errors) && r.exception.None?
    ensures WellFormed(r)
  {
    var base := FromFlag(false);
    base.(errors := Some(errors))
  }

  /**
   * `WarehouseResult.Failed(Exception)` / `new WarehouseResult(exception)`:
   * one error with an empty code and the exception's message, and the
   * exception itself.
   */
  function FailedWith(e: Exception): (r: WarehouseResult)
    ensures !r.succeeded && r.exception == Some(e)
    ensures r.errors.Some? && |r.errors.value| == 1
    ensures r.errors.value[0].code == "" && r.errors.value[0].description == e.message
    ensures WellFormed(r)
  {
    var base := FromFlag(false);
    base.(errors := Some([WarehouseError("", e.message)]), exception := Some(e))
  }

  /** `new WarehouseResult<TValue>(value)`: a success carrying the value, also when it is null. */
  function WithValue<T>(value: Option<T>): (r: ValueResult<T>)
    ensures r.result.succeeded && WellFormed(r.result) && r.value == value
  {
    ValueResult(FromFlag(true), value)
  }

  /** `new WarehouseResult<TValue>(exception)`: the failure shape of `FailedWith`, no value. */
  function WithException<T>(e: Exception): (r: ValueResult<T>)
    ensures r.result == FailedWith(e) && r.value.None?
  {
    ValueResult(FailedWith(e), None)
  }

  /**
   * The managers' unwrap convention: the value of a success, a rethrow of a
   * captured exception, otherwise null.
   */
  function Unwrap<T>(r: ValueResult<T>): Outcome<Option<T>> {
    if r.result.succeeded then Return(r.value)
    else if r.result.exception.Some? then Throw(r.result.exception.value)
    else Return(None)
  }

  /** A store call that either throws or returns an envelope, unwrapped by a manager. */
  function UnwrapReply<T>(reply: Outcome<ValueResult<T>>): Outcome<Option<T>> {
    match reply
    case Throw(e) => Throw(e)
    case Return(r) => Unwrap(r)
  }

  /**
   * Unwrapping is a left inverse of the two value constructors: a success
   * gives back its value, a captured exception is rethrown, and a well-formed
   * failure without an exception reads as "not found".
   */
  lemma UnwrapInvertsConstructors<T>(v: Option<T>, e: Exception, errors: seq<WarehouseError>)
    ensures Unwrap(WithValue(v)) == Return(v)
    ensures Unwrap(WithException<T>(e)) == Throw(e)
    ensures Unwrap(ValueResult(Failed(errors), Some(v))) == Return(None)
  {
  }

  /**
   * A thrown outcome of `Unwrap` always comes from a failed, well-formed
   * envelope that captured exactly that exception; a returned non-null value
   * always comes from a success.
   */
  lemma UnwrapOutcomes<T>(r: ValueResult<T>)
    requires WellFormed(r.result)
    ensures Unwrap(r).Throw? <==> r.result.exception.Some?
    ensures Unwrap(r).Throw? ==> Some(Unwrap(r).exception) == r.result.exception
    ensures Unwrap(r).Throw? ==> r.result.errors.value[0].description == Unwrap(r).exception.message
    ensures Unwrap(r).Return? && Unwrap(r).value.Some? ==> r.result.succeeded && Unwrap(r).value == r.value
  {
  }
}
