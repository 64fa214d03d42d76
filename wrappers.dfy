/** Nullable values and the throw-or-return outcome of a .NET call. */
module Wrappers {

  /** A value that may be a null reference: `None` stands for null. */
  datatype Option<+T> = None | Some(value: T)

  /** The .NET exception types the core throws, catches or rethrows. */
  datatype ExceptionKind =
    | ArgumentNull          // System.ArgumentNullException
    | Argument              // System.ArgumentException
    | ArgumentOutOfRange    // System.ArgumentOutOfRangeException
    | IndexOutOfRange       // System.IndexOutOfRangeException
    | InvalidOperation      // System.InvalidOperationException (also what LINQ First throws)
    | NullReference         // System.NullReferenceException
    | ObjectDisposed        // System.ObjectDisposedException
    | NotImplemented        // System.NotImplementedException
    | NotSupported          // System.NotSupportedException
    | Aggregate             // System.AggregateException
    | Foreign(name: string) // anything a driver, a JSON decoder or application code throws

  /**
   * An exception object. `message` holds what the core passes to the
   * exception's constructor (a parameter name, a type name), or the
   * message of a foreign exception.
   */
  datatype Exception = Exception(kind: ExceptionKind, message: string)

  /** What a call does: it returns a value, or it throws. */
  datatype Outcome<+T> = Return(value: T) | Throw(exception: Exception)

  /** What dereferencing a null reference throws. */
  const NullDereference: Exception :=
    Exception(NullReference, "Object reference not set to an instance of an object.")

  /** The unit value, for calls that return `void`. */
  datatype Unit = Unit
}
