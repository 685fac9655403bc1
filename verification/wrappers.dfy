/** Outcome types shared by every module of the model.

    Python reports failures by raising; numpy reports some of them by returning NaN or
    infinity. Both become a `Failure` carrying one of the `Error` kinds below, so that
    every operation of the model is total and its error path is explicit.
 */
module Wrappers {

  datatype Option<+T> = None | Some(value: T)

  /** The kinds of failure the modelled code can produce. */
  datatype Error =
    | KeyError(key: string)    // a dictionary lookup of a missing key
    | ShapeMismatch            // numpy cannot broadcast two arrays together
    | NonFinite                // the numpy result is NaN or infinite (division by a zero sum)
    | EmptySample              // a reduction that numpy refuses on an empty array
    | LevelOutOfRange          // np.quantile with a probability outside [0, 1]
    | MissingArguments         // a Python call that omits required positional arguments
    | UnpackMismatch           // tuple unpacking into the wrong number of names
    | AssertionFailed          // a Python `assert` statement that does not hold
    | InvalidArgument          // a constructor argument the class refuses
    | ZeroDivision             // Python integer modulo by zero
    | NotADict(segment: string) // descending a path through a value that is not a mapping
    | NoAttribute(name: string) // an attribute the object's class does not define

  datatype Result<+T> = Success(value: T) | Failure(error: Error) {

    predicate IsFailure() {
      Failure?
    }

    function PropagateFailure<U>(): Result<U>
      requires Failure?
    {
      Failure(error)
    }

    function Extract(): T
      requires Success?
    {
      value
    }
  }
}
