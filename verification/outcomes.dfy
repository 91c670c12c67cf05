/** Failure-compatible results for the GPS extraction: a value, or the
    Python exception that the extraction raises instead of returning. */
module Outcomes {

  /** The exceptions `grab_gps` can raise once the EXIF header is parsed. */
  datatype Error =
    | KeyError(key: string)   // `header[key]` on a tag the photo does not carry
    | IndexError              // a tag holding fewer values than the code indexes
    | AttributeError          // a value without `.num` / `.den` (not a rational)
    | ZeroDivisionError       // a rational whose denominator is zero

  datatype Result<+T> = Success(value: T) | Failure(error: Error) {

    predicate IsFailure() {
      Failure?
    }

    function PropagateFailure<U>(): Result<U>
      requires Failure?
    {
      Failure(error)
    }

    function Extract(): T
      requires Success?
    {
      value
    }
  }

  datatype Option<+T> = None | Some(value: T)
}
