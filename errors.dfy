/**
 * The exceptions the core raises or catches, by Python class, and the Result of a
 * call that may raise one.  The package's own WeatherParseError
 * (ntuweather/exceptions.py) is a subclass of ValueError; its constructor keeps only
 * the `text` keyword argument, so the field name the providers pass as `arg` is lost.
 */
module Errors {
  import opened Wrappers

  datatype Error =
    | ConnectionError                         // requests could not reach the feed (an IOError)
    | HttpError(status: int)                  // raise_for_status on a 4xx/5xx reply (an IOError)
    | WeatherParseError(text: Option<string>) // a ValueError subclass
    | ValueError                              // int(), float(), strptime, fromisoformat, JSON decoding
    | KeyError(key: string)
    | TypeError                               // float(None), `raise NotImplemented`, indexing a non-dict
    | AttributeError                          // None.isoformat()
    | OverflowError                           // an instant outside datetime's range
    | StorageError                            // the database refused a commit
    | GenericException(message: string)       // a bare `Exception(...)`

  /** `except ValueError:` catches exactly these. */
  predicate IsValueError(e: Error) {
    e.WeatherParseError? || e.ValueError?
  }

  /** `except IOError:` catches exactly these (requests' exceptions derive from IOError). */
  predicate IsIOError(e: Error) {
    e.ConnectionError? || e.HttpError?
  }

  /** The outcome of a Python call: a value, or the exception it raised. */
  datatype Result<+T> = Success(value: T) | Failure(error: Error) {
    predicate IsFailure() { Failure? }

    function PropagateFailure<U>(): Result<U>
      requires Failure?
    {
      Failure(error)
    }

    function Extract(): T
      requires Success?
    {
      value
    }
  }

  /** The outcome of a Python block that returns nothing. */
  datatype Outcome = Pass | Fail(error: Error)
}
