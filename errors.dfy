/**
 * The error values the event store and its repositories return, and the
 * small wrappers the model uses for Go's `(value, error)` pairs.
 */
module Errors {

  /** One constructor per distinguished Go error value of the core. */
  datatype Error =
    | NotFound                    // "not found": a lookup matched nothing
    | NoHost                      // "no postgres host config"
    | NoPort                      // "no postgres host port config"
    | NoUser                      // "no postgres username"
    | NoPassword                  // "no postgres password"
    | NoDBName                    // "no postgres db name config"
    | NoEventAppended             // "no event was appended"
    | AtoiSyntax(num: string)     // strconv.Atoi: not an optionally signed decimal numeral
    | AtoiRange(num: string)      // strconv.Atoi: numeral outside the 64-bit range
    | NotImplemented              // "message not implemented"
    | Codec(reason: string)       // the payload encoder failed
    | Database(reason: string)    // connecting to or pinging the database failed

  /** A nil-able value: a Go pointer or an `error` that may be nil. */
  datatype Option<+T> = None | Some(value: T)

  /** The answer of an injected call that either yields a value or fails. */
  datatype Result<+T> = Ok(value: T) | Err(error: Error)
}
