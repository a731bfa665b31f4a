/**
 * Errors of the tRPC layer and the `tryCatch` convention the services use.
 *
 * Anything a step can throw or reject with is a `Thrown`: either a `TRPCError`
 * raised on purpose, or an arbitrary fault (a driver error, a crypto error, a
 * `TypeError`). `tryCatch(p)` turns the settlement of a promise into a pair
 * `[value, null]` on success and `[null, error]` on a throw or rejection.
 */
module Errors {
  import opened Wrappers

  /** The tRPC error codes the core raises. */
  datatype ErrorCode = InternalServerError | Conflict | Unauthorized | NotFound

  /** `new TRPCError({ code, message, cause })`. */
  datatype TrpcError = TrpcError(code: ErrorCode, message: string, cause: Option<string>)

  /** What a step throws: a deliberate tRPC error, or any other fault. */
  datatype Thrown = Raised(error: TrpcError) | Fault(description: string)

  /** How a step settles: it returns a value or throws. */
  datatype Attempt<+T> = Done(value: T) | Threw(thrown: Thrown)

  /** The `[value, error]` pair `tryCatch` hands back. */
  type Caught<T> = (Option<T>, Option<Thrown>)

  /** `tryCatch`: exactly one half of the pair is set, and it carries the settlement. */
  function TryCatch<T>(a: Attempt<T>): (c: Caught<T>)
    ensures c.1.None? <==> c.0.Some?
    ensures c.0.Some? <==> a.Done?
    ensures a.Done? ==> c.0.value == a.value
    ensures a.Threw? ==> c.1 == Some(a.thrown)
  {
    match a
    case Done(v) => (Some(v), None)
    case Threw(e) => (None, Some(e))
  }

  /** Shorthand for a raised tRPC error with no cause. */
  function Raise(code: ErrorCode, message: string): Thrown {
    Raised(TrpcError(code, message, None))
  }

  /** The code a thrown value carries, if it is a tRPC error. */
  function CodeOf(t: Thrown): Option<ErrorCode> {
    if t.Raised? then Some(t.error.code) else None
  }
}
