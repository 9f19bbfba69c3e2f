/** The success/error wrapper of the core (src/modules/core/domain/result/Result.ts)
    and the optional value used for fields the source may leave undefined. */
module Results {

  /** A value that may be absent (`undefined` or `null` in the source). */
  datatype Option<+T> = None | Some(value: T)

  /** `Result<P, string>`: either a payload or an error description. The error type
      is fixed to `string`, the only one the core uses. The three members make the
      type failure-compatible, so `:-` models a `throw` caught by the nearest
      `catch` that turns it into `Result.error`. */
  datatype Result<+P> = Success(payload: P) | Error(error: string) {

    predicate IsFailure() {
      Error?
    }

    function PropagateFailure<Q>(): (r: Result<Q>)
      requires Error?
      ensures r.Error? && r.error == error
    {
      Error(error)
    }

    function Extract(): P
      requires Success?
    {
      payload
    }
  }
}
