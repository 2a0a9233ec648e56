/** Failure-carrying values shared by every module of the model.

    A JavaScript `throw` becomes a `Thrown` value: either an `Error` object with its
    `message`, or some other thrown value.  Every `catch (error)` in the source reads
    `error instanceof Error ? error.message : <fallback>`, which is `MessageOr`.
 */
module Outcomes {

  datatype Option<+T> = None | Some(value: T)

  /** What a `throw` carries. */
  datatype Thrown = Error(message: string) | NonError

  /** The settled value of a promise that resolves with a `T` or rejects. */
  datatype Result<+T> = Ok(value: T) | Err(thrown: Thrown)

  /** The settled value of a `Promise<void>`. */
  datatype Outcome = Pass | Fail(thrown: Thrown)

  /** The status text a `catch` block shows for `thrown`. */
  function MessageOr(thrown: Thrown, fallback: string): (m: string)
    ensures thrown.Error? ==> m == thrown.message
    ensures thrown.NonError? ==> m == fallback
  {
    match thrown
    case Error(message) => message
    case NonError => fallback
  }

  /** JavaScript truthiness of a `string | null` value: null and "" are falsy. */
  predicate Truthy(s: Option<string>) {
    s.Some? && s.value != ""
  }
}
