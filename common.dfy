/** Values shared by the wizard, the enhancement panel and the gallery:
    nullable references, the outcome of a remote call, and the
    JavaScript truthiness tests the handlers guard on. */
module Common {

  /** A nullable value (`T | null` in the application). */
  datatype Option<+T> = None | Some(value: T)

  /** How a remote call settled: the parsed payload, or the message of the
      error it threw. The call itself happens on a remote backend and is
      not part of this model. */
  datatype Outcome<+T> = Success(payload: T) | Failure(message: string)

  /** `!!s` for a nullable string: neither null nor empty. */
  predicate Truthy(s: Option<string>) {
    s.Some? && s.value != ""
  }

  /** `s || fallback` for a string. */
  function OrElse(s: string, fallback: string): (r: string)
    ensures s != "" ==> r == s
    ensures s == "" ==> r == fallback
    ensures fallback != "" ==> r != ""
  {
    if s != "" then s else fallback
  }
}
