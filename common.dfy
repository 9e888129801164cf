/** Small shared vocabulary: optional values, where the browser is sent next,
    and the outcome of a call into the identity provider, which the model takes
    as an input rather than performing. */
module Common {

  datatype Option<+T> = None | Some(value: T) {
    /** The value, or `default` when absent (JavaScript's `x ?? default`). */
    function GetOr(default: T): T {
      match this
      case Some(v) => v
      case None => default
    }
  }

  /** Router effect of a handler: stay, `router.push(route)`, or `router.back()`. */
  datatype Nav = Stay | Push(route: string) | Back

  /** Outcome of an identity-provider call; `Failed` carries the provider's error code. */
  datatype AuthOutcome = Succeeded | Failed(code: string)
}
