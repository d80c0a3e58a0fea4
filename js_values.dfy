/** The few JavaScript values the dispatcher handles: optional strings
    (a channel or event name that may be left out, i.e. `undefined`),
    JavaScript truthiness on them, and string conversion. */
module JsValues {

  datatype Option<+T> = None | Some(value: T)

  /** A channel or event argument: `None` is an omitted (`undefined`) argument. */
  type Part = Option<string>

  /** Identity of a callback function; two callbacks are the same only if
      they are the same function value. */
  type Callback = nat

  /** JavaScript falsiness of an optional string: `undefined` and `""`. */
  predicate Falsy(p: Part) {
    p.None? || p.value == ""
  }

  /** What `p + "..."` prints for `p`: `undefined` prints as "undefined". */
  function Show(p: Part): string
  {
    match p
    case None => "undefined"
    case Some(v) => v
  }
}
