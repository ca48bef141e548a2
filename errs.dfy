/**
 * Go `error` values and the `Prefix` helper of errs/errs.go.
 *
 * An error is either a leaf carrying its own message (an error from the JSON decoder, the
 * scanner or the file system, or one built with `fmt.Errorf` without `%w`) or the value
 * `fmt.Errorf("<prefix>: %w", cause)`, whose message is the prefix, a colon, a space and the
 * cause's message, and which unwraps to the cause.
 */
module Errs {
  import opened Wrappers

  datatype Error = Leaf(text: string) | Wrapped(prefix: string, cause: Error)
  {
    /** What `err.Error()` returns. */
    function Message(): string
    {
      match this
      case Leaf(t) => t
      case Wrapped(p, c) => p + ": " + c.Message()
    }

    /** What `errors.Unwrap(err)` returns. */
    function Unwrap(): Option<Error>
    {
      match this
      case Leaf(_) => None
      case Wrapped(_, c) => Some(c)
    }
  }

  /**
   * Prefix(err, p): nil for a nil error; otherwise a non-nil error whose message is
   * `p + ": " + err.Error()` and which unwraps to err.
   */
  function Prefix(err: Option<Error>, prefix: string): (r: Option<Error>)
    ensures err.None? ==> r.None?
    ensures err.Some? ==> r.Some?
    ensures err.Some? ==> r.value.Message() == prefix + ": " + err.value.Message()
    ensures err.Some? ==> r.value.Unwrap() == err
  {
    if err.None? then None else Some(Wrapped(prefix, err.value))
  }
}
