/** Small value types shared by every component of the blog admin model. */
module Base {

  /** An optional value: JavaScript's `undefined`/`null` versus a present value. */
  datatype Option<+T> = None | Some(value: T) {
    /** The value, or `default` when absent (the `??` operator). */
    function GetOr(default: T): T {
      match this
      case Some(v) => v
      case None => default
    }
  }

  /**
   * The outcome a remote call (store, identity provider) reports back: success,
   * or an error object carrying a message. Which one happens is an input of
   * the model, never decided by it.
   */
  datatype Fault = Succeeds | Fails(message: string)

  /** `err.message || fallback`: an error's own message unless it is empty. */
  function MessageOr(message: string, fallback: string): (m: string)
    ensures message != "" ==> m == message
    ensures message == "" ==> m == fallback
  {
    if message != "" then message else fallback
  }
}
