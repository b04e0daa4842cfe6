/**
 * Values shared by the two cart panels: JavaScript's optional values, the
 * settlement of a server call, user-facing toasts and the messages carried on
 * the cart message channel.
 */
module Common {

  /** A value that may be `undefined` or `null` in the source. */
  datatype Option<+T> = None | Some(value: T) {

    /** The value, or `default` when absent: JavaScript's `x ?? default`. */
    function GetOr(default: T): (r: T)
      ensures Some? ==> r == value
      ensures None? ==> r == default
    {
      match this
      case Some(v) => v
      case None => default
    }
  }

  /** The `body` of the error a rejected server call carries; its `message` may be missing. */
  datatype ErrorBody = ErrorBody(message: Option<string>)

  /**
   * How a server call settles: resolved with its return value, or rejected
   * with an error whose `body` may itself be missing.
   */
  datatype Outcome<+T> = Resolved(value: T) | Rejected(body: Option<ErrorBody>)

  /** The `variant` of a toast. */
  datatype Variant = Info | Success | Warning | Error

  /** One toast shown to the user: title, message (possibly `undefined`) and variant. */
  datatype Toast = Toast(title: string, message: Option<string>, variant: Variant)

  /** A message on the cart message channel: `{accountId}` or `{accountId, status}`. */
  datatype Notification = Notification(accountId: string, status: Option<string>)

  /** The status the cart panel publishes after an order is submitted. */
  const Submitted: string := "submitted"
}
