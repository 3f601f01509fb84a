/**
 * Shared values of the storefront: an optional value, the product record the
 * catalog serves, the toast a handler shows, and the abstract outcome of a
 * request to the backend.  The backend itself is not modelled: every handler
 * that waits for it receives the reply as a parameter.
 */
module Common {

  datatype Option<T> = None | Some(value: T) {
    function GetOr(default: T): T {
      match this
      case Some(v) => v
      case None => default
    }
  }

  /** A product as the catalog endpoint returns it (`_id`, `name`, ...); `image.url`,
      `originalPrice` and `variation` may be absent. */
  datatype Product = Product(
    id: string,
    name: string,
    description: string,
    price: int,
    originalPrice: Option<int>,
    imageUrl: Option<string>,
    variation: Option<string>)

  /** A user-visible notification (react-hot-toast), returned instead of shown. */
  datatype Toast = Success(text: string) | Error(text: string)

  /** What a POST/PUT handler can observe: a parsed body with `success` and an
      optional `message`, or a thrown error whose response body may carry a
      `message`. */
  datatype Reply =
    | Answered(success: bool, message: Option<string>)
    | Threw(responseMessage: Option<string>)

  /** The reply's body reports `success: true`; every other reply is a failure. */
  predicate Succeeded(reply: Reply) {
    reply.Answered? && reply.success
  }

  /** JavaScript's `message || fallback`: an absent or empty message is falsy. */
  function MessageOr(message: Option<string>, fallback: string): (r: string)
    ensures message.Some? && message.value != "" ==> r == message.value
    ensures message.None? || message.value == "" ==> r == fallback
  {
    match message
    case Some(m) => if m != "" then m else fallback
    case None => fallback
  }
}
