/**
 * What a screen learns from one request to the product catalog service.
 * The request itself (the `fetch` call and the JSON decoding) happens outside
 * the model; its outcome reaches the screens as a value of these types.
 */
module Fetch {

  /** Why a request failed, as the screens' `catch` blocks see it. */
  datatype Failure =
    | NotOk              // the response arrived with a non-2xx status
    | Thrown(message: string)  // an `Error` object was thrown (network, JSON, ...)
    | NonError           // something that is not an `Error` was thrown

  /** The text a screen stores in its `error` field for a failure:
      `err instanceof Error ? err.message : "Something went wrong"`, where
      the non-2xx case throws `new Error(notOkMessage)`. */
  function ErrorMessage(f: Failure, notOkMessage: string): (m: string)
    ensures f.NotOk? ==> m == notOkMessage
    ensures f.Thrown? ==> m == f.message
    ensures f.NonError? ==> m != []
    ensures m == [] ==> (f.NotOk? && notOkMessage == []) || (f.Thrown? && f.message == [])
  {
    match f
    case NotOk => notOkMessage
    case Thrown(message) => message
    case NonError => "Something went wrong"
  }
}
