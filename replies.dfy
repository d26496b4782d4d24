/**
 * What a dashboard view answers: a status code and a JSON body
 * (`JsonResponse`), and the outcome of validating a request body.
 */
module Replies {
  import opened Prelude
  import opened Json

  /** An HTTP request as the views see it: its method and its body; `body` is None when it is not valid JSON. */
  datatype Request = Request(verb: string, body: Option<Json>)

  /** A `JsonResponse`. */
  datatype Reply = Reply(status: nat, body: Json)

  /** `_json_error`: `{"error": message}` with the given status. */
  function Error(message: string, status: nat): Reply {
    Reply(status, JObj(map["error" := JStr(message)]))
  }

  /** An exception the view does not catch: Django answers 500 with its own error page. */
  const Crash: Reply := Reply(500, JNull)

  /** A request body that passed validation, or the reply that refuses it. */
  datatype Checked<T> = Accepted(value: T) | Refused(reply: Reply)

  /** The error text of a view's 405 answer. */
  const NotAllowed: string := "Method not allowed"
}
