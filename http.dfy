/** The REST layer's responses: a status code and a JSON body. */
module Http {
  import opened Common

  datatype Response = Response(code: nat, body: Json)

  const OK: nat := 200
  const ACCEPTED: nat := 202
  const BAD_REQUEST: nat := 400
  const NOT_FOUND: nat := 404

  /** `Response({'error': message}, status=code)`. */
  function Failure(code: nat, message: string): (r: Response)
    ensures r.code == code && r.body.JObj? && Lookup(r.body.fields, "error") == Some(JStr(message))
  {
    Response(code, JObj([("error", JStr(message))]))
  }

  /** What REST framework answers when `get_object()` finds nothing:
      `{"detail": "Not found."}` with 404, not the views' own error shape. */
  const NotFound: Response := Response(NOT_FOUND, JObj([("detail", JStr("Not found."))]))

  /** A serializer's refusal of one field, `{field: [message]}` with 400. */
  function Invalid(field: string, message: string): (r: Response)
    ensures r.code == BAD_REQUEST && r.body.JObj? && Lookup(r.body.fields, field) == Some(JArr([JStr(message)]))
    ensures Lookup(r.body.fields, "error").None? <==> field != "error"
  {
    Response(BAD_REQUEST, JObj([(field, JArr([JStr(message)]))]))
  }

  /** What a view whose success body the model does not render answers:
      the value computed for that body, or the error response. */
  datatype Reply<T> = Answer(value: T) | Refusal(response: Response)

  /** The body of a 202 response to a request that only enqueued a task. */
  function Pending(message: string, taskId: string, more: Fields): (r: Response)
    requires Lookup(more, "status").None?
    ensures r.code == ACCEPTED && r.body.JObj?
    ensures Lookup(r.body.fields, "status") == Some(JStr("pending"))
    ensures Lookup(r.body.fields, "task_id") == Some(JStr(taskId))
  {
    var head := [("message", JStr(message)), ("task_id", JStr(taskId))];
    LookupAppend(head + more, [("status", JStr("pending"))], "status");
    LookupAppend(head, more, "status");
    LookupAppend(head, more, "task_id");
    LookupAppend(head + more, [("status", JStr("pending"))], "task_id");
    Response(ACCEPTED, JObj(head + more + [("status", JStr("pending"))]))
  }
}
