/**
 * The shapes in which the external API's answers reach the screens.
 *
 * Calling an RTK Query mutation trigger gives a promise that resolves to `{ data }` or
 * `{ error }` and does not reject; `.unwrap()` on it gives back `data` or throws `error`.
 */
module Api {
  import opened Js

  /** A success body `{ status, message }`; either property may be missing. */
  datatype ResponseBody = ResponseBody(status: Option<string>, message: Option<string>)

  /** The parsed body of an error response, `{ message }`. */
  datatype ErrorBody = ErrorBody(message: Option<string>)

  /**
   * An RTK Query error: the HTTP status when there was a response, and the parsed body when there
   * was one. A non-HTTP status such as `FETCH_ERROR` is None; the handlers only compare the
   * status with 400, 409 and 500.
   */
  datatype ErrorPayload = ErrorPayload(status: Option<int>, data: Option<ErrorBody>)

  /** What a mutation trigger's promise resolves to. */
  datatype MutationResult = Fulfilled(data: ResponseBody) | Rejected(error: ErrorPayload)

  /** A value caught by a `catch` clause, seen through the properties the handlers read. */
  datatype Thrown = Payload(payload: ErrorPayload) | ErrorObject(message: string)

  /** The TypeError thrown by reading `.message` of `undefined`. */
  const UndefinedMessageRead := ErrorObject("Cannot read properties of undefined (reading 'message')")

  /** `t.status` */
  function StatusOf(t: Thrown): (s: Option<int>)
    ensures s.Some? ==> t.Payload? && s == t.payload.status
    ensures t.Payload? ==> s == t.payload.status
    ensures t.ErrorObject? ==> s.None?
  {
    if t.Payload? then t.payload.status else None
  }

  /** `t.data?.message` */
  function DataMessageOf(t: Thrown): (m: Option<string>)
    ensures m.Some? ==> t.Payload? && t.payload.data == Some(ErrorBody(m))
    ensures t.Payload? && t.payload.data.Some? ==> m == t.payload.data.value.message
    ensures t.ErrorObject? ==> m.None?
  {
    if t.Payload? && t.payload.data.Some? then t.payload.data.value.message else None
  }

  /** `t.message`: an Error object has one, an RTK Query error payload does not. */
  function MessageOf(t: Thrown): (m: Option<string>)
    ensures m.Some? <==> t.ErrorObject?
    ensures m.Some? ==> m.value == t.message
  {
    if t.ErrorObject? then Some(t.message) else None
  }

  /** What `await trigger(args).unwrap()` throws, if anything. */
  function Unwrap(r: MutationResult): (t: Option<Thrown>)
    ensures t.None? <==> r.Fulfilled?
    ensures r.Rejected? ==> t == Some(Payload(r.error))
  {
    if r.Rejected? then Some(Payload(r.error)) else None
  }

  /**
   * What `const { data } = await trigger(args)` followed by reading `data.message` throws:
   * on an error result `data` is undefined and the read fails, losing the error payload.
   */
  function DestructureAndReadMessage(r: MutationResult): (t: Option<Thrown>)
    ensures t.None? <==> r.Fulfilled?
    ensures t.Some? ==> StatusOf(t.value).None? && DataMessageOf(t.value).None?
  {
    if r.Rejected? then Some(UndefinedMessageRead) else None
  }

  /** `data.message` of a success body, with an absent message shown as "". */
  function MessageText(body: ResponseBody): (text: string)
    ensures body.message.Some? ==> text == body.message.value
    ensures body.message.None? ==> text == ""
  {
    if body.message.Some? then body.message.value else ""
  }
}
