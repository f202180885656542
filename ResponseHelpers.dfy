/** The success envelope helpers `ok`, `created` and `noContent`. A reply is
    the status set on the response and the JSON body sent, if any. */
module ResponseHelpers {
  import opened Wrappers

  /** `{success, message, data}`; `message` is absent unless given. */
  datatype Envelope<T> = Envelope(success: bool, message: Option<string>, data: T)

  datatype Reply<T> = Reply(status: int, body: Option<Envelope<T>>)

  /** `ok(res, data, message)` */
  function Ok<T>(data: T, message: Option<string>): (r: Reply<T>)
    ensures r.status == 200
    ensures r.body.Some? && r.body.value.success
    ensures r.body.value.data == data && r.body.value.message == message
  {
    Reply(200, Some(Envelope(true, message, data)))
  }

  /** `created(res, data, message)` */
  function Created<T>(data: T, message: Option<string>): (r: Reply<T>)
    ensures r.status == 201
    ensures r.body.Some? && r.body.value.success
    ensures r.body.value.data == data && r.body.value.message == message
  {
    Reply(201, Some(Envelope(true, message, data)))
  }

  /** `noContent(res)`: status 204 and no body. */
  function NoContent<T>(): (r: Reply<T>)
    ensures r.status == 204 && r.body.None?
  {
    Reply(204, None)
  }

  /** `ok` and `created` send the same envelope and differ only in status. */
  lemma OkCreatedSameEnvelope<T>(data: T, message: Option<string>)
    ensures Ok(data, message).body == Created(data, message).body
    ensures Ok(data, message).status != Created(data, message).status
  {
  }
}
