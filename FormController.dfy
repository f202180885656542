/** `FormController`: each handler turns the service's outcome into a reply,
    or forwards the service's error to the error handler (`next(err)`)
    without replying. */
module FormController {
  import opened Wrappers
  import opened JsValue
  import opened Errors
  import opened ResponseHelpers
  import opened FormService

  /** What a handler does: send a reply, or call `next` with an error. */
  datatype Outcome<T> = Sent(reply: Reply<T>) | Forwarded(error: Failure)

  /** The reply of `create` for the result of `createForm`. */
  function CreateReply(r: Result<Form, Failure>): (out: Outcome<Form>)
    ensures r.Failure? ==> out == Forwarded(r.error)
    ensures r.Success? ==> out.Sent? && out.reply.status == 201 && out.reply.body == Some(Envelope(true, None, r.value))
  {
    match r
    case Failure(e) => Forwarded(e)
    case Success(form) => Sent(Created(form, None))
  }

  /** The reply of `list` for the forms `listForms` returned. */
  function ListReply(forms: seq<Summary>): (out: Outcome<seq<Summary>>)
    ensures out.Sent? && out.reply.status == 200 && out.reply.body == Some(Envelope(true, None, forms))
  {
    Sent(Ok(forms, None))
  }

  /** The form's settings ask for a signed-in reader. */
  predicate RequiresLogin(form: Form) {
    Truthy(Member(form.settings, "requiresLogin"))
  }

  /** The reply of `get` for the result of `getForm`: the login gate is
      applied to the form already fetched. */
  function GetReply(r: Result<Form, Failure>, user: Option<User>): (out: Outcome<Form>)
    ensures r.Failure? ==> out == Forwarded(r.error)
    ensures r.Success? ==>
      (out == Forwarded(AuthRequired) <==> RequiresLogin(r.value) && user.None?)
    ensures out.Sent? <==> r.Success? && !(RequiresLogin(r.value) && user.None?)
    ensures out.Sent? ==> out.reply == Ok(r.value, None)
  {
    match r
    case Failure(e) => Forwarded(e)
    case Success(form) =>
      if RequiresLogin(form) && user.None? then Forwarded(AuthRequired)
      else Sent(Ok(form, None))
  }

  /** The reply of `update` for the result of `updateForm`. */
  function UpdateReply(r: Result<Form, Failure>): (out: Outcome<Form>)
    ensures r.Failure? ==> out == Forwarded(r.error)
    ensures r.Success? ==> out.Sent? && out.reply.status == 200 && out.reply.body == Some(Envelope(true, None, r.value))
  {
    match r
    case Failure(e) => Forwarded(e)
    case Success(form) => Sent(Ok(form, None))
  }

  /** The reply of `remove` for the result of `deleteForm`: 200 with an
      empty object, not 204. */
  function RemoveReply(r: Result<bool, Failure>): (out: Outcome<Json>)
    ensures r.Failure? ==> out == Forwarded(r.error)
    ensures r.Success? ==> out.Sent? && out.reply.status == 200 && out.reply.body == Some(Envelope(true, None, Obj([])))
  {
    match r
    case Failure(e) => Forwarded(e)
    case Success(_) => Sent(Ok(Obj([]), None))
  }

  /** `create`: the request body and the caller go to `createForm`. */
  method Create(store: FormStore, body: Json, user: Option<User>, newId: string, now: int)
    returns (out: Outcome<Form>)
    requires store.Valid()
    requires newId !in store.forms && store.validId(newId)
    modifies store
    ensures store.Valid()
    ensures out == CreateReply(NewForm(body, user, newId, now))
    ensures out.Sent? ==> store.forms == old(store.forms)[newId := out.reply.body.value.data]
    ensures out.Forwarded? ==> store.forms == old(store.forms)
    ensures store.responses == old(store.responses)
  {
    var r := store.CreateForm(body, user, newId, now);
    out := CreateReply(r);
  }

  /** `list` */
  method List(store: FormStore) returns (out: Outcome<seq<Summary>>)
    requires store.Valid()
    ensures out.Sent? && out.reply.status == 200 && out.reply.body.Some?
    ensures NewestFirst(out.reply.body.value.data)
    ensures |out.reply.body.value.data| == |store.forms|
    ensures forall s :: s in out.reply.body.value.data ==> s.id in store.forms && s == Summarize(store.forms[s.id])
    ensures forall id :: id in store.forms ==> Summarize(store.forms[id]) in out.reply.body.value.data
  {
    var forms := store.ListForms();
    out := ListReply(forms);
  }

  /** `get`: a malformed or unknown id is reported as such even to an
      anonymous caller of a login-only form. */
  method Get(store: FormStore, id: string, user: Option<User>) returns (out: Outcome<Form>)
    ensures !store.validId(id) ==> out == Forwarded(InvalidId)
    ensures store.validId(id) && id !in store.forms ==> out == Forwarded(NotFound)
    ensures store.validId(id) && id in store.forms ==>
      (out == Forwarded(AuthRequired) <==> RequiresLogin(store.forms[id]) && user.None?)
    ensures store.validId(id) && id in store.forms && !(RequiresLogin(store.forms[id]) && user.None?) ==>
      out == Sent(Ok(Redacted(store.forms[id]), None))
    ensures out.Sent? ==> out.reply == Ok(Redacted(store.forms[id]), None)
  {
    var r := store.GetForm(id);
    if r.Success? {
      RedactionKeepsLoginFlag(store.forms[id]);
    }
    out := GetReply(r, user);
  }

  /** The projection without the redirect URL keeps the login flag. */
  lemma RedactionKeepsLoginFlag(f: Form)
    ensures RequiresLogin(Redacted(f)) == RequiresLogin(f)
  {
  }

  /** `update`: the request body, as the fields it sets, goes to `updateForm`. */
  method Update(store: FormStore, id: string, update: FormUpdate) returns (out: Outcome<Form>)
    requires store.Valid()
    modifies store
    ensures store.Valid()
    ensures out.Sent? <==> store.validId(id) && id in old(store.forms)
    ensures !store.validId(id) ==> out == Forwarded(CastError(id))
    ensures store.validId(id) && id !in old(store.forms) ==> out == Forwarded(NotFound)
    ensures out.Sent? ==>
      && store.forms == old(store.forms)[id := Apply(old(store.forms)[id], update)]
      && out.reply == Ok(store.forms[id], None)
    ensures out.Forwarded? ==> store.forms == old(store.forms)
    ensures store.responses == old(store.responses)
  {
    var r := store.UpdateForm(id, update);
    out := UpdateReply(r);
  }

  /** `remove` */
  method Remove(store: FormStore, id: string, user: Option<User>) returns (out: Outcome<Json>)
    requires store.Valid()
    modifies store
    ensures store.Valid()
    ensures out.Sent? <==> store.validId(id) && id in old(store.forms) && MayDelete(old(store.forms)[id], user)
    ensures !store.validId(id) ==> out == Forwarded(InvalidId)
    ensures store.validId(id) && id !in old(store.forms) ==> out == Forwarded(NotFound)
    ensures store.validId(id) && id in old(store.forms) && !MayDelete(old(store.forms)[id], user) ==>
      out == Forwarded(NotAuthorized)
    ensures out.Sent? ==>
      && out.reply == Ok(Obj([]), None)
      && store.forms == old(store.forms) - {id}
      && store.responses == WithoutForm(old(store.responses), id)
    ensures out.Forwarded? ==> store.forms == old(store.forms) && store.responses == old(store.responses)
  {
    var r := store.DeleteForm(id, user);
    out := RemoveReply(r);
  }
}
