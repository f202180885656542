/** The form lifecycle of `FormService`: create, list, get, update and
    delete over a document store holding forms and the responses collected
    for them. */
module FormService {
  import opened Wrappers
  import opened JsValue
  import opened Errors
  import opened Questions

  /** The authenticated caller. */
  datatype User = User(id: string, role: string)

  /** A stored form. `title`, `description` and `settings` hold what the
      creator sent; `createdBy` is the owner's user id, absent for unowned
      (legacy) forms; an empty id, being falsy, also counts as no owner. */
  datatype Form = Form(
    id: string,
    title: Json,
    description: Json,
    settings: Json,
    isPublished: bool,
    questions: seq<Question>,
    createdBy: Option<string>,
    responseCount: int,
    createdAt: int)

  /** A submitted response; only its reference to a form matters here. */
  datatype Response = Response(id: string, formId: string, answers: Json)

  /** A listed form: the id and the selected fields `title createdAt responseCount`. */
  datatype Summary = Summary(id: string, title: Json, createdAt: int, responseCount: int)

  /** The fields an update sets; an absent field is left as it is.
      `createdBy` may be set to `None` or `""`, which makes the form unowned. */
  datatype FormUpdate = FormUpdate(
    title: Option<Json>,
    description: Option<Json>,
    settings: Option<Json>,
    isPublished: Option<bool>,
    questions: Option<seq<Question>>,
    createdBy: Option<Option<string>>,
    responseCount: Option<int>)

  /** The form `createForm` stores for the body `incoming` and the caller
      `user`, given the id and creation time the store assigns. */
  function NewForm(incoming: Json, user: Option<User>, id: string, now: int): (r: Result<Form, Failure>)
    ensures r.Success? <==> MapIncomingQuestions(incoming).Success?
    ensures r.Failure? ==> r.error == MapIncomingQuestions(incoming).error
    ensures r.Success? ==>
      && r.value.id == id
      && r.value.createdAt == now
      && r.value.questions == MapIncomingQuestions(incoming).value
      && r.value.title == Member(incoming, "title")
      && r.value.description == Member(incoming, "description")
      && r.value.settings == Member(incoming, "settings")
      && (r.value.isPublished <==> Member(incoming, "isPublished") == Bool(true))
      && (r.value.createdBy.Some? <==> user.Some? && user.value.id != "")
      && (r.value.createdBy.Some? ==> r.value.createdBy.value == user.value.id)
      && r.value.responseCount == 0
  {
    match MapIncomingQuestions(incoming)
    case Failure(e) => Failure(e)
    case Success(questions) =>
      Success(Form(
        id,
        Member(incoming, "title"),
        Member(incoming, "description"),
        Member(incoming, "settings"),
        Member(incoming, "isPublished") == Bool(true),
        questions,
        if user.Some? && user.value.id != "" then Some(user.value.id) else None,
        0,
        now))
  }

  /** The entries of `entries` not named `key`, in order. */
  function WithoutKey(entries: seq<Entry>, key: string): (r: seq<Entry>)
    ensures forall e :: e in r <==> e in entries && e.key != key
    ensures Lookup(r, key) == Undefined
    ensures forall k :: k != key ==> Lookup(r, k) == Lookup(entries, k)
  {
    if entries == [] then []
    else if entries[0].key == key then WithoutKey(entries[1..], key)
    else [entries[0]] + WithoutKey(entries[1..], key)
  }

  /** The form as `getForm` returns it: projected without `settings.redirectUrl`. */
  function Redacted(f: Form): (r: Form)
    ensures Member(r.settings, "redirectUrl") == Undefined
    ensures forall k :: k != "redirectUrl" ==> Member(r.settings, k) == Member(f.settings, k)
    ensures r.settings.Obj? <==> f.settings.Obj?
    ensures !f.settings.Obj? ==> r == f
    ensures r.(settings := f.settings) == f
  {
    if f.settings.Obj? then f.(settings := Obj(WithoutKey(f.settings.entries, "redirectUrl"))) else f
  }

  /** The form after `update` is applied: every field the update names is
      replaced, the rest, including the id and creation time, are kept. */
  function Apply(f: Form, u: FormUpdate): (r: Form)
    ensures r.id == f.id && r.createdAt == f.createdAt
    ensures r.title == if u.title.Some? then u.title.value else f.title
    ensures r.description == if u.description.Some? then u.description.value else f.description
    ensures r.settings == if u.settings.Some? then u.settings.value else f.settings
    ensures r.isPublished == if u.isPublished.Some? then u.isPublished.value else f.isPublished
    ensures r.questions == if u.questions.Some? then u.questions.value else f.questions
    ensures r.createdBy == if u.createdBy.Some? then u.createdBy.value else f.createdBy
    ensures r.responseCount == if u.responseCount.Some? then u.responseCount.value else f.responseCount
  {
    Form(
      f.id,
      u.title.GetOr(f.title),
      u.description.GetOr(f.description),
      u.settings.GetOr(f.settings),
      u.isPublished.GetOr(f.isPublished),
      u.questions.GetOr(f.questions),
      u.createdBy.GetOr(f.createdBy),
      u.responseCount.GetOr(f.responseCount),
      f.createdAt)
  }

  const NoChange := FormUpdate(None, None, None, None, None, None, None)

  lemma ApplyNoChange(f: Form)
    ensures Apply(f, NoChange) == f
  {
  }

  /** Applying the same update twice is applying it once. */
  lemma ApplyIdempotent(f: Form, u: FormUpdate)
    ensures Apply(Apply(f, u), u) == Apply(f, u)
  {
  }

  /** The delete rule: the caller owns the form, or the form has no owner
      (none at all, or the empty, falsy id), or the caller is an administrator. */
  predicate MayDelete(f: Form, user: Option<User>)
  {
    var isOwner := user.Some? && f.createdBy.Some? && f.createdBy.value != "" && f.createdBy.value == user.value.id;
    var legacyNoOwner := f.createdBy.None? || f.createdBy.value == "";
    var admin := user.Some? && user.value.role == "admin";
    isOwner || legacyNoOwner || admin
  }

  /** Deletion is refused exactly when the form has a non-empty owner id and
      the caller is anonymous, or is neither that owner nor an administrator. */
  lemma DeleteRefusedIff(f: Form, user: Option<User>)
    ensures !MayDelete(f, user) <==>
      f.createdBy.Some? && f.createdBy.value != "" &&
      (user.None? || (user.value.id != f.createdBy.value && user.value.role != "admin"))
  {
  }

  /** The responses left after `deleteMany({formId: id})`: those of other
      forms, in their order. */
  function WithoutForm(rs: seq<Response>, id: string): (r: seq<Response>)
    ensures forall x :: x in r ==> x.formId != id
    ensures forall x :: multiset(r)[x] == if x.formId == id then 0 else multiset(rs)[x]
  {
    if rs == [] then []
    else
      assert rs == [rs[0]] + rs[1..];
      if rs[0].formId == id then WithoutForm(rs[1..], id)
      else [rs[0]] + WithoutForm(rs[1..], id)
  }

  /** The responses of form `id`, in order. */
  function ResponsesOf(rs: seq<Response>, id: string): seq<Response>
  {
    if rs == [] then []
    else if rs[0].formId == id then [rs[0]] + ResponsesOf(rs[1..], id)
    else ResponsesOf(rs[1..], id)
  }

  /** The cascade removes every response of the deleted form and leaves the
      response list of every other form exactly as it was. */
  lemma {:induction false} CascadeKeepsOthers(rs: seq<Response>, id: string, other: string)
    ensures ResponsesOf(WithoutForm(rs, id), id) == []
    ensures other != id ==> ResponsesOf(WithoutForm(rs, id), other) == ResponsesOf(rs, other)
  {
    if rs != [] {
      CascadeKeepsOthers(rs[1..], id, other);
      if rs[0].formId != id {
        var tail := WithoutForm(rs[1..], id);
        assert ([rs[0]] + tail)[1..] == tail;
      }
    }
  }

  function Summarize(f: Form): Summary {
    Summary(f.id, f.title, f.createdAt, f.responseCount)
  }

  /** Sorted by `-createdAt`: newest first. */
  ghost predicate NewestFirst(s: seq<Summary>) {
    forall i, j :: 0 <= i < j < |s| ==> s[i].createdAt >= s[j].createdAt
  }

  /** `x` placed into the newest-first list `s`. */
  function InsertNewestFirst(x: Summary, s: seq<Summary>): (r: seq<Summary>)
    ensures multiset(r) == multiset(s) + multiset{x}
    ensures NewestFirst(s) ==> NewestFirst(r)
  {
    if s == [] then [x]
    else if x.createdAt >= s[0].createdAt then [x] + s
    else
      var rest := InsertNewestFirst(x, s[1..]);
      assert s == [s[0]] + s[1..];
      assert NewestFirst(s) ==> NewestFirst([s[0]] + rest) by {
        if NewestFirst(s) {
          assert NewestFirst(s[1..]);
          forall y | y in rest ensures y.createdAt <= s[0].createdAt {
            assert y in multiset(rest);
            if y != x {
              assert y in multiset(s[1..]);
            }
          }
        }
      }
      [s[0]] + rest
  }

  /** The document store. `validId` is `ObjectId.isValid`. */
  class FormStore {
    var forms: map<string, Form>
    var responses: seq<Response>
    const validId: string -> bool

    /** Every form is stored under its own id, and ids are ObjectIds. */
    ghost predicate Valid()
      reads this
    {
      forall id :: id in forms ==> forms[id].id == id && validId(id)
    }

    /** A store holding the given forms and responses. */
    constructor (validId: string -> bool, forms: map<string, Form>, responses: seq<Response>)
      requires forall id :: id in forms ==> forms[id].id == id && validId(id)
      ensures Valid()
      ensures this.validId == validId && this.forms == forms && this.responses == responses
    {
      this.validId := validId;
      this.forms := forms;
      this.responses := responses;
    }

    /** `createForm(incoming, user)`; the store assigns the fresh ObjectId
        `newId` and the creation time `now`. */
    method CreateForm(incoming: Json, user: Option<User>, newId: string, now: int) returns (r: Result<Form, Failure>)
      requires Valid()
      requires newId !in forms && validId(newId)
      modifies this
      ensures Valid()
      ensures r == NewForm(incoming, user, newId, now)
      ensures r.Success? ==> forms == old(forms)[newId := r.value]
      ensures r.Failure? ==> forms == old(forms)
      ensures responses == old(responses)
    {
      r := NewForm(incoming, user, newId, now);
      if r.Success? {
        forms := forms[newId := r.value];
      }
    }

    /** `listForms()`: every form once, summarised, newest first. */
    method ListForms() returns (r: seq<Summary>)
      requires Valid()
      ensures NewestFirst(r)
      ensures |r| == |forms|
      ensures forall s :: s in r ==> s.id in forms && s == Summarize(forms[s.id])
      ensures forall id :: id in forms ==> Summarize(forms[id]) in r
    {
      r := [];
      var left := forms.Keys;
      while left != {}
        invariant left <= forms.Keys
        invariant NewestFirst(r)
        invariant |r| + |left| == |forms|
        invariant forall s :: s in r ==> s.id in forms && s.id !in left && s == Summarize(forms[s.id])
        invariant forall id :: id in forms && id !in left ==> Summarize(forms[id]) in r
        decreases left
      {
        var k :| k in left;
        var r' := InsertNewestFirst(Summarize(forms[k]), r);
        assert forall s :: s in r' <==> s in r || s == Summarize(forms[k]) by {
          assert forall s :: s in r' <==> s in multiset(r');
        }
        r := r';
        left := left - {k};
      }
    }

    /** `getForm(id)`: a malformed id is refused before the store is read,
        an unknown one is not found, otherwise the form is returned without
        its redirect URL. */
    function GetForm(id: string): (r: Result<Form, Failure>)
      reads this
      ensures !validId(id) ==> r == Failure(InvalidId)
      ensures validId(id) && id !in forms ==> r == Failure(NotFound)
      ensures r.Success? <==> validId(id) && id in forms
      ensures r.Success? ==> r.value == Redacted(forms[id])
      ensures r.Success? ==> Member(r.value.settings, "redirectUrl") == Undefined
    {
      if !validId(id) then Failure(InvalidId)
      else if id !in forms then Failure(NotFound)
      else Success(Redacted(forms[id]))
    }

    /** `updateForm(id, update)`: the updated form, returned in full. The id
        is not checked first, so a malformed one fails the store's cast. */
    method UpdateForm(id: string, update: FormUpdate) returns (r: Result<Form, Failure>)
      requires Valid()
      modifies this
      ensures Valid()
      ensures !validId(id) ==> r == Failure(CastError(id))
      ensures validId(id) && id !in old(forms) ==> r == Failure(NotFound)
      ensures r.Failure? ==> forms == old(forms)
      ensures r.Success? <==> validId(id) && id in old(forms)
      ensures r.Success? ==> r.value == Apply(old(forms)[id], update) && forms == old(forms)[id := r.value]
      ensures responses == old(responses)
    {
      if !validId(id) {
        r := Failure(CastError(id));
      } else if id !in forms {
        r := Failure(NotFound);
      } else {
        var updated := Apply(forms[id], update);
        forms := forms[id := updated];
        r := Success(updated);
      }
    }

    /** `deleteForm(id, user)`: a malformed id, then an unknown id, then a
        caller the delete rule refuses; each leaves the store as it was. A
        permitted delete removes the form and its responses and nothing else. */
    method DeleteForm(id: string, user: Option<User>) returns (r: Result<bool, Failure>)
      requires Valid()
      modifies this
      ensures Valid()
      ensures !validId(id) ==> r == Failure(InvalidId)
      ensures validId(id) && id !in old(forms) ==> r == Failure(NotFound)
      ensures validId(id) && id in old(forms) && !MayDelete(old(forms)[id], user) ==> r == Failure(NotAuthorized)
      ensures r.Failure? ==> forms == old(forms) && responses == old(responses)
      ensures r.Success? <==> validId(id) && id in old(forms) && MayDelete(old(forms)[id], user)
      ensures r.Success? ==>
        && r.value
        && forms == old(forms) - {id}
        && responses == WithoutForm(old(responses), id)
    {
      if !validId(id) {
        return Failure(InvalidId);
      }
      if id !in forms {
        return Failure(NotFound);
      }
      var form := forms[id];
      if !MayDelete(form, user) {
        return Failure(NotAuthorized);
      }
      responses := WithoutForm(responses, form.id);
      forms := forms - {form.id};
      r := Success(true);
    }
  }
}
