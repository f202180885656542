# Form service of the event system, modelled in Dafny

This project models the backend form service of the event-management
application, together with the small pieces around it:

- the normaliser that turns a loosely structured survey schema into the
  ordered question records a form stores (`Questions`);
- the form lifecycle over the document store: create, list, get, update and
  delete, with the ordered checks of delete (malformed id, unknown id,
  ownership) and the cascade to responses (`FormService`);
- the controller that maps service outcomes to replies or forwards errors,
  including the login gate on read (`FormController`);
- the success-envelope helpers (`ResponseHelpers`);
- the recursive sanitiser middleware (`SanitizeMiddleware`).

Request bodies are JavaScript values (`JsValue.Json`: undefined, null,
booleans, integers, strings, arrays, objects as ordered entry lists), and the
JavaScript operators the code relies on are written out: truthiness, `||`,
`??`, optional property access, `String(...)`. The `xss` filter and
`ObjectId.isValid` are parameters: `xss` is
a `string -> string` argument of the sanitiser, `isValid` the `validId`
constant of the store. The store's fresh ObjectId and clock reading are
arguments of `CreateForm`.

The store is a class (`FormService.FormStore`) holding a map from id to form
and a sequence of responses; its methods change it in place and state the
whole new state. Reading a property of null or undefined throws in
JavaScript; the model returns `TypeError` there (the body itself, a null
question element, a null option), and `NormaliseFails` states exactly when
that happens.

Question ids are not made unique within a form: two elements may carry the same `name`, and a
named element may take the positional default id of a later unnamed one. The
model follows the code; `Questions.DuplicateIdsPossible` exhibits such an
input, and `Questions.DefaultIdsDistinct` proves that the positional defaults
themselves never clash.

`updateForm` does not check the id before the lookup, unlike `getForm` and
`deleteForm`: a malformed id reaches the store, whose cast fails, rather than
being refused with 400 (`FormStore.UpdateForm` returns `CastError` there). It
also checks no ownership, so any caller may change any form, its owner
included. `updateForm` returns the stored form in full, including `settings.redirectUrl`,
which `getForm` withholds; the model keeps this (`FormStore.UpdateForm`
returns `Apply(...)`, not `Redacted(...)`).

## Model

| member | source | states |
|---|---|---|
| JsValue.LookupFirst | event-system/backend/src/services/formService.js:28-37 | reading a key gives the value of its first entry |
| Seqs.Traverse | event-system/backend/src/services/formService.js:27-40 | `.map` over an array whose callback may throw: succeeds iff every position succeeds, one output per input in order, otherwise the error of the first failing position |
| Questions.QuestionType | event-system/backend/src/services/formService.js:14-29 | the type is always one of the nine question types; `comment` gives `textarea`, `radiogroup` gives `radio`, the other table keys map to themselves, and the result is `text` iff the key is `text` or not in the table |
| Questions.SourceSelection | event-system/backend/src/services/formService.js:8-12 | elements come from `questions` when it is a non-empty array with a truthy first `type`, else from `pages[0].elements` when that is an array, else from `questions`, a non-array giving none |
| Questions.Normalised | event-system/backend/src/services/formService.js:26-41 | one question per source element in the same order; each has the element's name or `q_<idx+1>`, the mapped type, title or text or `Question <idx+1>`, the description, `Boolean(isRequired)`, and one option per choice; ids and texts are always truthy |
| Questions.ElementNormalised | event-system/backend/src/services/formService.js:27-40 | the question built from one element at one position relates to that element field by field; `choices` that is not an array gives no options |
| Questions.ChoicesNormalised | event-system/backend/src/services/formService.js:33-39 | one option per choice; a string choice gets `String(i+1)` and itself, an object choice `String(value ?? i+1)` and `String(text ?? label ?? '')` |
| Questions.NormaliseFails | event-system/backend/src/services/formService.js:8-37 | normalisation throws iff the input, a source element, or an option of an element with array `choices` is null or undefined |
| Questions.ElementsFail | event-system/backend/src/services/formService.js:27-40 | mapping the elements throws iff one of them cannot be read |
| Questions.ElementFails | event-system/backend/src/services/formService.js:28-37 | one element throws iff it is nullish or one of its array choices is nullish |
| Questions.DefaultIdsDistinct | event-system/backend/src/services/formService.js:28 | the default ids of two different positions differ |
| Questions.DuplicateIdsPossible | event-system/backend/src/services/formService.js:28 | an input whose two questions get the same id |
| Questions.SurveyNormalised | event-system/backend/src/services/formService.js:7-44 | a required `radiogroup` named `q1` with choices Yes/No becomes a required `radio` question `q1`, text `Question 1`, options `1`/Yes and `2`/No |
| Questions.SurveyElementNormalised | event-system/backend/src/services/formService.js:27-40 | the survey example's element becomes the expected question |
| Questions.SurveyChoicesNormalised | event-system/backend/src/services/formService.js:34-36 | string choices get the 1-based positions as values |
| Questions.FalsyOptionFieldsKept | event-system/backend/src/services/formService.js:37 | `??` keeps a zero value and an empty text, which a truthiness test would drop |
| FormService.NewForm | event-system/backend/src/services/formService.js:46-56 | the created form carries the normalised questions and fails iff normalisation fails; `isPublished` is true iff the input is exactly `true`; `createdBy` is present iff the caller has a non-empty id, and then is that id |
| FormService.WithoutKey | event-system/backend/src/services/formService.js:67 | the entries not named by the key, so that key reads undefined and every other key reads as before |
| FormService.Redacted | event-system/backend/src/services/formService.js:67 | the form without `settings.redirectUrl`; nothing else differs |
| FormService.Apply | event-system/backend/src/services/formService.js:73 | an update replaces the fields it names and keeps id and creation time |
| FormService.ApplyNoChange | event-system/backend/src/services/formService.js:73 | an empty update leaves the form as it is |
| FormService.ApplyIdempotent | event-system/backend/src/services/formService.js:73 | applying an update twice equals applying it once |
| FormService.DeleteRefusedIff | event-system/backend/src/services/formService.js:83-86 | deletion is refused iff the form has an owner id that is not empty (an empty id is falsy, so such a form counts as unowned) and the caller is anonymous or neither the owner nor an admin |
| FormService.WithoutForm | event-system/backend/src/services/formService.js:89 | after `deleteMany` no response of the form is left and every other response keeps its multiplicity |
| FormService.CascadeKeepsOthers | event-system/backend/src/services/formService.js:88-91 | the deleted form has no responses left, and every other form's responses are exactly as before, in order |
| FormService.InsertNewestFirst | event-system/backend/src/services/formService.js:62 | inserting keeps the newest-first order and adds exactly one element |
| FormService.FormStore.CreateForm | event-system/backend/src/services/formService.js:46-59 | stores the form `NewForm` builds under the fresh id, or changes nothing when normalisation throws |
| FormService.FormStore.ListForms | event-system/backend/src/services/formService.js:61-63 | every stored form exactly once as `{id, title, createdAt, responseCount}`, newest first |
| FormService.FormStore.GetForm | event-system/backend/src/services/formService.js:65-70 | a malformed id gives 400 before any lookup, an unknown id 404, otherwise the stored form without its redirect URL |
| FormService.FormStore.UpdateForm | event-system/backend/src/services/formService.js:72-76 | a malformed id fails the cast, an unknown id gives 404, both leaving the store as it was; otherwise the form becomes the updated one and is returned |
| FormService.FormStore.DeleteForm | event-system/backend/src/services/formService.js:78-93 | 400, then 404, then 403 by the delete rule, each leaving the store unchanged; otherwise the form and all its responses are removed, nothing else, and the result is true |
| ResponseHelpers.Ok | event-system/backend/src/utils/response.js:1 | status 200 and `{success: true, message, data}` with data and message unchanged |
| ResponseHelpers.Created | event-system/backend/src/utils/response.js:2 | status 201 and `{success: true, message, data}` with data and message unchanged |
| ResponseHelpers.NoContent | event-system/backend/src/utils/response.js:3 | status 204 and no body |
| ResponseHelpers.OkCreatedSameEnvelope | event-system/backend/src/utils/response.js:1-2 | `ok` and `created` send the same envelope and differ only in status |
| FormController.CreateReply | event-system/backend/src/controllers/formController.js:6-11 | 201 with the created form, or the service error forwarded unchanged and nothing sent |
| FormController.ListReply | event-system/backend/src/controllers/formController.js:13-18 | 200 with the service's list |
| FormController.GetReply | event-system/backend/src/controllers/formController.js:20-26 | a service error is forwarded as is; after a successful fetch, 401 iff the form requires login and there is no caller, otherwise 200 with the form |
| FormController.UpdateReply | event-system/backend/src/controllers/formController.js:28-33 | 200 with the updated form, or the service error forwarded |
| FormController.RemoveReply | event-system/backend/src/controllers/formController.js:35-40 | 200 with data `{}` (not 204), or the service error forwarded |
| FormController.Create | event-system/backend/src/controllers/formController.js:6-11 | the reply is that of `createForm`'s result: a created form is stored under the fresh id and replied with 201, a normalisation error is forwarded and nothing is stored; responses are untouched |
| FormController.List | event-system/backend/src/controllers/formController.js:13-18 | 200 with the summary of every stored form exactly once, nothing else, newest first |
| FormController.Get | event-system/backend/src/controllers/formController.js:20-26 | 400 and 404 take precedence over the login gate; 401 iff the stored form requires login and there is no caller; otherwise 200 with the stored form without its redirect URL |
| FormController.RedactionKeepsLoginFlag | event-system/backend/src/controllers/formController.js:22-23 | the projection the gate inspects still carries the login flag |
| FormController.Update | event-system/backend/src/controllers/formController.js:28-33 | 200 iff the id is well formed and known, and then the form becomes the old one with the update applied and is the reply's data; otherwise nothing changes and the service's error is forwarded unchanged (the failed cast for a malformed id, 404 for an unknown one); responses are untouched |
| FormController.Remove | event-system/backend/src/controllers/formController.js:35-40 | 200 with `{}` iff the id is well formed and known and the delete rule allows it, and then exactly that form and its responses are removed; otherwise the store is unchanged and the service's error is forwarded unchanged: 400 for a malformed id, then 404 for an unknown one, then 403 for a refused caller |
| SanitizeMiddleware.SanitizeValue | event-system/backend/src/middleware/sanitize.js:3-8 | a string becomes `xss` of it; arrays stay arrays of the same length, objects keep their keys in order; other values are unchanged |
| SanitizeMiddleware.SanitizeKeepsShape | event-system/backend/src/middleware/sanitize.js:3-8 | sanitising changes strings only: the value's shape, with every string emptied, is unchanged |
| SanitizeMiddleware.SanitizeFiltersEveryString | event-system/backend/src/middleware/sanitize.js:3-8 | the strings of the sanitised value, at every depth and in order, are `xss` of the original's strings |
| SanitizeMiddleware.ShapeAndStringsDetermine | event-system/backend/src/middleware/sanitize.js:3-8 | two values of the same shape have as many strings, and are equal when their strings are |
| SanitizeMiddleware.SanitizeDetermined | event-system/backend/src/middleware/sanitize.js:3-8 | the sanitised value is the only value with the original's shape whose strings are the original's strings filtered by `xss` |
| SanitizeMiddleware.SanitizeIdentity | event-system/backend/src/middleware/sanitize.js:3-8 | with a filter that changes no string, sanitising changes nothing |
| SanitizeMiddleware.SanitizeCompose | event-system/backend/src/middleware/sanitize.js:3-8 | sanitising with one filter then another is sanitising once with their composition |
| SanitizeMiddleware.SanitizeIdempotent | event-system/backend/src/middleware/sanitize.js:3-8 | with an idempotent filter, sanitising twice is sanitising once |
| SanitizeMiddleware.SanitizedPart | event-system/backend/src/middleware/sanitize.js:11-13 | a request part is sanitised only when it is truthy |
| SanitizeMiddleware.Sanitize | event-system/backend/src/middleware/sanitize.js:10-15 | body, query and params are replaced by their sanitised values only when present, other request fields are untouched, and `next` is called exactly once |

## Left out

- HTTP wiring: the controller's `res` and `next` are modelled as the returned `Outcome` (a reply sent, or an error forwarded), not as callbacks; the shared error handler that turns a forwarded error into a status, and the `ApiError` class in `utils/errors.js`, are not part of this model.
- The document store: `Form.create`, `find`, `findById`, `findByIdAndUpdate`, `deleteMany` and `deleteOne` are operations on the map and sequence of `FormStore`. Mongoose schema validation and casting (`runValidators`) are not modelled, because the `Form` schema is not part of this model; so an update is given as the typed `FormUpdate` the request body casts to, and the schema default `responseCount: 0` of a new form is assumed.
- ObjectId generation and timestamps: the fresh id and the creation time of a new form are arguments; `ObjectId.isValid` is the abstract `validId`.
- Concurrency: the cascade of `deleteForm` runs under `Promise.allSettled`; the model performs the two removals in sequence and does not model interleaving or a partial failure of one of them.
- FormService.FormStore.ListForms: the order among forms created at the same instant is not specified by the store and is left open by the model; the selection of fields is modelled as the `Summary` record.
- FormService.Redacted: the projection `-settings.redirectUrl` is modelled for an object `settings`; the store's behaviour for an array of embedded documents there is not modelled (such settings are left as they are).
- Numbers are integers: floating-point values, `NaN` and the exponent notation `String` uses for very large numbers are not modelled.
- FormService.Apply: an update cannot name `_id`, `createdAt` or `updatedAt`, so keeping the id and creation time holds by construction of `FormUpdate`; the code passes the whole body to `findByIdAndUpdate`, and whether the store drops such keys depends on the `Form` schema, which is not part of this model.
- Object key order: an object's entries are taken in the order given; JavaScript's rule that integer-like keys come first in `Object.entries` is not modelled.
- Property lookup follows the JavaScript objects' own entries: prototype properties such as `toString` in the type table are not modelled, nor properties of strings and arrays; the one such read, `questions.length` on a value already known to be an array, is the sequence length. An object with the same key twice, which JavaScript cannot build, reads its first entry.
- The `xss` library: it is an arbitrary `string -> string` function and nothing is stated about its output.
- `TypeError` carries only the name of the property being read, not the runtime's message.
- Strings are sequences of Unicode characters; JavaScript's UTF-16 code units are not modelled (this matters only for `pages` given as a string, whose first character is read).
- The certificate administration page, the request logger and the API documentation routes are not part of this model.
