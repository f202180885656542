/** The normaliser of `FormService.mapIncomingQuestions`: it turns a loosely
    structured survey schema (either a flat `questions` array or a
    survey-builder document with `pages[0].elements`) into the ordered list
    of question records a form stores. */
module Questions {
  import opened Wrappers
  import opened Seqs
  import opened JsValue
  import opened Errors

  /** One selectable option of a question. */
  datatype Choice = Choice(val: string, lbl: string)

  /** A normalised question. `qId`, `text` and `desc` hold whatever value the
      schema supplied (the normaliser does not coerce them to strings). */
  datatype Question = Question(qId: Json, qType: string, text: Json, desc: Json, req: bool, opts: seq<Choice>)

  /** The type table: schema type names to question types. */
  const TypeMap: map<string, string> := map[
    "text" := "text",
    "comment" := "textarea",
    "radiogroup" := "radio",
    "checkbox" := "checkbox",
    "dropdown" := "dropdown",
    "rating" := "rating",
    "scale" := "scale",
    "date" := "date",
    "email" := "email"
  ]

  const QuestionTypes: set<string> :=
    {"text", "textarea", "radio", "checkbox", "dropdown", "rating", "scale", "date", "email"}

  /** `typeMap[key] || 'text'` */
  function QuestionType(key: string): (t: string)
    ensures t in QuestionTypes
    ensures t == "text" <==> key == "text" || key !in TypeMap
    ensures key == "comment" ==> t == "textarea"
    ensures key == "radiogroup" ==> t == "radio"
    ensures key in TypeMap && key != "comment" && key != "radiogroup" ==> t == key
  {
    if key in TypeMap then TypeMap[key] else "text"
  }

  /** `incoming.questions` is a non-empty array whose first element has a truthy `type`. */
  predicate HasTypedQuestions(incoming: Json) {
    var qs := Member(incoming, "questions");
    qs.Arr? && |qs.elems| > 0 && Truthy(Member(qs.elems[0], "type"))
  }

  /** `incoming.pages?.[0]?.elements` */
  function PageElements(incoming: Json): Json {
    Member(Index0(Member(incoming, "pages")), "elements")
  }

  /** The value the normaliser takes its elements from. */
  function Elements(incoming: Json): Json {
    if HasTypedQuestions(incoming) then Member(incoming, "questions")
    else if PageElements(incoming).Arr? then PageElements(incoming)
    else Member(incoming, "questions")
  }

  /** The id of the question at 0-based position `idx` when it has no name. */
  function DefaultId(idx: nat): string {
    "q_" + NatToString(idx + 1)
  }

  /** The text of the question at 0-based position `idx` when it has no title. */
  function DefaultText(idx: nat): string {
    "Question " + NatToString(idx + 1)
  }

  /** Choice `c` at 0-based position `i`. A choice that is neither a string
      nor an object-like value reads its properties as undefined; a null
      choice throws. */
  function MapChoice(c: Json, i: nat): Result<Choice, Failure> {
    if c.Str? then Success(Choice(NatToString(i + 1), c.s))
    else if Nullish(c) then Failure(TypeError("value"))
    else
      Success(Choice(
        ToStr(Coalesce(Member(c, "value"), Num(i + 1))),
        ToStr(Coalesce(Member(c, "text"), Coalesce(Member(c, "label"), Str(""))))))
  }

  /** Element `el` at 0-based position `idx`; reading `el.name` throws when
      `el` is null or undefined. */
  function MapElement(el: Json, idx: nat): Result<Question, Failure> {
    if Nullish(el) then Failure(TypeError("name"))
    else
      var choices := Member(el, "choices");
      var opts := if choices.Arr? then Traverse(choices.elems, 0, MapChoice) else Success([]);
      match opts
      case Failure(e) => Failure(e)
      case Success(os) =>
        Success(Question(
          Or(Member(el, "name"), Str(DefaultId(idx))),
          QuestionType(ToStr(Member(el, "type"))),
          Or(Member(el, "title"), Or(Member(el, "text"), Str(DefaultText(idx)))),
          Member(el, "description"),
          Truthy(Member(el, "isRequired")),
          os))
  }

  /** `FormService.mapIncomingQuestions(incoming)`. */
  function MapIncomingQuestions(incoming: Json): Result<seq<Question>, Failure> {
    if Nullish(incoming) then Failure(TypeError("questions"))
    else
      var elements := Elements(incoming);
      if elements.Arr? then Traverse(elements.elems, 0, MapElement) else Success([])
  }

  // ---------------------------------------------------------------------
  // What the normaliser promises

  /** The schema's option `c` at 0-based position `j` became `o`. */
  ghost predicate ChoiceFrom(c: Json, j: nat, o: Choice) {
    if c.Str? then o == Choice(NatToString(j + 1), c.s)
    else
      var value := Member(c, "value");
      var text := Member(c, "text");
      var labelValue := Member(c, "label");
      && o.val == (if Nullish(value) then NatToString(j + 1) else ToStr(value))
      && o.lbl == (if !Nullish(text) then ToStr(text) else if !Nullish(labelValue) then ToStr(labelValue) else "")
  }

  /** The schema's element `el` at 0-based position `idx` became `q`. */
  ghost predicate QuestionFrom(el: Json, idx: nat, q: Question) {
    var name := Member(el, "name");
    var title := Member(el, "title");
    var text := Member(el, "text");
    var choices := Member(el, "choices");
    && q.qId == (if Truthy(name) then name else Str(DefaultId(idx)))
    && q.qType == QuestionType(ToStr(Member(el, "type")))
    && q.text == (if Truthy(title) then title else if Truthy(text) then text else Str(DefaultText(idx)))
    && q.desc == Member(el, "description")
    && q.req == Truthy(Member(el, "isRequired"))
    && |q.opts| == (if choices.Arr? then |choices.elems| else 0)
    && forall j :: 0 <= j < |q.opts| ==> ChoiceFrom(choices.elems[j], j, q.opts[j])
  }

  /** The elements the normaliser reads, in order; empty when the selected
      source is not an array. */
  ghost function SourceElements(incoming: Json): seq<Json> {
    var e := Elements(incoming);
    if e.Arr? then e.elems else []
  }

  /** Which array is read: `questions` when it is a non-empty array whose
      first element has a truthy type, else `pages[0].elements` when that is
      an array, else whatever `questions` holds. */
  lemma SourceSelection(incoming: Json)
    ensures HasTypedQuestions(incoming) ==> SourceElements(incoming) == Member(incoming, "questions").elems
    ensures !HasTypedQuestions(incoming) && PageElements(incoming).Arr? ==>
      SourceElements(incoming) == PageElements(incoming).elems
    ensures !HasTypedQuestions(incoming) && !PageElements(incoming).Arr? ==>
      SourceElements(incoming) == (var qs := Member(incoming, "questions"); if qs.Arr? then qs.elems else [])
  {
  }

  lemma {:induction false} ChoicesNormalised(cs: seq<Json>, os: seq<Choice>)
    requires Traverse(cs, 0, MapChoice) == Success(os)
    ensures |os| == |cs|
    ensures forall j :: 0 <= j < |os| ==> ChoiceFrom(cs[j], j, os[j])
  {
    forall j | 0 <= j < |os| ensures ChoiceFrom(cs[j], j, os[j]) {
      assert MapChoice(cs[j], j) == Success(os[j]);
    }
  }

  lemma ElementNormalised(el: Json, idx: nat, q: Question)
    requires MapElement(el, idx) == Success(q)
    ensures QuestionFrom(el, idx, q)
  {
    var choices := Member(el, "choices");
    if choices.Arr? {
      ChoicesNormalised(choices.elems, q.opts);
    }
  }

  /** The normaliser emits exactly one question per source element, in the
      same order, each built from its element and its position; every id and
      every text is truthy, because the positional defaults are. */
  lemma Normalised(incoming: Json, qs: seq<Question>)
    requires MapIncomingQuestions(incoming) == Success(qs)
    ensures |qs| == |SourceElements(incoming)|
    ensures forall i :: 0 <= i < |qs| ==> QuestionFrom(SourceElements(incoming)[i], i, qs[i])
    ensures forall i :: 0 <= i < |qs| ==> Truthy(qs[i].qId) && Truthy(qs[i].text) && qs[i].qType in QuestionTypes
  {
    var els := SourceElements(incoming);
    forall i | 0 <= i < |qs|
      ensures QuestionFrom(els[i], i, qs[i])
      ensures Truthy(qs[i].qId) && Truthy(qs[i].text)
    {
      assert MapElement(els[i], i) == Success(qs[i]);
      ElementNormalised(els[i], i, qs[i]);
    }
  }

  /** Normalisation throws exactly when the input itself, a source element,
      or an option of an element whose `choices` is an array is null or
      undefined. */
  lemma NormaliseFails(incoming: Json)
    ensures MapIncomingQuestions(incoming).Failure? <==>
      || Nullish(incoming)
      || exists i :: 0 <= i < |SourceElements(incoming)| && BadElement(SourceElements(incoming)[i])
  {
    if !Nullish(incoming) {
      var e := Elements(incoming);
      if e.Arr? {
        assert SourceElements(incoming) == e.elems;
        assert MapIncomingQuestions(incoming) == Traverse(e.elems, 0, MapElement);
        ElementsFail(e.elems);
      } else {
        assert MapIncomingQuestions(incoming) == Success([]);
      }
    }
  }

  lemma ElementsFail(els: seq<Json>)
    ensures Traverse(els, 0, MapElement).Failure? <==> exists i :: 0 <= i < |els| && BadElement(els[i])
  {
    forall i | 0 <= i < |els| ensures MapElement(els[i], i).Failure? <==> BadElement(els[i]) {
      ElementFails(els[i], i);
    }
  }

  lemma ElementFails(el: Json, idx: nat)
    ensures MapElement(el, idx).Failure? <==> BadElement(el)
  {
    if !Nullish(el) {
      var choices := Member(el, "choices");
      if choices.Arr? {
        var cs := choices.elems;
        assert forall j :: 0 <= j < |cs| ==> (MapChoice(cs[j], j).Failure? <==> Nullish(cs[j]));
        assert Traverse(cs, 0, MapChoice).Failure? <==> exists j :: 0 <= j < |cs| && MapChoice(cs[j], j).Failure?;
      }
    }
  }

  /** An element the normaliser cannot read. */
  ghost predicate BadElement(el: Json) {
    || Nullish(el)
    || var choices := Member(el, "choices");
       choices.Arr? && exists j :: 0 <= j < |choices.elems| && Nullish(choices.elems[j])
  }

  /** The positional default ids of two different positions differ. */
  lemma DefaultIdsDistinct(i: nat, j: nat)
    requires i != j
    ensures DefaultId(i) != DefaultId(j)
  {
    if DefaultId(i) == DefaultId(j) {
      assert DefaultId(i)[2..] == NatToString(i + 1);
      assert DefaultId(j)[2..] == NatToString(j + 1);
      NatToStringInjective(i + 1, j + 1);
    }
  }

  /** Ids are not unique in general: a named element can take the default
      id of a later unnamed one. */
  lemma DuplicateIdsPossible()
    ensures var incoming := Obj([Entry("questions", Arr([
                Obj([Entry("type", Str("text")), Entry("name", Str("q_2"))]),
                Obj([Entry("type", Str("text"))])]))]);
      && MapIncomingQuestions(incoming).Success?
      && |MapIncomingQuestions(incoming).value| == 2
      && MapIncomingQuestions(incoming).value[0].qId == MapIncomingQuestions(incoming).value[1].qId
  {
    var incoming := Obj([Entry("questions", Arr([
                Obj([Entry("type", Str("text")), Entry("name", Str("q_2"))]),
                Obj([Entry("type", Str("text"))])]))]);
    var qs := MapIncomingQuestions(incoming).value;
    assert NatToString(2) == "2";
    Normalised(incoming, qs);
  }

  /** The schema of a single-question survey: a required yes/no radio group. */
  const SurveySchema: Json := Obj([Entry("title", Str("Survey")), Entry("questions", Arr([SurveyElement]))])

  /** The schema's only element. */
  const SurveyElement: Json := Obj([
    Entry("name", Str("q1")),
    Entry("type", Str("radiogroup")),
    Entry("isRequired", Bool(true)),
    Entry("choices", Arr([Str("Yes"), Str("No")]))])

  const SurveyQuestion: Question :=
    Question(Str("q1"), "radio", Str("Question 1"), Undefined, true, [Choice("1", "Yes"), Choice("2", "No")])

  /** A single-question survey: the radio group keeps its name,
      becomes `radio`, is required, gets the default text and numbered
      options. */
  lemma SurveyNormalised()
    ensures MapIncomingQuestions(SurveySchema) == Success([SurveyQuestion])
  {
    var entries := SurveySchema.entries;
    assert entries[1..] == [Entry("questions", Arr([SurveyElement]))];
    assert Lookup(entries[1..], "questions") == Arr([SurveyElement]);
    assert Member(SurveySchema, "questions") == Arr([SurveyElement]);
    assert Member(SurveyElement, "type") == Str("radiogroup");
    assert Elements(SurveySchema) == Arr([SurveyElement]);
    SurveyElementNormalised();
    var qs := Traverse([SurveyElement], 0, MapElement);
    assert qs.Success? && |qs.value| == 1 && qs.value[0] == SurveyQuestion;
    assert qs.value == [SurveyQuestion];
  }

  lemma SurveyElementNormalised()
    ensures MapElement(SurveyElement, 0) == Success(SurveyQuestion)
  {
    SurveyChoicesNormalised();
    assert NatToString(1) == "1";
    assert DefaultText(0) == "Question 1";
    assert Member(SurveyElement, "choices") == Arr([Str("Yes"), Str("No")]);
    assert Member(SurveyElement, "type") == Str("radiogroup");
    assert Member(SurveyElement, "name") == Str("q1");
    assert Member(SurveyElement, "title") == Undefined;
    assert Member(SurveyElement, "text") == Undefined;
    assert Member(SurveyElement, "description") == Undefined;
    assert Member(SurveyElement, "isRequired") == Bool(true);
  }

  lemma SurveyChoicesNormalised()
    ensures Traverse([Str("Yes"), Str("No")], 0, MapChoice) == Success([Choice("1", "Yes"), Choice("2", "No")])
  {
    assert NatToString(1) == "1" && NatToString(2) == "2";
    assert MapChoice(Str("Yes"), 0) == Success(Choice("1", "Yes"));
    assert MapChoice(Str("No"), 1) == Success(Choice("2", "No"));
    var opts := Traverse([Str("Yes"), Str("No")], 0, MapChoice);
    assert opts.Success? && |opts.value| == 2;
    assert opts.value == [Choice("1", "Yes"), Choice("2", "No")];
  }

  /** `??` keeps a zero value and an empty text: an object option
      `{value: 0, text: "", label: "L"}` becomes `{val: "0", lbl: ""}`. */
  lemma FalsyOptionFieldsKept(i: nat)
    ensures MapChoice(Obj([Entry("value", Num(0)), Entry("text", Str("")), Entry("label", Str("L"))]), i)
      == Success(Choice("0", ""))
  {
    assert NatToString(0) == "0";
  }
}
