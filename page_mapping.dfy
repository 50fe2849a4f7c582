/** Mapping a Notion database page to a quiz: `extract_proposition` and
    `generate_simple_quiz`. A page's properties are a dictionary from property
    name to a typed property object; a lookup that Python would fail with
    KeyError or IndexError yields a `Failure`. */
module PageMapping {
  import opened Wrappers
  import opened Poll

  /** One element of a `rich_text` or `title` list; only `plain_text` is read. */
  datatype RichText = RichText(plainText: string)

  /** A Notion property object, by type. Each type carries its value under the
      key named after the type (`unique_id`, `title`, `rich_text`, `checkbox`);
      every other type (select, date, files, ...) is `OtherProp`. */
  datatype Prop =
    | UniqueIdProp(number: int)
    | TitleProp(title: seq<RichText>)
    | RichTextProp(richText: seq<RichText>)
    | CheckboxProp(checkbox: bool)
    | OtherProp

  datatype Page = Page(id: string, properties: map<string, Prop>)

  /** The property types the mapping reads. */
  datatype Kind = UniqueIdKind | TitleKind | RichTextKind | CheckboxKind

  /** One property read: the property name and the type it must have. */
  datatype Field = Field(key: string, kind: Kind)

  /** The key under which a property object of this type holds its value. */
  function KindKey(kind: Kind): string {
    match kind
    case UniqueIdKind => "unique_id"
    case TitleKind => "title"
    case RichTextKind => "rich_text"
    case CheckboxKind => "checkbox"
  }

  predicate HasKind(p: Prop, kind: Kind) {
    match kind
    case UniqueIdKind => p.UniqueIdProp?
    case TitleKind => p.TitleProp?
    case RichTextKind => p.RichTextProp?
    case CheckboxKind => p.CheckboxProp?
  }

  /** What reading field `f` raises: KeyError for a missing property, KeyError on
      the type's key for a property of another type, IndexError for `[0]` on an
      empty `title` or `rich_text` list; None when the read succeeds. */
  function ReadError(props: map<string, Prop>, f: Field): Option<PyError> {
    if f.key !in props then Some(KeyError(f.key))
    else if !HasKind(props[f.key], f.kind) then Some(KeyError(KindKey(f.kind)))
    else
      match props[f.key]
      case TitleProp(t) => if |t| == 0 then Some(IndexError) else None
      case RichTextProp(t) => if |t| == 0 then Some(IndexError) else None
      case _ => None
  }

  /** The error of the first failing read when `fields` are read in order. */
  function FirstReadError(props: map<string, Prop>, fields: seq<Field>): Option<PyError> {
    if fields == [] then None
    else if ReadError(props, fields[0]).Some? then ReadError(props, fields[0])
    else FirstReadError(props, fields[1..])
  }

  /** The reads `extract_proposition` makes for proposition `name`, in order. */
  function PropositionFields(name: string): seq<Field> {
    [Field(name + " answer", RichTextKind), Field(name, CheckboxKind)]
  }

  const Letters: seq<string> := ["A", "B", "C", "D"]

  /** The reads `generate_simple_quiz` makes, in the order Python makes them. */
  const QuizFields: seq<Field> :=
    [Field("ID", UniqueIdKind), Field("Statement", TitleKind)]
    + PropositionFields("A") + PropositionFields("B")
    + PropositionFields("C") + PropositionFields("D")

  /** `props[key]["unique_id"]["number"]` */
  function UniqueIdNumber(props: map<string, Prop>, key: string): (r: Result<int, PyError>)
    ensures r.ErrorOption() == ReadError(props, Field(key, UniqueIdKind))
    ensures r.Success? ==> key in props && props[key] == UniqueIdProp(r.value)
  {
    if key !in props then Failure(KeyError(key))
    else
      match props[key]
      case UniqueIdProp(n) => Success(n)
      case _ => Failure(KeyError("unique_id"))
  }

  /** `props[key]["title"][0]["plain_text"]` */
  function FirstTitleText(props: map<string, Prop>, key: string): (r: Result<string, PyError>)
    ensures r.ErrorOption() == ReadError(props, Field(key, TitleKind))
    ensures r.Success? ==>
      key in props && props[key].TitleProp? && |props[key].title| > 0 &&
      r.value == props[key].title[0].plainText
  {
    if key !in props then Failure(KeyError(key))
    else
      match props[key]
      case TitleProp(t) => if |t| == 0 then Failure(IndexError) else Success(t[0].plainText)
      case _ => Failure(KeyError("title"))
  }

  /** `props[key]["rich_text"][0]["plain_text"]` */
  function FirstRichText(props: map<string, Prop>, key: string): (r: Result<string, PyError>)
    ensures r.ErrorOption() == ReadError(props, Field(key, RichTextKind))
    ensures r.Success? ==>
      key in props && props[key].RichTextProp? && |props[key].richText| > 0 &&
      r.value == props[key].richText[0].plainText
  {
    if key !in props then Failure(KeyError(key))
    else
      match props[key]
      case RichTextProp(t) => if |t| == 0 then Failure(IndexError) else Success(t[0].plainText)
      case _ => Failure(KeyError("rich_text"))
  }

  /** `props[key]["checkbox"]` */
  function CheckboxValue(props: map<string, Prop>, key: string): (r: Result<bool, PyError>)
    ensures r.ErrorOption() == ReadError(props, Field(key, CheckboxKind))
    ensures r.Success? ==> key in props && props[key] == CheckboxProp(r.value)
  {
    if key !in props then Failure(KeyError(key))
    else
      match props[key]
      case CheckboxProp(b) => Success(b)
      case _ => Failure(KeyError("checkbox"))
  }

  /** `extract_proposition`: the text comes from `"<name> answer"`, the flag from
      `<name>`; the text is read first, so its error wins. */
  function ExtractProposition(props: map<string, Prop>, name: string): (r: Result<Proposition, PyError>)
    ensures r.ErrorOption() == FirstReadError(props, PropositionFields(name))
    ensures r.Success? ==>
      name + " answer" in props && props[name + " answer"].RichTextProp? &&
      |props[name + " answer"].richText| > 0 &&
      name in props && props[name].CheckboxProp? &&
      r.value == Proposition(props[name + " answer"].richText[0].plainText, props[name].checkbox)
  {
    var fields := PropositionFields(name);
    assert FirstReadError(props, fields[1..][1..]) == None;
    var text :- FirstRichText(props, name + " answer");
    var isCorrect :- CheckboxValue(props, name);
    Success(Proposition(text, isCorrect))
  }

  /** `generate_simple_quiz`, as a value: the id, the question and the four
      propositions A, B, C, D. */
  function SimpleQuiz(page: Page): (r: Result<Quiz, PyError>)
    ensures r.Success? ==>
      var props := page.properties;
      "ID" in props && props["ID"].UniqueIdProp? && r.value.id == props["ID"].number &&
      "Statement" in props && props["Statement"].TitleProp? && |props["Statement"].title| > 0 &&
      r.value.question == props["Statement"].title[0].plainText
    ensures r.Success? ==>
      var props := page.properties;
      |r.value.answers| == 4 &&
      forall i :: 0 <= i < 4 ==>
        Letters[i] + " answer" in props && props[Letters[i] + " answer"].RichTextProp? &&
        |props[Letters[i] + " answer"].richText| > 0 &&
        Letters[i] in props && props[Letters[i]].CheckboxProp? &&
        r.value.answers[i] ==
          Proposition(props[Letters[i] + " answer"].richText[0].plainText, props[Letters[i]].checkbox)
  {
    var props := page.properties;
    var questionId :- UniqueIdNumber(props, "ID");
    var questionText :- FirstTitleText(props, "Statement");
    var a :- ExtractProposition(props, "A");
    var b :- ExtractProposition(props, "B");
    var c :- ExtractProposition(props, "C");
    var d :- ExtractProposition(props, "D");
    Success(Quiz(questionId, questionText, [a, b, c, d]))
  }

  /** `generate_simple_quiz`: appends the four propositions one by one. */
  method GenerateSimpleQuiz(page: Page) returns (r: Result<Quiz, PyError>)
    ensures r == SimpleQuiz(page)
  {
    var props := page.properties;
    var questionId :- UniqueIdNumber(props, "ID");
    var questionText :- FirstTitleText(props, "Statement");
    var propositions: seq<Proposition> := [];
    var a :- ExtractProposition(props, "A");
    propositions := propositions + [a];
    var b :- ExtractProposition(props, "B");
    propositions := propositions + [b];
    var c :- ExtractProposition(props, "C");
    propositions := propositions + [c];
    var d :- ExtractProposition(props, "D");
    propositions := propositions + [d];
    assert propositions == [a, b, c, d];
    r := Success(Quiz(questionId, questionText, propositions));
  }

  /** Reading a concatenation fails at the first list's error, if any. */
  lemma {:induction false} FirstReadErrorAppend(props: map<string, Prop>, xs: seq<Field>, ys: seq<Field>)
    ensures FirstReadError(props, xs + ys) ==
      if FirstReadError(props, xs).Some? then FirstReadError(props, xs) else FirstReadError(props, ys)
  {
    if xs != [] {
      assert (xs + ys)[0] == xs[0];
      assert (xs + ys)[1..] == xs[1..] + ys;
      FirstReadErrorAppend(props, xs[1..], ys);
    } else {
      assert xs + ys == ys;
    }
  }

  /** A sequence of reads raises nothing exactly when every read succeeds. */
  lemma {:induction false} FirstReadErrorNone(props: map<string, Prop>, fields: seq<Field>)
    ensures FirstReadError(props, fields).None? <==>
      forall i :: 0 <= i < |fields| ==> ReadError(props, fields[i]).None?
  {
    if fields != [] {
      FirstReadErrorNone(props, fields[1..]);
      assert forall i :: 1 <= i < |fields| ==> fields[i] == fields[1..][i - 1];
    }
  }

  /** The mapping raises exactly the error of the first failing read in the
      order ID, Statement, A answer, A, B answer, B, C answer, C, D answer, D. */
  lemma SimpleQuizError(page: Page)
    ensures SimpleQuiz(page).ErrorOption() == FirstReadError(page.properties, QuizFields)
  {
    var props := page.properties;
    var head := [Field("ID", UniqueIdKind), Field("Statement", TitleKind)];
    assert FirstReadError(props, head[1..][1..]) == None;
    var pa, pb := PropositionFields("A"), PropositionFields("B");
    var pc, pd := PropositionFields("C"), PropositionFields("D");
    FirstReadErrorAppend(props, head, pa);
    FirstReadErrorAppend(props, head + pa, pb);
    FirstReadErrorAppend(props, head + pa + pb, pc);
    FirstReadErrorAppend(props, head + pa + pb + pc, pd);
    var _ := ExtractProposition(props, "A");
    var _ := ExtractProposition(props, "B");
    var _ := ExtractProposition(props, "C");
    var _ := ExtractProposition(props, "D");
  }

  /** The mapping succeeds exactly when all ten reads succeed. */
  lemma SimpleQuizSucceedsIff(page: Page)
    ensures SimpleQuiz(page).Success? <==>
      forall i :: 0 <= i < |QuizFields| ==> ReadError(page.properties, QuizFields[i]).None?
  {
    SimpleQuizError(page);
    FirstReadErrorNone(page.properties, QuizFields);
  }
}
