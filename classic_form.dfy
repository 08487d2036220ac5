/** The classic form editor (src/app/dashboard/classic-form-editor/classicForm.tsx):
    a list of question fields edited locally, reordered by drag and drop, and
    saved by creating the form and then posting its questions. */
module ClassicForm {
  import opened Collections
  import opened Text
  import EditFormTab

  /** `QuestionField.type` */
  datatype FieldType = InputField | TextareaField | RadioField

  /** A question field as the editor keeps it. */
  datatype QuestionField = QuestionField(
    id: string,
    text: string,
    ftype: FieldType,
    name: string,
    value: Option<string>,
    options: Option<seq<string>>)

  /** `findIndex(q => q.id === id)`: the first index with that id, or -1. */
  function FindIndex(qs: seq<QuestionField>, id: string): (i: int)
    ensures -1 <= i < |qs|
    ensures i == -1 <==> forall j :: 0 <= j < |qs| ==> qs[j].id != id
    ensures i >= 0 ==> qs[i].id == id && forall j :: 0 <= j < i ==> qs[j].id != id
  {
    if qs == [] then -1
    else if qs[0].id == id then 0
    else
      var k := FindIndex(qs[1..], id);
      if k == -1 then -1 else k + 1
  }

  /** `arrayMove(list, from, to)` of @dnd-kit/sortable, taken to remove the
      element at `from` and insert it again at `to`. Everything before both
      indices and everything after both indices stays where it was. */
  function ArrayMove<T>(s: seq<T>, from: nat, to: nat): (r: seq<T>)
    requires from < |s| && to < |s|
    ensures |r| == |s| && multiset(r) == multiset(s)
    ensures r[to] == s[from]
    ensures forall i :: 0 <= i < |s| && ((i < from && i < to) || (i > from && i > to)) ==> r[i] == s[i]
  {
    var rest := s[..from] + s[from + 1..];
    assert s == s[..from] + [s[from]] + s[from + 1..];
    assert multiset(s) == multiset(rest) + multiset{s[from]};
    assert rest == rest[..to] + rest[to..];
    var r := rest[..to] + [s[from]] + rest[to..];
    assert multiset(r) == multiset(rest[..to]) + multiset{s[from]} + multiset(rest[to..]);
    r
  }

  /** `handleDragEnd` with the dragged id and the id under the pointer, if any. */
  function DragEnd(qs: seq<QuestionField>, activeId: string, overId: Option<string>): (r: seq<QuestionField>)
    ensures |r| == |qs| && multiset(r) == multiset(qs)
    ensures overId == Some(activeId) || overId.None? ==> r == qs
    ensures FindIndex(qs, activeId) == -1 ==> r == qs
    ensures overId.Some? && FindIndex(qs, overId.value) == -1 ==> r == qs
    ensures (overId.Some? && overId.value != activeId
             && FindIndex(qs, activeId) >= 0 && FindIndex(qs, overId.value) >= 0) ==>
      r[FindIndex(qs, overId.value)] == qs[FindIndex(qs, activeId)]
  {
    if overId == Some(activeId) then qs
    else
      var oldIndex := FindIndex(qs, activeId);
      var newIndex := if overId.Some? then FindIndex(qs, overId.value) else -1;
      if oldIndex == -1 || newIndex == -1 then qs
      else ArrayMove(qs, oldIndex, newIndex)
  }

  /** A move to the element's own place changes nothing. */
  lemma ArrayMoveInPlace<T>(s: seq<T>, i: nat)
    requires i < |s|
    ensures ArrayMove(s, i, i) == s
  {
    var rest := s[..i] + s[i + 1..];
    assert rest[..i] == s[..i];
    assert rest[i..] == s[i + 1..];
    assert s == s[..i] + [s[i]] + s[i + 1..];
  }

  /** The two kinds of question the toolbar adds. */
  datatype NewKind = NewTextarea | NewRadio

  const NEW_QUESTION_TEXT: string := "New question"
  const DEFAULT_OPTIONS: seq<string> := ["Option 1", "Option 2"]

  /** `addQuestion(type)`; `stamp` stands for `Date.now().toString(36)`. */
  function AddQuestion(qs: seq<QuestionField>, kind: NewKind, stamp: string): (r: seq<QuestionField>)
    ensures |r| == |qs| + 1 && r[..|qs|] == qs
    ensures r[|qs|].id == "q" + stamp + NatToString(|qs| + 1)
    ensures r[|qs|].text == NEW_QUESTION_TEXT && r[|qs|].name == "field_" + r[|qs|].id
    ensures r[|qs|].value == Some("")
    ensures r[|qs|].ftype == (if kind == NewRadio then RadioField else TextareaField)
    ensures r[|qs|].options == Some(if kind == NewRadio then DEFAULT_OPTIONS else [])
  {
    var newId := "q" + stamp + NatToString(|qs| + 1);
    var q := QuestionField(newId, NEW_QUESTION_TEXT, if kind == NewRadio then RadioField else TextareaField,
                           "field_" + newId, Some(""), Some(if kind == NewRadio then DEFAULT_OPTIONS else []));
    assert (qs + [q])[..|qs|] == qs;
    qs + [q]
  }

  /** `onDelete(id)`: `filter(q => q.id !== id)`. */
  function Delete(qs: seq<QuestionField>, id: string): (r: seq<QuestionField>)
    ensures |r| <= |qs|
    ensures forall j :: 0 <= j < |r| ==> r[j].id != id
  {
    if qs == [] then [] else (if qs[0].id == id then [] else [qs[0]]) + Delete(qs[1..], id)
  }

  /** Delete keeps every other question as often as it was there and drops
      every question with the id. */
  lemma {:induction false} DeleteCounts(qs: seq<QuestionField>, id: string, x: QuestionField)
    ensures multiset(Delete(qs, id))[x] == if x.id == id then 0 else multiset(qs)[x]
  {
    if qs != [] {
      DeleteCounts(qs[1..], id, x);
      assert qs == [qs[0]] + qs[1..];
    }
  }

  /** Delete keeps the order of what it keeps: it acts on each part of a list
      separately. */
  lemma {:induction false} DeleteAppend(a: seq<QuestionField>, b: seq<QuestionField>, id: string)
    ensures Delete(a + b, id) == Delete(a, id) + Delete(b, id)
  {
    if a == [] {
      assert a + b == b;
    } else {
      var ab := a + b;
      assert ab[0] == a[0];
      assert ab[1..] == a[1..] + b;
      DeleteAppend(a[1..], b, id);
      var head := if a[0].id == id then [] else [a[0]];
      assert Delete(ab, id) == head + Delete(a[1..] + b, id);
      assert Delete(a, id) == head + Delete(a[1..], id);
    }
  }

  /** Deleting an id no question has changes nothing. */
  lemma {:induction false} DeleteAbsent(qs: seq<QuestionField>, id: string)
    requires forall j :: 0 <= j < |qs| ==> qs[j].id != id
    ensures Delete(qs, id) == qs
  {
    if qs != [] {
      DeleteAbsent(qs[1..], id);
    }
  }

  /** `onLabelChange(id, newLabel)` */
  function SetLabel(qs: seq<QuestionField>, id: string, newLabel: string): (r: seq<QuestionField>)
    ensures |r| == |qs|
    ensures forall i :: 0 <= i < |qs| && qs[i].id != id ==> r[i] == qs[i]
    ensures forall i :: 0 <= i < |qs| && qs[i].id == id ==> r[i] == qs[i].(text := newLabel)
  {
    if qs == [] then []
    else [if qs[0].id == id then qs[0].(text := newLabel) else qs[0]] + SetLabel(qs[1..], id, newLabel)
  }

  /** `onOptionsChange(id, newOptions)` */
  function SetOptions(qs: seq<QuestionField>, id: string, options: seq<string>): (r: seq<QuestionField>)
    ensures |r| == |qs|
    ensures forall i :: 0 <= i < |qs| && qs[i].id != id ==> r[i] == qs[i]
    ensures forall i :: 0 <= i < |qs| && qs[i].id == id ==> r[i] == qs[i].(options := Some(options))
  {
    if qs == [] then []
    else [if qs[0].id == id then qs[0].(options := Some(options)) else qs[0]] + SetOptions(qs[1..], id, options)
  }

  /** `String(opt).toLowerCase()`, for ASCII letters. */
  function Lower(s: string): (r: string)
    ensures |r| == |s|
    ensures forall i :: 0 <= i < |s| ==> r[i] == LowerChar(s[i])
  {
    if s == [] then [] else [LowerChar(s[0])] + Lower(s[1..])
  }

  /** No whitespace anywhere in the text. */
  predicate NoSpace(s: string) {
    forall i :: 0 <= i < |s| ==> !IsJsSpace(s[i])
  }

  /** No ASCII capital anywhere in the text. */
  predicate NoUpper(s: string) {
    forall i :: 0 <= i < |s| ==> !IsUpperAscii(s[i])
  }

  /** The text after a leading run of whitespace. */
  function SkipSpaces(s: string): (r: string)
    ensures |r| <= |s| && r == s[|s| - |r|..]
    ensures forall i :: 0 <= i < |s| - |r| ==> IsJsSpace(s[i])
    ensures r == [] || !IsJsSpace(r[0])
  {
    if s != [] && IsJsSpace(s[0]) then SkipSpaces(s[1..]) else s
  }

  /** What is left after the whitespace has no capital the text did not have. */
  lemma SkipSpacesNoUpper(s: string)
    ensures NoUpper(s) ==> NoUpper(SkipSpaces(s))
  {
    var r := SkipSpaces(s);
    if NoUpper(s) {
      forall i | 0 <= i < |r| ensures !IsUpperAscii(r[i]) {
        assert r[i] == s[|s| - |r| + i];
      }
    }
  }

  /** `replace(/\s+/g, "_")`: every maximal run of whitespace becomes one `_`. */
  function CollapseSpaces(s: string): (r: string)
    ensures |r| <= |s|
    ensures NoSpace(r)
    ensures NoUpper(s) ==> NoUpper(r)
    decreases |s|
  {
    if s == [] then []
    else if IsJsSpace(s[0]) then
      SkipSpacesNoUpper(s[1..]);
      "_" + CollapseSpaces(SkipSpaces(s[1..]))
    else [s[0]] + CollapseSpaces(s[1..])
  }

  /** The option value sent for an option's text. */
  function Slug(s: string): (r: string)
    ensures |r| <= |s|
    ensures forall i :: 0 <= i < |r| ==> !IsJsSpace(r[i]) && !IsUpperAscii(r[i])
  {
    var l := Lower(s);
    assert NoUpper(l);
    var r := CollapseSpaces(l);
    assert NoSpace(r) && NoUpper(r);
    r
  }

  lemma {:induction false} CollapseFixpoint(s: string)
    requires forall i :: 0 <= i < |s| ==> !IsJsSpace(s[i])
    ensures CollapseSpaces(s) == s
  {
    if s != [] {
      CollapseFixpoint(s[1..]);
    }
  }

  /** A text without whitespace or upper-case letters is its own slug. */
  lemma SlugFixpoint(s: string)
    requires forall i :: 0 <= i < |s| ==> !IsJsSpace(s[i]) && !IsUpperAscii(s[i])
    ensures Slug(s) == s
  {
    assert Lower(s) == s;
    CollapseFixpoint(s);
  }

  /** Taking the slug twice gives the same value as once. */
  lemma SlugIdempotent(s: string)
    ensures Slug(Slug(s)) == Slug(s)
  {
    SlugFixpoint(Slug(s));
  }

  lemma {:induction false} CollapseJoin(a: string, ws: string, b: string)
    requires NoSpace(a)
    requires ws != [] && forall i :: 0 <= i < |ws| ==> IsJsSpace(ws[i])
    requires b == [] || !IsJsSpace(b[0])
    ensures CollapseSpaces(a + ws + b) == a + "_" + CollapseSpaces(b)
    decreases |a|
  {
    var s := a + ws + b;
    if a == [] {
      assert s == ws + b && s[0] == ws[0];
      assert s[1..] == ws[1..] + b;
      SkipAll(ws[1..], b);
      assert CollapseSpaces(s) == "_" + CollapseSpaces(SkipSpaces(s[1..]));
    } else {
      var rest := a[1..] + ws + b;
      assert s[0] == a[0] && s[1..] == rest;
      CollapseJoin(a[1..], ws, b);
      assert CollapseSpaces(s) == [a[0]] + CollapseSpaces(rest);
      assert a == [a[0]] + a[1..];
    }
  }

  lemma {:induction false} SkipAll(ws: string, b: string)
    requires forall i :: 0 <= i < |ws| ==> IsJsSpace(ws[i])
    requires b == [] || !IsJsSpace(b[0])
    ensures SkipSpaces(ws + b) == b
  {
    if ws == [] {
      assert ws + b == b;
    } else {
      SkipAll(ws[1..], b);
      assert (ws + b)[1..] == ws[1..] + b;
    }
  }

  lemma LowerAppend(x: string, y: string)
    ensures Lower(x + y) == Lower(x) + Lower(y)
  {
  }

  /** Two words separated by a run of whitespace: the slug is the first word
      in lower case, one `_`, and the slug of the rest. */
  lemma SlugJoin(a: string, ws: string, b: string)
    requires forall i :: 0 <= i < |a| ==> !IsJsSpace(a[i])
    requires ws != [] && forall i :: 0 <= i < |ws| ==> IsJsSpace(ws[i])
    requires b == [] || !IsJsSpace(b[0])
    ensures Slug(a + ws + b) == Lower(a) + "_" + Slug(b)
  {
    LowerAppend(a, ws);
    LowerAppend(a + ws, b);
    var la, lw, lb := Lower(a), Lower(ws), Lower(b);
    assert Lower(a + ws + b) == la + lw + lb;
    forall i | 0 <= i < |la| ensures !IsJsSpace(la[i]) {
      assert la[i] == LowerChar(a[i]);
    }
    forall i | 0 <= i < |lw| ensures IsJsSpace(lw[i]) {
      assert lw[i] == LowerChar(ws[i]);
    }
    if lb != [] {
      assert lb[0] == LowerChar(b[0]);
    }
    CollapseJoin(la, lw, lb);
    assert Slug(a + ws + b) == CollapseSpaces(la + lw + lb);
    assert Slug(b) == CollapseSpaces(lb);
  }

  /** "Option n", for a digit n, has the slug "option_n". */
  lemma OptionSlug(d: char)
    requires IsDigit(d)
    ensures Slug("Option " + [d]) == "option_" + [d]
  {
    assert "Option " + [d] == "Option" + " " + [d];
    SlugJoin("Option", " ", [d]);
    SlugFixpoint([d]);
    var lo := Lower("Option");
    assert lo[0] == 'o' && lo[1] == 'p' && lo[2] == 't' && lo[3] == 'i' && lo[4] == 'o' && lo[5] == 'n';
    assert lo == "option";
  }

  /** The default options of a new multiple-choice question are "Option "
      followed by a digit, and the values the edit tab's new question carries
      are the slugs of its labels. */
  lemma NewOptionSlugs(o: EditFormTab.NewOption)
    requires o in EditFormTab.NEW_QUESTION.options
    ensures o.value == Slug(o.option)
  {
    var i :| 0 <= i < |EditFormTab.NEW_QUESTION.options| && EditFormTab.NEW_QUESTION.options[i] == o;
    NewQuestionOption(i);
    OptionSlug(DigitChar(i + 1));
  }

  /** Option `i` of a new multiple-choice question is "Option " and the digit `i + 1`. */
  lemma DefaultOption(i: nat)
    requires i < |DEFAULT_OPTIONS|
    ensures DEFAULT_OPTIONS[i] == "Option " + [DigitChar(i + 1)]
  {
  }

  lemma NewQuestionOption(i: nat)
    requires i < |EditFormTab.NEW_QUESTION.options|
    ensures EditFormTab.NEW_QUESTION.options[i] ==
      EditFormTab.NewOption("Option " + [DigitChar(i + 1)], "option_" + [DigitChar(i + 1)])
  {
  }

  /** The serialised question the API receives. */
  datatype ApiOption = ApiOption(text: string, value: string)
  datatype ApiQuestion = ApiQuestion(text: string, qtype: string, options: seq<ApiOption>)

  function MapOptions(os: seq<string>): (r: seq<ApiOption>)
    ensures |r| == |os|
    ensures forall i :: 0 <= i < |os| ==> r[i].text == os[i] && r[i].value == Slug(os[i])
  {
    if os == [] then [] else [ApiOption(os[0], Slug(os[0]))] + MapOptions(os[1..])
  }

  /** One question of `mappedQuestions`: the text is kept, a radio field becomes
      MULTIPLE_CHOICE and any other OPEN_ENDED, and each option keeps its text
      and gets a value without whitespace or upper-case letters. */
  function Serialise(q: QuestionField): (r: ApiQuestion)
    ensures r.text == q.text
    ensures r.qtype == "MULTIPLE_CHOICE" <==> q.ftype == RadioField
    ensures r.qtype == "MULTIPLE_CHOICE" || r.qtype == "OPEN_ENDED"
    ensures |r.options| == |q.options.GetOr([])|
    ensures forall i :: 0 <= i < |r.options| ==>
      && r.options[i].text == q.options.GetOr([])[i]
      && forall j :: 0 <= j < |r.options[i].value| ==>
           !IsJsSpace(r.options[i].value[j]) && !IsUpperAscii(r.options[i].value[j])
  {
    ApiQuestion(q.text, if q.ftype == RadioField then "MULTIPLE_CHOICE" else "OPEN_ENDED",
                MapOptions(q.options.GetOr([])))
  }

  /** `mappedQuestions`: one entry per question, in order. */
  function MappedQuestions(qs: seq<QuestionField>): (r: seq<ApiQuestion>)
    ensures |r| == |qs|
    ensures forall i :: 0 <= i < |qs| ==> r[i] == Serialise(qs[i])
  {
    if qs == [] then [] else [Serialise(qs[0])] + MappedQuestions(qs[1..])
  }

  /** Options "Option 1", "Option 2", ... serialise with the values
      "option_1", "option_2", ... */
  lemma DigitOptionsSerialised(os: seq<string>)
    requires |os| <= 9
    requires forall i :: 0 <= i < |os| ==> os[i] == "Option " + [DigitChar(i + 1)]
    ensures |MapOptions(os)| == |os|
    ensures forall i :: 0 <= i < |os| ==>
      MapOptions(os)[i] == ApiOption("Option " + [DigitChar(i + 1)], "option_" + [DigitChar(i + 1)])
  {
    forall i | 0 <= i < |os|
      ensures MapOptions(os)[i] == ApiOption("Option " + [DigitChar(i + 1)], "option_" + [DigitChar(i + 1)])
    {
      OptionSlug(DigitChar(i + 1));
    }
  }

  /** The default options serialise to "Option n" with the value "option_n". */
  lemma DefaultOptionsSerialised()
    ensures |MapOptions(DEFAULT_OPTIONS)| == 2
    ensures forall i :: 0 <= i < 2 ==>
      MapOptions(DEFAULT_OPTIONS)[i] == ApiOption("Option " + [DigitChar(i + 1)], "option_" + [DigitChar(i + 1)])
  {
    forall i | 0 <= i < 2 ensures DEFAULT_OPTIONS[i] == "Option " + [DigitChar(i + 1)] {
      DefaultOption(i);
    }
    DigitOptionsSerialised(DEFAULT_OPTIONS);
  }

  /** A question added by the toolbar is serialised after the earlier ones,
      which are unchanged, with the type of its kind and, for a multiple-choice
      question, the default options and their slugs. */
  lemma AddedQuestionSerialised(qs: seq<QuestionField>, kind: NewKind, stamp: string)
    ensures MappedQuestions(AddQuestion(qs, kind, stamp))[..|qs|] == MappedQuestions(qs)
    ensures MappedQuestions(AddQuestion(qs, kind, stamp))[|qs|].text == NEW_QUESTION_TEXT
    ensures MappedQuestions(AddQuestion(qs, kind, stamp))[|qs|].qtype ==
      (if kind == NewRadio then "MULTIPLE_CHOICE" else "OPEN_ENDED")
    ensures |MappedQuestions(AddQuestion(qs, kind, stamp))[|qs|].options| == (if kind == NewRadio then 2 else 0)
    ensures forall i :: 0 <= i < |MappedQuestions(AddQuestion(qs, kind, stamp))[|qs|].options| ==>
      MappedQuestions(AddQuestion(qs, kind, stamp))[|qs|].options[i] ==
        ApiOption("Option " + [DigitChar(i + 1)], "option_" + [DigitChar(i + 1)])
  {
    var r := AddQuestion(qs, kind, stamp);
    MappedPrefix(qs, r);
    var m := MappedQuestions(r);
    var opts := if kind == NewRadio then DEFAULT_OPTIONS else [];
    NewQuestionSerialised(r[|qs|], kind, opts);
    assert m[|qs|].options == MapOptions(opts);
    if kind == NewRadio {
      DefaultOptionsSerialised();
    }
  }

  lemma MappedPrefix(qs: seq<QuestionField>, r: seq<QuestionField>)
    requires |qs| <= |r| && r[..|qs|] == qs
    ensures MappedQuestions(r)[..|qs|] == MappedQuestions(qs)
  {
    var m := MappedQuestions(r);
    forall i | 0 <= i < |qs| ensures m[i] == MappedQuestions(qs)[i] {
      assert r[i] == r[..|qs|][i];
    }
  }

  lemma NewQuestionSerialised(q: QuestionField, kind: NewKind, opts: seq<string>)
    requires q.text == NEW_QUESTION_TEXT
    requires q.ftype == (if kind == NewRadio then RadioField else TextareaField)
    requires q.options == Some(opts)
    ensures Serialise(q).text == NEW_QUESTION_TEXT
    ensures Serialise(q).qtype == (if kind == NewRadio then "MULTIPLE_CHOICE" else "OPEN_ENDED")
    ensures Serialise(q).options == MapOptions(opts)
  {
  }

  /** What `onSaveComplete` receives. */
  datatype SaveResult = SaveResult(success: bool, formId: Option<string>, message: string)

  datatype SaveRequest =
    | CreateForm(auth: string, formName: string)
    | CreateFormQuestions(auth: string, formId: string, questions: seq<ApiQuestion>)

  /** Where a save is: idle, waiting for the new form, or waiting for its questions. */
  datatype SaveStage =
    | Idle
    | CreatingForm(snapshot: seq<QuestionField>, auth: string)
    | CreatingQuestions(formId: string)

  /** How the create-form request ended: an exception (with its message when it
      is an `Error`), a non-ok status with the body text, or an ok reply with the
      id found in `data.id`. */
  datatype FormReply = FormThrew(error: Option<string>) | FormFailed(status: nat, body: string) | FormCreated(id: Option<string>)

  /** How the create-questions request ended. */
  datatype QuestionsReply = QuestionsThrew(error: Option<string>) | QuestionsFailed(status: nat, body: string) | QuestionsSaved

  const NOT_AUTHENTICATED: string := "Not authenticated"
  const INVALID_FORM_ID: string := "Invalid form id returned"
  const FORM_SAVED: string := "Form saved"

  /** `formTitle || "Untitled Form"` */
  function FormNameOf(title: string): (n: string)
    ensures n != ""
    ensures title != "" ==> n == title
  {
    if title == "" then "Untitled Form" else title
  }

  /** `!token` is false: the token is present and non-empty. */
  predicate HasToken(token: Option<string>) {
    token.Some? && token.value != ""
  }

  /** `err instanceof Error ? err.message : "Save failed"` */
  function ThrownMessage(error: Option<string>): string {
    if error.Some? then error.value else "Save failed"
  }

  /** The message of an `Error` thrown for a non-ok status. */
  function FailedMessage(step: string, status: nat, body: string): string {
    step + " failed: " + NatToString(status) + " " + body
  }

  /** The form id is usable: present and not empty (`!formId` is false). */
  predicate UsableId(id: Option<string>) {
    id.Some? && id.value != ""
  }

  /** What an aborted create-form fetch can still deliver: the fetch or the
      body read rejects, or, when the status had already arrived and was not
      ok, the caught body read gives "". A created form cannot come back. */
  predicate AbortedFormReply(reply: FormReply) {
    reply.FormThrew? || (reply.FormFailed? && reply.body == "")
  }

  /** The same for the create-questions fetch. */
  predicate AbortedQuestionsReply(reply: QuestionsReply) {
    reply.QuestionsThrew? || (reply.QuestionsFailed? && reply.body == "")
  }

  /** The result a failed create-form step reports. */
  function FormFailure(reply: FormReply): (r: SaveResult)
    requires !(reply.FormCreated? && UsableId(reply.id))
    ensures !r.success && r.formId == None
  {
    match reply
    case FormThrew(e) => SaveResult(false, None, ThrownMessage(e))
    case FormFailed(st, b) => SaveResult(false, None, FailedMessage("create-form", st, b))
    case FormCreated(_) => SaveResult(false, None, INVALID_FORM_ID)
  }

  /** The result the create-questions step reports for form `id`. */
  function QuestionsOutcome(id: string, reply: QuestionsReply): (r: SaveResult)
    ensures r.success <==> reply == QuestionsSaved
    ensures r.success ==> r == SaveResult(true, Some(id), FORM_SAVED)
  {
    match reply
    case QuestionsThrew(e) => SaveResult(false, None, ThrownMessage(e))
    case QuestionsFailed(st, b) => SaveResult(false, None, FailedMessage("create-questions", st, b))
    case QuestionsSaved => SaveResult(true, Some(id), FORM_SAVED)
  }

  class ClassicFormEditor {
    var formTitle: string
    var questions: seq<QuestionField>
    var token: Option<string>
    /** The `saving` state and `savingRef.current`. */
    var saving: bool
    var savingRef: bool
    var stage: SaveStage
    /** The calls of `onSaveComplete` and `onSavingChange`, oldest first. */
    var results: seq<SaveResult>
    var savingChanges: seq<bool>
    var sent: seq<SaveRequest>
    /** The running save's `AbortController` has been aborted. */
    var aborted: bool

    /** A save is under way exactly while the guard is set, and only a
        running save can have been aborted. */
    ghost predicate Valid()
      reads this
    {
      && saving == savingRef
      && (savingRef <==> !stage.Idle?)
      && (aborted ==> !stage.Idle?)
    }

    /** The save button is disabled while saving or without a token. */
    predicate SaveDisabled()
      reads this
    {
      saving || !HasToken(token)
    }

    constructor(token: Option<string>)
      ensures formTitle == "" && questions == [] && this.token == token
      ensures !saving && !savingRef && stage == Idle
      ensures results == [] && savingChanges == [] && sent == [] && !aborted
      ensures Valid()
    {
      formTitle := "";
      questions := [];
      this.token := token;
      saving := false;
      savingRef := false;
      stage := Idle;
      results := [];
      savingChanges := [];
      sent := [];
      aborted := false;
    }

    /** Typing a title. The input is disabled while saving, so typing then
        changes nothing, and a save under way is never rebuilt by it. */
    method SetTitle(title: string)
      modifies this
      ensures formTitle == (if old(saving) then old(formTitle) else title)
      ensures questions == old(questions) && token == old(token) && aborted == old(aborted)
      ensures saving == old(saving) && savingRef == old(savingRef) && stage == old(stage)
      ensures results == old(results) && savingChanges == old(savingChanges) && sent == old(sent)
    {
      if !saving {
        formTitle := title;
      }
    }

    /** `setQuestions` with a new list built by one of the edits above. The
        new list rebuilds `handleSave`, whose effect cleanup aborts the
        controller of a save under way; the save goes on until its pending
        step rejects. */
    method SetQuestions(qs: seq<QuestionField>)
      requires Valid()
      modifies this
      ensures Valid()
      ensures questions == qs && formTitle == old(formTitle) && token == old(token)
      ensures aborted == (old(aborted) || !old(stage).Idle?)
      ensures saving == old(saving) && savingRef == old(savingRef) && stage == old(stage)
      ensures results == old(results) && savingChanges == old(savingChanges) && sent == old(sent)
    {
      questions := qs;
      if !stage.Idle? {
        aborted := true;
      }
    }

    /** `handleSave` up to the create-form request. A call while a save is
        under way does nothing; without a token the failure is reported and
        nothing is sent; otherwise the form is created under the title or
        "Untitled Form", and the questions are remembered for the next step. */
    method BeginSave()
      requires Valid()
      modifies this
      ensures Valid()
      ensures formTitle == old(formTitle) && questions == old(questions) && token == old(token)
      ensures aborted == old(aborted)
      ensures old(savingRef) ==>
        stage == old(stage) && savingRef && results == old(results)
        && savingChanges == old(savingChanges) && sent == old(sent)
      ensures !old(savingRef) && !HasToken(token) ==>
        && results == old(results) + [SaveResult(false, None, NOT_AUTHENTICATED)]
        && sent == old(sent) && !savingRef && stage == Idle && savingChanges == old(savingChanges)
      ensures !old(savingRef) && HasToken(token) ==>
        && savingRef && savingChanges == old(savingChanges) + [true]
        && sent == old(sent) + [CreateForm("Bearer " + token.value, FormNameOf(formTitle))]
        && stage == CreatingForm(questions, "Bearer " + token.value)
        && results == old(results)
    {
      if savingRef {
        return;
      }
      if !HasToken(token) {
        results := results + [SaveResult(false, None, NOT_AUTHENTICATED)];
        return;
      }
      savingRef := true;
      saving := true;
      savingChanges := savingChanges + [true];
      var auth := "Bearer " + token.value;
      sent := sent + [CreateForm(auth, FormNameOf(formTitle))];
      stage := CreatingForm(questions, auth);
    }

    /** The `finally` block, after `onSaveComplete` has been called. */
    method Finish(r: SaveResult)
      modifies this
      ensures results == old(results) + [r]
      ensures !saving && !savingRef && stage == Idle && savingChanges == old(savingChanges) + [false]
      ensures formTitle == old(formTitle) && questions == old(questions) && token == old(token) && sent == old(sent)
      ensures !aborted
    {
      aborted := false;
      results := results + [r];
      savingRef := false;
      saving := false;
      savingChanges := savingChanges + [false];
      stage := Idle;
    }

    /** The reply to the create-form request: only a usable form id lets the
        questions be posted, serialised as they were when the save began;
        every other reply ends the save with its error. After an abort the
        reply is one an aborted fetch gives, so the save fails. */
    method CompleteCreateForm(reply: FormReply)
      requires Valid() && stage.CreatingForm?
      requires aborted ==> AbortedFormReply(reply)
      modifies this
      ensures Valid()
      ensures old(aborted) ==> !savingRef && stage == Idle && |results| > 0 && !results[|results| - 1].success
      ensures !aborted
      ensures formTitle == old(formTitle) && questions == old(questions) && token == old(token)
      ensures reply.FormCreated? && UsableId(reply.id) ==>
        && sent == old(sent) + [CreateFormQuestions(old(stage).auth, reply.id.value, MappedQuestions(old(stage).snapshot))]
        && stage == CreatingQuestions(reply.id.value)
        && savingRef && results == old(results) && savingChanges == old(savingChanges)
      ensures !(reply.FormCreated? && UsableId(reply.id)) ==>
        && results == old(results) + [FormFailure(reply)]
        && sent == old(sent) && !savingRef && stage == Idle
        && savingChanges == old(savingChanges) + [false]
    {
      if reply.FormCreated? && UsableId(reply.id) {
        var id := reply.id.value;
        sent := sent + [CreateFormQuestions(stage.auth, id, MappedQuestions(stage.snapshot))];
        stage := CreatingQuestions(id);
      } else {
        Finish(FormFailure(reply));
      }
    }

    /** The reply to the create-questions request; the save ends either way,
        and after an abort it fails although the form was created. */
    method CompleteCreateQuestions(reply: QuestionsReply)
      requires Valid() && stage.CreatingQuestions?
      requires aborted ==> AbortedQuestionsReply(reply)
      modifies this
      ensures Valid() && !aborted
      ensures old(aborted) ==> |results| > 0 && !results[|results| - 1].success && results[|results| - 1].formId == None
      ensures results == old(results) + [QuestionsOutcome(old(stage).formId, reply)]
      ensures !saving && !savingRef && stage == Idle && savingChanges == old(savingChanges) + [false]
      ensures formTitle == old(formTitle) && questions == old(questions) && token == old(token) && sent == old(sent)
    {
      Finish(QuestionsOutcome(stage.formId, reply));
    }

    /** One whole save from an idle editor, with the replies it gets: it
        reports exactly one result, leaves the guard cleared, and succeeds
        exactly when there is a token, the form got a usable id and the
        questions were saved. */
    method Save(formReply: FormReply, questionsReply: QuestionsReply)
      requires Valid() && !savingRef
      modifies this
      ensures Valid() && !savingRef && stage == Idle
      ensures |results| == |old(results)| + 1 && results[..|old(results)|] == old(results)
      ensures results[|old(results)|].success <==>
        HasToken(token) && formReply.FormCreated? && UsableId(formReply.id) && questionsReply == QuestionsSaved
      ensures !HasToken(token) ==> sent == old(sent)
      ensures HasToken(token) && !(formReply.FormCreated? && UsableId(formReply.id)) ==>
        sent == old(sent) + [CreateForm("Bearer " + token.value, FormNameOf(formTitle))]
      ensures HasToken(token) && formReply.FormCreated? && UsableId(formReply.id) ==>
        sent == old(sent) + [CreateForm("Bearer " + token.value, FormNameOf(formTitle)),
                             CreateFormQuestions("Bearer " + token.value, formReply.id.value, MappedQuestions(questions))]
      ensures formTitle == old(formTitle) && questions == old(questions) && token == old(token)
      ensures !aborted
    {
      BeginSave();
      if stage.CreatingForm? {
        CompleteCreateForm(formReply);
        if stage.CreatingQuestions? {
          CompleteCreateQuestions(questionsReply);
        }
      }
      assert results[..|old(results)|] == old(results);
    }

    /** A save whose question list is edited while the form is being
        created: the questions are never sent and the save fails. */
    method SaveEditedDuringCreate(qs: seq<QuestionField>, formReply: FormReply)
      requires Valid() && !savingRef && HasToken(token) && AbortedFormReply(formReply)
      modifies this
      ensures questions == qs && formTitle == old(formTitle) && token == old(token)
      ensures Valid() && !savingRef && stage == Idle && !aborted
      ensures |results| == |old(results)| + 1 && !results[|results| - 1].success
      ensures sent == old(sent) + [CreateForm("Bearer " + token.value, FormNameOf(formTitle))]
    {
      BeginSave();
      SetQuestions(qs);
      CompleteCreateForm(formReply);
    }

    /** A save whose question list is edited after the form was created: the
        old list's questions were already sent, yet the save reports failure
        and no form id, so the created form is left without its result. */
    method SaveEditedDuringQuestions(formReply: FormReply, qs: seq<QuestionField>, questionsReply: QuestionsReply)
      requires Valid() && !savingRef && HasToken(token)
      requires formReply.FormCreated? && UsableId(formReply.id) && AbortedQuestionsReply(questionsReply)
      modifies this
      ensures questions == qs && formTitle == old(formTitle) && token == old(token)
      ensures Valid() && !savingRef && stage == Idle && !aborted
      ensures |results| == |old(results)| + 1
      ensures !results[|results| - 1].success && results[|results| - 1].formId == None
      ensures sent == old(sent) + [CreateForm("Bearer " + token.value, FormNameOf(formTitle)),
                                   CreateFormQuestions("Bearer " + token.value, formReply.id.value,
                                                       MappedQuestions(old(questions)))]
    {
      BeginSave();
      CompleteCreateForm(formReply);
      SetQuestions(qs);
      CompleteCreateQuestions(questionsReply);
    }
  }
}
