/** The edit tab of a saved form (src/components/editFormTab.tsx): local edits
    of the questions and their options, mirrored to the parent at once, and the
    requests that save a rename, a question, an option or a new question. */
module EditFormTab {
  import opened Collections

  datatype QuestionOption = QuestionOption(id: string, option: string, value: string)

  /** A saved question; `options` is `None` when the server sent none. */
  datatype Question = Question(
    id: string,
    text: string,
    qtype: string,
    required: bool,
    options: Option<seq<QuestionOption>>)

  /** The `Partial<Question>` the inputs pass: one of text, type or required. */
  datatype QuestionUpdate = QuestionUpdate(text: Option<string>, qtype: Option<string>, required: Option<bool>)

  /** The `Partial<QuestionOption>` the option inputs pass. */
  datatype OptionUpdate = OptionUpdate(option: Option<string>, value: Option<string>)

  /** `{ ...q, ...updates }`: the fields present in the update replace those of
      the question; everything else is kept. */
  function Merge(q: Question, u: QuestionUpdate): (r: Question)
    ensures r.id == q.id && r.options == q.options
    ensures r.text == (if u.text.Some? then u.text.value else q.text)
    ensures r.qtype == (if u.qtype.Some? then u.qtype.value else q.qtype)
    ensures r.required == (if u.required.Some? then u.required.value else q.required)
  {
    q.(text := u.text.GetOr(q.text), qtype := u.qtype.GetOr(q.qtype), required := u.required.GetOr(q.required))
  }

  /** `{ ...o, ...updates }` */
  function MergeOption(o: QuestionOption, u: OptionUpdate): (r: QuestionOption)
    ensures r.id == o.id
    ensures r.option == (if u.option.Some? then u.option.value else o.option)
    ensures r.value == (if u.value.Some? then u.value.value else o.value)
  {
    o.(option := u.option.GetOr(o.option), value := u.value.GetOr(o.value))
  }

  /** The list `updateQuestionState(id, updates)` builds: the questions with
      that id are merged with the update, all others are kept, in order. */
  function UpdateQuestions(qs: seq<Question>, id: string, u: QuestionUpdate): (r: seq<Question>)
    ensures |r| == |qs|
    ensures forall i :: 0 <= i < |qs| && qs[i].id != id ==> r[i] == qs[i]
    ensures forall i :: 0 <= i < |qs| && qs[i].id == id ==> r[i] == Merge(qs[i], u)
  {
    if qs == [] then []
    else [if qs[0].id == id then Merge(qs[0], u) else qs[0]] + UpdateQuestions(qs[1..], id, u)
  }

  /** `(q.options || []).map(o => o.id === optId ? { ...o, ...updates } : o)` */
  function UpdateOptionList(os: seq<QuestionOption>, optId: string, u: OptionUpdate): (r: seq<QuestionOption>)
    ensures |r| == |os|
    ensures forall i :: 0 <= i < |os| && os[i].id != optId ==> r[i] == os[i]
    ensures forall i :: 0 <= i < |os| && os[i].id == optId ==> r[i] == MergeOption(os[i], u)
  {
    if os == [] then []
    else [if os[0].id == optId then MergeOption(os[0], u) else os[0]] + UpdateOptionList(os[1..], optId, u)
  }

  /** The list `updateOptionState(qId, optId, updates)` builds: every question
      with id `qId` gets its option list, or an empty one when it had none, with
      the options of id `optId` merged; other questions are kept as they are. */
  function UpdateOptions(qs: seq<Question>, qId: string, optId: string, u: OptionUpdate): (r: seq<Question>)
    ensures |r| == |qs|
    ensures forall i :: 0 <= i < |qs| && qs[i].id != qId ==> r[i] == qs[i]
    ensures forall i :: 0 <= i < |qs| && qs[i].id == qId ==>
      && r[i] == qs[i].(options := r[i].options)
      && r[i].options == Some(UpdateOptionList(qs[i].options.GetOr([]), optId, u))
  {
    if qs == [] then []
    else
      var q := qs[0];
      var q' := if q.id != qId then q else q.(options := Some(UpdateOptionList(q.options.GetOr([]), optId, u)));
      [q'] + UpdateOptions(qs[1..], qId, optId, u)
  }

  /** Applying the same update twice is applying it once. */
  lemma UpdateQuestionsIdempotent(qs: seq<Question>, id: string, u: QuestionUpdate)
    ensures UpdateQuestions(UpdateQuestions(qs, id, u), id, u) == UpdateQuestions(qs, id, u)
  {
  }

  /** Updates of two different questions do not interfere. */
  lemma UpdateQuestionsCommute(qs: seq<Question>, id1: string, u1: QuestionUpdate, id2: string, u2: QuestionUpdate)
    requires id1 != id2
    ensures UpdateQuestions(UpdateQuestions(qs, id1, u1), id2, u2)
         == UpdateQuestions(UpdateQuestions(qs, id2, u2), id1, u1)
  {
  }

  /** `Bearer ${token}`: a missing token is sent as the text "null". */
  function BearerHeader(token: Option<string>): string {
    "Bearer " + (if token.Some? then token.value else "null")
  }

  datatype NewOption = NewOption(option: string, value: string)
  datatype NewQuestion = NewQuestion(text: string, qtype: string, required: bool, options: seq<NewOption>)

  /** `newQuestionPayload` */
  const NEW_QUESTION: NewQuestion :=
    NewQuestion("Untitled Question", "MULTIPLE_CHOICE", false,
                [NewOption("Option 1", "option_1"), NewOption("Option 2", "option_2")])

  /** The requests the tab sends, with their bodies. */
  datatype Request =
    | UpdateForm(formId: string, auth: string, formName: string)
    | UpdateQuestion(questionId: string, auth: string, text: string, qtype: string, required: bool)
    | UpdateOption(optionId: string, auth: string, option: string, value: string)
    | CreateQuestions(formId: string, auth: string, questions: seq<NewQuestion>)

  /** A request whose reply has not come back yet, with what its handler
      captured when it was sent. */
  datatype Pending =
    | NameSave(name: string)
    | QuestionSave
    | OptionSave
    | Create(snapshot: seq<Question>)

  /** How a request ended: an ok status, another status, or an exception. */
  datatype Reply = Ok | NotOk | Threw

  /** How the create request ended: an exception, or the parsed JSON body with
      its `status` and its `data` when that is an array. */
  datatype CreateReply = CreateThrew | CreateJson(status: Option<string>, data: Option<seq<Question>>)

  /** `json.status === "ok" && Array.isArray(json.data)` */
  predicate Created(reply: CreateReply) {
    reply.CreateJson? && reply.status == Some("ok") && reply.data.Some?
  }

  /** The saving slot shown next to the form name. */
  const FORM_NAME_SLOT: string := "form-name"

  class EditFormTab {
    const formId: string
    /** `formDetails.formName`, as the parent passed it. */
    const savedName: Option<string>
    const token: Option<string>

    var formName: string
    var questions: seq<Question>
    var savingId: Option<string>
    var isCreating: bool

    /** The list the parent last received through `onUpdateQuestions`. */
    var parentQuestions: seq<Question>
    /** The names passed to `onUpdateFormName`, oldest first. */
    var reportedNames: seq<string>
    /** Every request sent, oldest first. */
    var sent: seq<Request>
    /** The requests still waiting for a reply. */
    ghost var pending: multiset<Pending>

    /** The local list and the parent's list are the same. */
    ghost predicate Valid()
      reads this
    {
      parentQuestions == questions
    }

    constructor(formId: string, savedName: Option<string>, initialQuestions: seq<Question>, token: Option<string>)
      ensures this.formId == formId && this.savedName == savedName && this.token == token
      ensures formName == (if savedName.Some? then savedName.value else "")
      ensures questions == initialQuestions && savingId == None && !isCreating
      ensures reportedNames == [] && sent == [] && pending == multiset{}
      ensures Valid()
    {
      this.formId := formId;
      this.savedName := savedName;
      this.token := token;
      formName := savedName.GetOr("");
      questions := initialQuestions;
      savingId := None;
      isCreating := false;
      parentQuestions := initialQuestions;
      reportedNames := [];
      sent := [];
      pending := multiset{};
    }

    /** Typing in the name input. */
    method SetFormName(name: string)
      modifies this
      ensures formName == name
      ensures questions == old(questions) && parentQuestions == old(parentQuestions)
      ensures savingId == old(savingId) && isCreating == old(isCreating)
      ensures sent == old(sent) && reportedNames == old(reportedNames) && pending == old(pending)
    {
      formName := name;
    }

    /** `handleQuestionChange`: the new list goes to the local state and to the parent. */
    method HandleQuestionChange(newQuestions: seq<Question>)
      modifies this
      ensures questions == newQuestions && Valid()
      ensures formName == old(formName) && savingId == old(savingId) && isCreating == old(isCreating)
      ensures sent == old(sent) && reportedNames == old(reportedNames) && pending == old(pending)
    {
      questions := newQuestions;
      parentQuestions := newQuestions;
    }

    method UpdateQuestionState(id: string, u: QuestionUpdate)
      modifies this
      ensures questions == UpdateQuestions(old(questions), id, u) && Valid()
      ensures formName == old(formName) && savingId == old(savingId) && isCreating == old(isCreating)
      ensures sent == old(sent) && reportedNames == old(reportedNames) && pending == old(pending)
    {
      HandleQuestionChange(UpdateQuestions(questions, id, u));
    }

    method UpdateOptionState(qId: string, optId: string, u: OptionUpdate)
      modifies this
      ensures questions == UpdateOptions(old(questions), qId, optId, u) && Valid()
      ensures formName == old(formName) && savingId == old(savingId) && isCreating == old(isCreating)
      ensures sent == old(sent) && reportedNames == old(reportedNames) && pending == old(pending)
    {
      HandleQuestionChange(UpdateOptions(questions, qId, optId, u));
    }

    /** `handleNameBlur` up to its request: nothing happens when the name is the
        one the form was opened with; otherwise the rename is sent. */
    method BeginNameBlur()
      modifies this
      ensures Some(old(formName)) == savedName ==>
        sent == old(sent) && savingId == old(savingId) && pending == old(pending)
      ensures Some(old(formName)) != savedName ==>
        && sent == old(sent) + [UpdateForm(formId, BearerHeader(token), formName)]
        && savingId == Some(FORM_NAME_SLOT)
        && pending == old(pending) + multiset{NameSave(formName)}
      ensures formName == old(formName) && questions == old(questions) && parentQuestions == old(parentQuestions)
      ensures isCreating == old(isCreating) && reportedNames == old(reportedNames)
    {
      if Some(formName) == savedName {
        return;
      }
      savingId := Some(FORM_NAME_SLOT);
      sent := sent + [UpdateForm(formId, BearerHeader(token), formName)];
      pending := pending + multiset{NameSave(formName)};
    }

    /** The rest of `handleNameBlur`: the parent hears of the new name only on an
        ok reply; the saving slot is cleared on every path. */
    method CompleteNameBlur(name: string, reply: Reply)
      requires NameSave(name) in pending
      modifies this
      ensures reportedNames == old(reportedNames) + (if reply == Ok then [name] else [])
      ensures savingId == None
      ensures pending == old(pending) - multiset{NameSave(name)}
      ensures formName == old(formName) && questions == old(questions) && parentQuestions == old(parentQuestions)
      ensures isCreating == old(isCreating) && sent == old(sent)
    {
      if reply == Ok {
        reportedNames := reportedNames + [name];
      }
      savingId := None;
      pending := pending - multiset{NameSave(name)};
    }

    /** `saveQuestion(q)` up to its request: only text, type and required are sent. */
    method BeginSaveQuestion(q: Question)
      modifies this
      ensures sent == old(sent) + [UpdateQuestion(q.id, BearerHeader(token), q.text, q.qtype, q.required)]
      ensures savingId == Some(q.id)
      ensures pending == old(pending) + multiset{QuestionSave}
      ensures formName == old(formName) && questions == old(questions) && parentQuestions == old(parentQuestions)
      ensures isCreating == old(isCreating) && reportedNames == old(reportedNames)
    {
      savingId := Some(q.id);
      sent := sent + [UpdateQuestion(q.id, BearerHeader(token), q.text, q.qtype, q.required)];
      pending := pending + multiset{QuestionSave};
    }

    /** `saveOption(opt)` up to its request: the option's label and value are sent. */
    method BeginSaveOption(opt: QuestionOption)
      modifies this
      ensures sent == old(sent) + [UpdateOption(opt.id, BearerHeader(token), opt.option, opt.value)]
      ensures savingId == Some(opt.id)
      ensures pending == old(pending) + multiset{OptionSave}
      ensures formName == old(formName) && questions == old(questions) && parentQuestions == old(parentQuestions)
      ensures isCreating == old(isCreating) && reportedNames == old(reportedNames)
    {
      savingId := Some(opt.id);
      sent := sent + [UpdateOption(opt.id, BearerHeader(token), opt.option, opt.value)];
      pending := pending + multiset{OptionSave};
    }

    /** The end of `saveQuestion` or `saveOption`: whatever the reply, the saving
        slot is cleared, even when another save is still waiting. */
    method CompleteSave(p: Pending)
      requires (p == QuestionSave || p == OptionSave) && p in pending
      modifies this
      ensures savingId == None
      ensures pending == old(pending) - multiset{p}
      ensures formName == old(formName) && questions == old(questions) && parentQuestions == old(parentQuestions)
      ensures isCreating == old(isCreating) && sent == old(sent) && reportedNames == old(reportedNames)
    {
      savingId := None;
      pending := pending - multiset{p};
    }

    /** Changing the type select: the list is updated and the question is saved
        with its new type. */
    method ChangeType(q: Question, newType: string)
      modifies this
      ensures questions == UpdateQuestions(old(questions), q.id, QuestionUpdate(None, Some(newType), None)) && Valid()
      ensures sent == old(sent) + [UpdateQuestion(q.id, BearerHeader(token), q.text, newType, q.required)]
      ensures savingId == Some(q.id) && pending == old(pending) + multiset{QuestionSave}
      ensures formName == old(formName) && isCreating == old(isCreating) && reportedNames == old(reportedNames)
    {
      UpdateQuestionState(q.id, QuestionUpdate(None, Some(newType), None));
      BeginSaveQuestion(q.(qtype := newType));
    }

    /** Toggling the required checkbox. */
    method ChangeRequired(q: Question, newReq: bool)
      modifies this
      ensures questions == UpdateQuestions(old(questions), q.id, QuestionUpdate(None, None, Some(newReq))) && Valid()
      ensures sent == old(sent) + [UpdateQuestion(q.id, BearerHeader(token), q.text, q.qtype, newReq)]
      ensures savingId == Some(q.id) && pending == old(pending) + multiset{QuestionSave}
      ensures formName == old(formName) && isCreating == old(isCreating) && reportedNames == old(reportedNames)
    {
      UpdateQuestionState(q.id, QuestionUpdate(None, None, Some(newReq)));
      BeginSaveQuestion(q.(required := newReq));
    }

    /** A click on "Add New Question", which is disabled while a question is
        being created; otherwise the fixed new-question payload is sent. */
    method BeginAddQuestion()
      modifies this
      ensures old(isCreating) ==> sent == old(sent) && pending == old(pending) && isCreating
      ensures !old(isCreating) ==>
        && sent == old(sent) + [CreateQuestions(formId, BearerHeader(token), [NEW_QUESTION])]
        && isCreating
        && pending == old(pending) + multiset{Create(old(questions))}
      ensures formName == old(formName) && questions == old(questions) && parentQuestions == old(parentQuestions)
      ensures savingId == old(savingId) && reportedNames == old(reportedNames)
    {
      if isCreating {
        return;
      }
      isCreating := true;
      sent := sent + [CreateQuestions(formId, BearerHeader(token), [NEW_QUESTION])];
      pending := pending + multiset{Create(questions)};
    }

    /** The rest of `handleAddQuestion`: on an "ok" reply with an array the
        returned questions are appended to the list as it was when the button
        was clicked, and the result goes to the parent too; any other reply
        leaves the list alone. `isCreating` is cleared on every path. */
    method CompleteAddQuestion(snapshot: seq<Question>, reply: CreateReply)
      requires Valid() && Create(snapshot) in pending
      modifies this
      ensures Created(reply) ==> questions == snapshot + reply.data.value
      ensures !Created(reply) ==> questions == old(questions)
      ensures Valid() && !isCreating
      ensures pending == old(pending) - multiset{Create(snapshot)}
      ensures formName == old(formName) && savingId == old(savingId)
      ensures sent == old(sent) && reportedNames == old(reportedNames)
    {
      if Created(reply) {
        var updated := snapshot + reply.data.value;
        questions := updated;
        parentQuestions := updated;
      }
      isCreating := false;
      pending := pending - multiset{Create(snapshot)};
    }
  }
}
