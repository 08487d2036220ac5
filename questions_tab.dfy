/** The per-question view of a form's responses (src/components/QuestionsTab.tsx):
    one question at a time, with a table of how often each answer was given. */
module QuestionTabulation {
  import opened Collections
  import opened FormAnswers

  /** A question as the view receives it. */
  datatype Question = Question(id: string, text: string)

  const NO_ANSWER: string := "No answer"

  /** `answer.value || "No answer"`: an empty answer is counted, under "No answer". */
  function TableKey(a: Answer): (k: string)
    ensures k != ""
  {
    if a.value == "" then NO_ANSWER else a.value
  }

  /** The response answers the question (its `find` succeeds). */
  predicate Answers(r: AnsweredResponse, qid: string) {
    FindAnswer(r.answers, qid).Some?
  }

  /** What one response adds to the table: the key of its first answer to the
      question, or nothing. */
  function KeyOfResponse(r: AnsweredResponse, qid: string): (ks: seq<string>)
    ensures |ks| == if Answers(r, qid) then 1 else 0
  {
    match FindAnswer(r.answers, qid)
    case Some(a) => [TableKey(a)]
    case None => []
  }

  /** The keys the `forEach` loop counts, response after response. */
  function TableKeys(rs: seq<AnsweredResponse>, qid: string): seq<string> {
    if rs == [] then [] else TableKeys(rs[..|rs| - 1], qid) + KeyOfResponse(rs[|rs| - 1], qid)
  }

  /** `responseCounts` once the loop is done. */
  function Table(rs: seq<AnsweredResponse>, qid: string): map<string, nat> {
    TallyOf(TableKeys(rs, qid))
  }

  /** The number of responses answering the question. */
  function AnsweringCount(rs: seq<AnsweredResponse>, qid: string): (n: nat)
    ensures n <= |rs|
  {
    if rs == [] then 0
    else AnsweringCount(rs[..|rs| - 1], qid) + (if Answers(rs[|rs| - 1], qid) then 1 else 0)
  }

  /** Each response adds at most one key: exactly one when it answers. */
  lemma {:induction false} TableKeysLength(rs: seq<AnsweredResponse>, qid: string)
    ensures |TableKeys(rs, qid)| == AnsweringCount(rs, qid)
    decreases |rs|
  {
    if rs != [] {
      TableKeysLength(rs[..|rs| - 1], qid);
    }
  }

  /** A key is in the table exactly when some response's first answer to the
      question gives that key. */
  lemma {:induction false} TableKeysOrigin(rs: seq<AnsweredResponse>, qid: string, k: string)
    ensures k in TableKeys(rs, qid) <==> exists i :: 0 <= i < |rs| && KeyOfResponse(rs[i], qid) == [k]
    decreases |rs|
  {
    if rs != [] {
      var front := rs[..|rs| - 1];
      var last := rs[|rs| - 1];
      TableKeysOrigin(front, qid, k);
      assert TableKeys(rs, qid) == TableKeys(front, qid) + KeyOfResponse(last, qid);
      if k in TableKeys(rs, qid) {
        if k in TableKeys(front, qid) {
          var i :| 0 <= i < |front| && KeyOfResponse(front[i], qid) == [k];
          assert rs[i] == front[i];
        } else {
          assert KeyOfResponse(rs[|rs| - 1], qid) == [k];
        }
      }
      if exists i :: 0 <= i < |rs| && KeyOfResponse(rs[i], qid) == [k] {
        var i :| 0 <= i < |rs| && KeyOfResponse(rs[i], qid) == [k];
        if i < |rs| - 1 {
          assert front[i] == rs[i];
        } else {
          assert k in KeyOfResponse(last, qid);
        }
      }
    }
  }

  lemma TableKeysSnoc(rs: seq<AnsweredResponse>, i: nat, qid: string)
    requires i < |rs|
    ensures TableKeys(rs[..i + 1], qid) == TableKeys(rs[..i], qid) + KeyOfResponse(rs[i], qid)
  {
    assert rs[..i + 1][..i] == rs[..i];
  }

  /** The `forEach` loop filling `responseCounts`. */
  method ResponseCounts(rs: seq<AnsweredResponse>, qid: string) returns (m: map<string, nat>)
    ensures m == Table(rs, qid)
  {
    m := map[];
    var i := 0;
    while i < |rs|
      invariant 0 <= i <= |rs|
      invariant m == TallyOf(TableKeys(rs[..i], qid))
    {
      TableKeysSnoc(rs, i, qid);
      var answer := FindAnswer(rs[i].answers, qid);
      if answer.Some? {
        var key := TableKey(answer.value);
        TallyOfSnoc(TableKeys(rs[..i], qid), key);
        m := Bump(m, key);
      } else {
        assert TableKeys(rs[..i + 1], qid) == TableKeys(rs[..i], qid);
      }
      i := i + 1;
    }
    assert rs[..i] == rs;
  }

  /** The table counts each answering response once: its counts add up to the
      number of answering responses, and every listed key has a count of one
      or more. */
  lemma TableCounts(rs: seq<AnsweredResponse>, qid: string)
    ensures MapSum(Table(rs, qid)) == AnsweringCount(rs, qid)
    ensures forall k :: k in Table(rs, qid) ==> Table(rs, qid)[k] >= 1
    ensures IsTallyOf(Table(rs, qid), TableKeys(rs, qid))
  {
    TableKeysLength(rs, qid);
    TallyOfSum(TableKeys(rs, qid));
    TallyOfCounts(TableKeys(rs, qid));
    forall k | k in Table(rs, qid) ensures Table(rs, qid)[k] >= 1 {
      assert k in multiset(TableKeys(rs, qid));
    }
  }

  /** A key is in the table exactly when some response's first answer to the
      question has that value, or is empty and the key is "No answer". */
  lemma TableKeysAreAnswers(rs: seq<AnsweredResponse>, qid: string, k: string)
    ensures k in Table(rs, qid) <==>
      exists i :: 0 <= i < |rs| && Answers(rs[i], qid) && TableKey(FindAnswer(rs[i].answers, qid).value) == k
  {
    TallyOfCounts(TableKeys(rs, qid));
    TableKeysOrigin(rs, qid, k);
  }

  /** The table is empty exactly when no response answers the question. */
  lemma TableEmpty(rs: seq<AnsweredResponse>, qid: string)
    ensures Table(rs, qid) == map[] <==> AnsweringCount(rs, qid) == 0
  {
    TableKeysLength(rs, qid);
    TallyOfCounts(TableKeys(rs, qid));
    var ks := TableKeys(rs, qid);
    if ks != [] {
      assert ks[0] in Table(rs, qid);
    }
  }

  /** `questionResponses`: the table as (text, count) rows, in an order the
      model leaves open. */
  method QuestionResponses(rs: seq<AnsweredResponse>, qid: string) returns (rows: seq<(string, nat)>)
    ensures EnumeratesMap(rows, Table(rs, qid))
    ensures SumCounts(rows) == AnsweringCount(rs, qid)
    ensures rows == [] <==> AnsweringCount(rs, qid) == 0
  {
    var counts := ResponseCounts(rs, qid);
    rows := Entries(counts);
    TableCounts(rs, qid);
    SumCountsOfEntries(rows, counts);
    TableEmpty(rs, qid);
    EnumerationSize(rows, counts);
  }

  /** What the view renders. */
  datatype QuestionsView =
    | NoQuestions
      /** `questions[currentIndex]` is undefined and reading its fields throws. */
    | Crashed
    | Showing(position: nat, total: nat, heading: string, rows: seq<(string, nat)>)

  class QuestionsTab {
    var questions: seq<Question>
    var responses: seq<AnsweredResponse>
    var currentIndex: int

    /** The selected question exists. */
    predicate InRange()
      reads this
    {
      0 <= currentIndex < |questions|
    }

    predicate PrevDisabled()
      reads this
    {
      currentIndex == 0
    }

    predicate NextDisabled()
      reads this
    {
      currentIndex == |questions| - 1
    }

    constructor(qs: seq<Question>, rs: seq<AnsweredResponse>)
      ensures questions == qs && responses == rs && currentIndex == 0
      ensures |qs| > 0 ==> InRange()
    {
      questions := qs;
      responses := rs;
      currentIndex := 0;
    }

    /** New props: the index is kept as it is, even when it is now out of range. */
    method SetProps(qs: seq<Question>, rs: seq<AnsweredResponse>)
      modifies this
      ensures questions == qs && responses == rs && currentIndex == old(currentIndex)
    {
      questions := qs;
      responses := rs;
    }

    /** A click on the left arrow; it is disabled on the first question. */
    method ClickPrev()
      modifies this
      ensures currentIndex == if old(PrevDisabled()) then old(currentIndex) else old(currentIndex) - 1
      ensures questions == old(questions) && responses == old(responses)
      ensures old(InRange()) ==> InRange()
    {
      if !PrevDisabled() {
        currentIndex := currentIndex - 1;
      }
    }

    /** A click on the right arrow; it is disabled on the last question. */
    method ClickNext()
      modifies this
      ensures currentIndex == if old(NextDisabled()) then old(currentIndex) else old(currentIndex) + 1
      ensures questions == old(questions) && responses == old(responses)
      ensures old(InRange()) ==> InRange()
    {
      if !NextDisabled() {
        currentIndex := currentIndex + 1;
      }
    }

    /** A choice in the selector, which offers the indices of the questions. */
    method Select(idx: int)
      requires 0 <= idx < |questions|
      modifies this
      ensures currentIndex == idx && InRange()
      ensures questions == old(questions) && responses == old(responses)
    {
      currentIndex := idx;
    }

    /** The rendered view: nothing to show without questions, otherwise the
      selected question with its table, or "No responses yet" for an empty one. */
    method Render() returns (v: QuestionsView)
      ensures v == NoQuestions <==> |questions| == 0
      ensures v == Crashed <==> |questions| > 0 && !InRange()
      ensures v.Showing? ==>
        && InRange()
        && v.position == currentIndex + 1 && v.total == |questions|
        && v.heading == questions[currentIndex].text
        && EnumeratesMap(v.rows, Table(responses, questions[currentIndex].id))
        && (v.rows == [] <==> AnsweringCount(responses, questions[currentIndex].id) == 0)
    {
      if |questions| == 0 {
        return NoQuestions;
      }
      if !(0 <= currentIndex < |questions|) {
        return Crashed;
      }
      var q := questions[currentIndex];
      var rows := QuestionResponses(responses, q.id);
      v := Showing(currentIndex + 1, |questions|, q.text, rows);
    }
  }
}
