/** Answers of a response, shared by the two per-question views of a form's
    responses (src/components/QuestionsTab.tsx, src/components/SummaryTab.tsx). */
module FormAnswers {
  import opened Collections

  /** An answer of a response; the views read only these two fields. */
  datatype Answer = Answer(questionId: string, value: string)

  /** A response with its answers. */
  datatype AnsweredResponse = AnsweredResponse(answers: seq<Answer>)

  /** `answers.find(a => a.questionId === qid)`: the first answer to `qid`. */
  function FindAnswer(answers: seq<Answer>, qid: string): (r: Option<Answer>)
    ensures r.None? <==> forall i :: 0 <= i < |answers| ==> answers[i].questionId != qid
    ensures r.Some? ==> exists i :: 0 <= i < |answers| && answers[i] == r.value && IsFirstMatch(answers, qid, i)
  {
    if answers == [] then None
    else if answers[0].questionId == qid then
      assert IsFirstMatch(answers, qid, 0);
      Some(answers[0])
    else
      var r := FindAnswer(answers[1..], qid);
      if r.Some? then
        var i :| 0 <= i < |answers[1..]| && answers[1..][i] == r.value && IsFirstMatch(answers[1..], qid, i);
        assert IsFirstMatch(answers, qid, i + 1);
        r
      else
        r
  }

  /** Answer `i` is to `qid`, and no earlier answer is. */
  predicate IsFirstMatch(answers: seq<Answer>, qid: string, i: int) {
    && 0 <= i < |answers|
    && answers[i].questionId == qid
    && forall j :: 0 <= j < i ==> answers[j].questionId != qid
  }

  /** Only the first answer to a question counts: a later answer with the same
      question id never changes what is found. */
  lemma FindAnswerIgnoresLater(answers: seq<Answer>, later: seq<Answer>, qid: string)
    requires FindAnswer(answers, qid).Some?
    ensures FindAnswer(answers + later, qid) == FindAnswer(answers, qid)
  {
    var i :| 0 <= i < |answers| && answers[i] == FindAnswer(answers, qid).value && IsFirstMatch(answers, qid, i);
    var all := answers + later;
    var r := FindAnswer(all, qid);
    assert IsFirstMatch(all, qid, i);
    assert r.Some?;
    var j :| 0 <= j < |all| && all[j] == r.value && IsFirstMatch(all, qid, j);
    assert j == i;
  }
}
