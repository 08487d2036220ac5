/** The summary of a form's responses (src/components/SummaryTab.tsx): for each
    question, the non-empty answers in response order; choice questions get a
    pie chart of how often each answer was given, text questions a list. */
module SummaryTab {
  import opened Collections
  import opened FormAnswers
  import QT = QuestionTabulation

  /** `q.type`: only "choice" selects the chart; every other type is listed. */
  datatype QuestionKind = ChoiceQuestion | TextQuestion

  datatype SummaryQuestion = SummaryQuestion(id: string, text: string, kind: QuestionKind)

  /** `formDetails`, possibly absent, with a possibly absent `responses` list. */
  datatype FormDetails = FormDetails(questions: seq<SummaryQuestion>, responses: Option<seq<AnsweredResponse>>)

  /** `res.answers.find(a => a.questionId === qid)?.value`, kept by
      `filter(Boolean)` only when it is a non-empty string. */
  function KeptAnswer(r: AnsweredResponse, qid: string): (ks: seq<string>)
    ensures |ks| <= 1
  {
    match FindAnswer(r.answers, qid)
    case Some(a) => if a.value != "" then [a.value] else []
    case None => []
  }

  /** `answers` for the question `qid`. */
  function AnswersFor(rs: seq<AnsweredResponse>, qid: string): seq<string> {
    if rs == [] then [] else AnswersFor(rs[..|rs| - 1], qid) + KeptAnswer(rs[|rs| - 1], qid)
  }

  /** The answers keep the order of the responses: the answers of a list of
      responses are those of its first part followed by those of the rest. */
  lemma {:induction false} AnswersForAppend(rs: seq<AnsweredResponse>, more: seq<AnsweredResponse>, qid: string)
    ensures AnswersFor(rs + more, qid) == AnswersFor(rs, qid) + AnswersFor(more, qid)
    decreases |more|
  {
    if more != [] {
      var front := more[..|more| - 1];
      AnswersForAppend(rs, front, qid);
      assert (rs + more)[..|rs + more| - 1] == rs + front;
      assert (rs + more)[|rs + more| - 1] == more[|more| - 1];
    } else {
      assert rs + more == rs;
    }
  }

  /** One response keeps `x` exactly when `x` is non-empty and is the value of
      its first answer to the question. */
  lemma KeptAnswerMember(r: AnsweredResponse, qid: string, x: string)
    ensures x in KeptAnswer(r, qid) <==> x != "" && FindAnswer(r.answers, qid) == Some(Answer(qid, x))
  {
    var found := FindAnswer(r.answers, qid);
    if found.Some? {
      var i :| 0 <= i < |r.answers| && r.answers[i] == found.value && IsFirstMatch(r.answers, qid, i);
    }
  }

  /** An answer is listed exactly when it is non-empty and is the value of some
      response's first answer to the question. */
  lemma {:induction false} AnswersForMembers(rs: seq<AnsweredResponse>, qid: string, x: string)
    ensures x in AnswersFor(rs, qid) <==>
      x != "" && exists i :: 0 <= i < |rs| && FindAnswer(rs[i].answers, qid) == Some(Answer(qid, x))
    decreases |rs|
  {
    if rs != [] {
      var front := rs[..|rs| - 1];
      var last := rs[|rs| - 1];
      AnswersForMembers(front, qid, x);
      KeptAnswerMember(last, qid, x);
      assert AnswersFor(rs, qid) == AnswersFor(front, qid) + KeptAnswer(last, qid);
      if x != "" && exists i :: 0 <= i < |rs| && FindAnswer(rs[i].answers, qid) == Some(Answer(qid, x)) {
        var i :| 0 <= i < |rs| && FindAnswer(rs[i].answers, qid) == Some(Answer(qid, x));
        if i < |front| {
          assert front[i] == rs[i];
        }
      }
      if x in AnswersFor(front, qid) {
        var i :| 0 <= i < |front| && FindAnswer(front[i].answers, qid) == Some(Answer(qid, x));
        assert rs[i] == front[i];
      }
    }
  }

  /** The number of responses whose first answer to the question is empty. */
  function EmptyAnswerCount(rs: seq<AnsweredResponse>, qid: string): nat {
    if rs == [] then 0
    else
      var found := FindAnswer(rs[|rs| - 1].answers, qid);
      EmptyAnswerCount(rs[..|rs| - 1], qid) + (if found.Some? && found.value.value == "" then 1 else 0)
  }

  /** The two views agree: the per-question table counts the summary's answers
      plus the empty ones, and every non-empty answer other than "No answer"
      has the same count in both. */
  lemma {:induction false} SummaryAgreesWithTable(rs: seq<AnsweredResponse>, qid: string, k: string)
    requires k != QT.NO_ANSWER
    ensures QT.AnsweringCount(rs, qid) == |AnswersFor(rs, qid)| + EmptyAnswerCount(rs, qid)
    ensures multiset(QT.TableKeys(rs, qid))[k] == multiset(AnswersFor(rs, qid))[k]
    decreases |rs|
  {
    if rs != [] {
      var front := rs[..|rs| - 1];
      SummaryAgreesWithTable(front, qid, k);
      assert QT.TableKeys(rs, qid) == QT.TableKeys(front, qid) + QT.KeyOfResponse(rs[|rs| - 1], qid);
      assert AnswersFor(rs, qid) == AnswersFor(front, qid) + KeptAnswer(rs[|rs| - 1], qid);
    }
  }

  /** `labels` and `data` list the entries of `counts`, aligned index by index. */
  ghost predicate Aligned(labels: seq<string>, data: seq<nat>, counts: map<string, nat>) {
    && |labels| == |data|
    && (forall i, j :: 0 <= i < j < |labels| ==> labels[i] != labels[j])
    && (forall k :: k in counts <==> k in labels)
    && (forall i :: 0 <= i < |labels| ==> data[i] == counts[labels[i]])
  }

  function Sum(xs: seq<nat>): nat {
    if xs == [] then 0 else xs[0] + Sum(xs[1..])
  }

  /** What one question's card shows. */
  datatype QuestionSummary =
    | ChoiceSummary(text: string, responseCount: nat, labels: seq<string>, data: seq<nat>)
    | TextSummary(text: string, responseCount: nat, items: seq<string>)

  /** `s` is the card of `q`: a pie chart of the answers' counts for a choice
      question, the answers themselves for any other, each with "N responses"
      counting the kept answers. */
  ghost predicate Summarises(s: QuestionSummary, q: SummaryQuestion, rs: seq<AnsweredResponse>) {
    var answers := AnswersFor(rs, q.id);
    match q.kind
    case ChoiceQuestion =>
      && s.ChoiceSummary? && s.text == q.text && s.responseCount == |answers|
      && Aligned(s.labels, s.data, TallyOf(answers))
    case TextQuestion =>
      s == TextSummary(q.text, |answers|, answers)
  }

  lemma {:induction false} SumOfEntries(es: seq<(string, nat)>, data: seq<nat>)
    requires |data| == |es| && forall i :: 0 <= i < |es| ==> data[i] == es[i].1
    ensures Sum(data) == SumCounts(es)
  {
    if es != [] {
      SumOfEntries(es[1..], data[1..]);
    }
  }

  /** `Object.keys(counts)` and `Object.values(counts)` taken from one listing. */
  function Labels(es: seq<(string, nat)>): seq<string> {
    seq(|es|, i requires 0 <= i < |es| => es[i].0)
  }

  function Values(es: seq<(string, nat)>): seq<nat> {
    seq(|es|, i requires 0 <= i < |es| => es[i].1)
  }

  /** The labels and the values of a listing line up, and the values add up to
      the dictionary's sum. */
  lemma ListingAligned(es: seq<(string, nat)>, counts: map<string, nat>)
    requires EnumeratesMap(es, counts)
    ensures Aligned(Labels(es), Values(es), counts)
    ensures Sum(Values(es)) == MapSum(counts)
  {
    var labels := Labels(es);
    forall k ensures k in counts <==> k in labels {
      if k in counts {
        assert k in KeySet(es);
        var i :| 0 <= i < |es| && es[i].0 == k;
        assert labels[i] == k;
      }
      if k in labels {
        var i :| 0 <= i < |labels| && labels[i] == k;
        assert es[i].0 in KeySet(es);
      }
    }
    SumOfEntries(es, Values(es));
    SumCountsOfEntries(es, counts);
  }

  /** The card of one question; the chart's counts are filled by a `forEach`. */
  method SummariseQuestion(q: SummaryQuestion, rs: seq<AnsweredResponse>) returns (s: QuestionSummary)
    ensures Summarises(s, q, rs)
    ensures s.ChoiceSummary? ==> Sum(s.data) == s.responseCount
  {
    var answers := AnswersFor(rs, q.id);
    if q.kind == ChoiceQuestion {
      var counts := Tally(answers);
      var es := Entries(counts);
      ListingAligned(es, counts);
      s := ChoiceSummary(q.text, |answers|, Labels(es), Values(es));
    } else {
      s := TextSummary(q.text, |answers|, answers);
    }
  }

  datatype SummaryView = NoResponsesYet | Summaries(cards: seq<QuestionSummary>)

  /** `!formDetails?.responses?.length` */
  predicate HasResponses(d: Option<FormDetails>) {
    d.Some? && d.value.responses.Some? && |d.value.responses.value| > 0
  }

  /** The rendered summary: "No responses yet." without responses, otherwise
      one card per question, in the questions' order. */
  method Summarise(d: Option<FormDetails>) returns (v: SummaryView)
    ensures v == NoResponsesYet <==> !HasResponses(d)
    ensures v.Summaries? ==>
      && |v.cards| == |d.value.questions|
      && forall j :: 0 <= j < |v.cards| ==> Summarises(v.cards[j], d.value.questions[j], d.value.responses.value)
  {
    if !HasResponses(d) {
      return NoResponsesYet;
    }
    var qs := d.value.questions;
    var rs := d.value.responses.value;
    var cards: seq<QuestionSummary> := [];
    var i := 0;
    while i < |qs|
      invariant 0 <= i <= |qs|
      invariant |cards| == i
      invariant forall j :: 0 <= j < i ==> Summarises(cards[j], qs[j], rs)
    {
      var card := SummariseQuestion(qs[i], rs);
      cards := cards + [card];
      i := i + 1;
    }
    v := Summaries(cards);
  }
}
