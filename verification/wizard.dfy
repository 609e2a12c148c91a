/**
 The questionnaire wizard shared by the PHQ-9 and GAD-7 forms: a current
 question index, one stored answer string per question ("" while unanswered),
 and the loading / showResults / result flags, with the transitions the
 form's handlers perform. The fetch is abstracted into a submission request
 emitted by `Next` and a later `Resolve` with the reply or a failure.
 */
module Wizard {
  import opened Wrappers
  import Scoring
  import JsText

  /** Static description of one questionnaire: the token it is scored under and its number of questions. */
  datatype Questionnaire = Questionnaire(token: string, count: nat)

  /** The four answer options shared by both questionnaires, as the strings the radio group stores. */
  const OptionValues: seq<string> := ["0", "1", "2", "3"]

  /** The value of a slot nobody has answered yet. */
  const Unanswered: string := ""

  predicate IsOptionValue(v: string)
  {
    v in OptionValues
  }

  /** The form's state variables. */
  datatype State = State(
    current: int,
    responses: seq<string>,
    showResults: bool,
    result: Option<Scoring.AssessmentResult>,
    loading: bool)

  /** Index in range and one slot per question: what every reachable state satisfies. */
  predicate Valid(q: Questionnaire, s: State)
  {
    0 <= s.current < q.count && |s.responses| == q.count
  }

  /** Every slot is either unanswered or holds one of the option values. */
  predicate OptionSlots(s: State)
  {
    forall i :: 0 <= i < |s.responses| ==> s.responses[i] == Unanswered || IsOptionValue(s.responses[i])
  }

  /** The state a freshly opened form starts in. */
  function Init(q: Questionnaire): (s: State)
    requires q.count > 0
    ensures Valid(q, s) && OptionSlots(s)
    ensures s.current == 0 && !s.loading && !s.showResults && s.result == None
    ensures forall i :: 0 <= i < |s.responses| ==> s.responses[i] == Unanswered
  {
    State(0, seq(q.count, _ => Unanswered), false, None, false)
  }

  /** isMainQuestionsComplete: no slot is left unanswered. */
  predicate Complete(s: State)
    ensures Complete(s) <==> Unanswered !in s.responses
  {
    forall i :: 0 <= i < |s.responses| ==> s.responses[i] != Unanswered
  }

  /** The progress bar value, (current + 1) / count * 100, read as an exact rational. */
  function Progress(q: Questionnaire, s: State): (r: real)
    requires q.count > 0
    ensures r * q.count as real == ((s.current + 1) * 100) as real
  {
    ((s.current + 1) as real / q.count as real) * 100.0
  }

  /** handleResponseChange: store `v` at the current question. */
  function Answer(q: Questionnaire, s: State, v: string): (r: State)
    requires Valid(q, s)
    ensures Valid(q, r)
    ensures r.responses[s.current] == v
    ensures forall j :: 0 <= j < |s.responses| && j != s.current ==> r.responses[j] == s.responses[j]
    ensures r.current == s.current && r.loading == s.loading
    ensures r.showResults == s.showResults && r.result == s.result
  {
    s.(responses := s.responses[s.current := v])
  }

  /** Answering the same value twice is the same as answering it once. */
  lemma AnswerIdempotent(q: Questionnaire, s: State, v: string)
    requires Valid(q, s)
    ensures Answer(q, Answer(q, s, v), v) == Answer(q, s, v)
  {
  }

  /** A second answer to the same question replaces the first. */
  lemma AnswerOverwrites(q: Questionnaire, s: State, u: string, v: string)
    requires Valid(q, s)
    ensures Answer(q, Answer(q, s, u), v) == Answer(q, s, v)
  {
  }

  /** Request body posted on submission; `None` stands for a `NaN` entry. */
  datatype Payload = Payload(questionnaire: string, responses: seq<Option<int>>)

  /** `parseInt` reads each option value as its position in the option list. */
  lemma OptionValueParses(k: nat)
    requires k < |OptionValues|
    ensures JsText.ParseInt(OptionValues[k]) == Some(k)
  {
    var c := ('0' as int + k) as char;
    assert OptionValues[k] == [c];
    JsText.ParseIntOfDigit(c);
  }

  /** What `parseInt` makes of a stored slot: an option value's position, or NaN when unanswered. */
  lemma SlotParses(v: string)
    ensures IsOptionValue(v) ==> JsText.ParseInt(v).Some? && 0 <= JsText.ParseInt(v).value < |OptionValues|
                                 && OptionValues[JsText.ParseInt(v).value] == v
    ensures v == Unanswered ==> JsText.ParseInt(v).None?
  {
    if IsOptionValue(v) {
      var k :| 0 <= k < |OptionValues| && OptionValues[k] == v;
      OptionValueParses(k);
    }
    if v == Unanswered {
      JsText.ParseIntEmpty();
    }
  }

  /** The payload of submitAssessment: the token and each slot through `parseInt`, in order. */
  function PayloadOf(q: Questionnaire, s: State): (p: Payload)
    ensures p.questionnaire == q.token
    ensures |p.responses| == |s.responses|
    ensures forall i :: 0 <= i < |s.responses| ==> p.responses[i] == JsText.ParseInt(s.responses[i])
    ensures forall i :: 0 <= i < |s.responses| && IsOptionValue(s.responses[i]) ==>
              p.responses[i].Some? && 0 <= p.responses[i].value < |OptionValues|
              && OptionValues[p.responses[i].value] == s.responses[i]
    ensures forall i :: 0 <= i < |s.responses| && s.responses[i] == Unanswered ==> p.responses[i].None?
  {
    var p := Payload(q.token, seq(|s.responses|, i requires 0 <= i < |s.responses| => JsText.ParseInt(s.responses[i])));
    assert forall i :: 0 <= i < |s.responses| ==> p.responses[i] == JsText.ParseInt(s.responses[i]);
    forall i | 0 <= i < |s.responses| {
      SlotParses(s.responses[i]);
    }
    p
  }

  /** The assessment request the service builds from a payload; absent when some entry is `NaN`. */
  function ToRequest(p: Payload): (r: Option<Scoring.AssessmentRequest>)
    ensures r.Some? <==> forall i :: 0 <= i < |p.responses| ==> p.responses[i].Some?
    ensures r.Some? ==> r.value.questionnaire == p.questionnaire && |r.value.responses| == |p.responses|
    ensures r.Some? ==> forall i :: 0 <= i < |p.responses| ==> p.responses[i] == Some(r.value.responses[i])
  {
    if forall i :: 0 <= i < |p.responses| ==> p.responses[i].Some? then
      Some(Scoring.AssessmentRequest(p.questionnaire,
        seq(|p.responses|, i requires 0 <= i < |p.responses| && p.responses[i].Some? => p.responses[i].value)))
    else None
  }

  /** The state after a handler, and the request it sends, if any. */
  datatype Step = Step(state: State, request: Option<Payload>)

  /**
   nextQuestion: advance below the last question; at the last question,
   submit when every slot is answered and otherwise do nothing.
   Submitting raises `loading` and emits the payload.
   */
  function Next(q: Questionnaire, s: State): (r: Step)
    requires Valid(q, s)
    ensures Valid(q, r.state)
    ensures r.state.responses == s.responses
    ensures r.state.result == s.result && r.state.showResults == s.showResults
    ensures r.request.Some? <==> s.current == q.count - 1 && Complete(s)
    ensures r.request.Some? ==> r.request.value == PayloadOf(q, s) && r.state == s.(loading := true)
    ensures s.current < q.count - 1 ==> r.state == s.(current := s.current + 1)
    ensures r.request.None? && s.current == q.count - 1 ==> r.state == s
  {
    if s.current < q.count - 1 then Step(s.(current := s.current + 1), None)
    else if Complete(s) then Step(s.(loading := true), Some(PayloadOf(q, s)))
    else Step(s, None)
  }

  /** prevQuestion: step back, except at the first question. */
  function Previous(q: Questionnaire, s: State): (r: State)
    requires Valid(q, s)
    ensures Valid(q, r)
    ensures s.current > 0 ==> r == s.(current := s.current - 1)
    ensures s.current == 0 ==> r == s
  {
    if s.current > 0 then s.(current := s.current - 1) else s
  }

  /** Below the last question, going back after going forward returns to the same state. */
  lemma PreviousUndoesNext(q: Questionnaire, s: State)
    requires Valid(q, s) && s.current < q.count - 1
    ensures Previous(q, Next(q, s).state) == s
  {
  }

  /** How the fetch of a submission ends. */
  datatype Outcome = Replied(data: Scoring.AssessmentResult) | Failed

  /**
   The end of submitAssessment: a reply is stored and shown; a failure is only
   logged. Either way `loading` drops back to false.
   */
  function Resolve(s: State, o: Outcome): (r: State)
    ensures !r.loading
    ensures r.current == s.current && r.responses == s.responses
    ensures o.Replied? ==> r.result == Some(o.data) && r.showResults
    ensures o.Failed? ==> r.result == s.result && r.showResults == s.showResults
  {
    match o
    case Replied(data) => s.(result := Some(data), showResults := true, loading := false)
    case Failed => s.(loading := false)
  }

  /** A failed submission returns the form to exactly the question view it was submitted from. */
  lemma FailedSubmissionRestores(q: Questionnaire, s: State)
    requires Valid(q, s) && !s.loading
    requires Next(q, s).request.Some?
    ensures Resolve(Next(q, s).state, Failed) == s
  {
  }

  /** A successful submission keeps the answers and shows the reply. */
  lemma SuccessfulSubmissionShowsResult(q: Questionnaire, s: State, data: Scoring.AssessmentResult)
    requires Valid(q, s)
    requires Next(q, s).request.Some?
    ensures Resolve(Next(q, s).state, Replied(data)) ==
            s.(result := Some(data), showResults := true, loading := false)
  {
  }

  /** One user action on the question view. */
  datatype Action = AnswerWith(value: string) | GoNext | GoPrevious

  function Apply(q: Questionnaire, s: State, a: Action): (r: State)
    requires Valid(q, s)
    ensures Valid(q, r)
  {
    match a
    case AnswerWith(v) => Answer(q, s, v)
    case GoNext => Next(q, s).state
    case GoPrevious => Previous(q, s)
  }

  /** The state after a sequence of actions; the index never leaves [0, count). */
  function Run(q: Questionnaire, s: State, acts: seq<Action>): (r: State)
    requires Valid(q, s)
    ensures Valid(q, r)
    decreases |acts|
  {
    if |acts| == 0 then s else Run(q, Apply(q, s, acts[0]), acts[1..])
  }

  predicate Navigation(acts: seq<Action>)
  {
    forall k :: 0 <= k < |acts| ==> !acts[k].AnswerWith?
  }

  predicate OptionAnswers(acts: seq<Action>)
  {
    forall k :: 0 <= k < |acts| && acts[k].AnswerWith? ==> IsOptionValue(acts[k].value)
  }

  /** Moving back and forth never changes a stored answer. */
  lemma {:induction false} NavigationKeepsAnswers(q: Questionnaire, s: State, acts: seq<Action>)
    requires Valid(q, s) && Navigation(acts)
    ensures Run(q, s, acts).responses == s.responses
    decreases |acts|
  {
    if |acts| > 0 {
      NavigationKeepsAnswers(q, Apply(q, s, acts[0]), acts[1..]);
    }
  }

  /** An answer is still there, and shown again, after navigating away and back. */
  lemma AnswerSurvivesNavigation(q: Questionnaire, s: State, v: string, acts: seq<Action>)
    requires Valid(q, s) && Navigation(acts)
    ensures Run(q, Answer(q, s, v), acts).responses[s.current] == v
  {
    NavigationKeepsAnswers(q, Answer(q, s, v), acts);
  }

  /** Completion does not depend on where the user is: navigation never changes it. */
  lemma CompletionIgnoresNavigation(q: Questionnaire, s: State, acts: seq<Action>)
    requires Valid(q, s) && Navigation(acts)
    ensures Complete(Run(q, s, acts)) <==> Complete(s)
  {
    NavigationKeepsAnswers(q, s, acts);
  }

  /** Writing only option values keeps every slot unanswered or an option value. */
  lemma {:induction false} RunKeepsOptionSlots(q: Questionnaire, s: State, acts: seq<Action>)
    requires Valid(q, s) && OptionSlots(s) && OptionAnswers(acts)
    ensures OptionSlots(Run(q, s, acts))
    decreases |acts|
  {
    if |acts| > 0 {
      assert acts[0].AnswerWith? ==> IsOptionValue(acts[0].value);
      RunKeepsOptionSlots(q, Apply(q, s, acts[0]), acts[1..]);
    }
  }

  /** Whether the run of `acts` from `s` answers question `i` at least once. */
  predicate Writes(q: Questionnaire, s: State, acts: seq<Action>, i: int)
    requires Valid(q, s)
    decreases |acts|
  {
    |acts| > 0 &&
    ((acts[0].AnswerWith? && s.current == i) || Writes(q, Apply(q, s, acts[0]), acts[1..], i))
  }

  /** With option values only, a slot ends up answered iff it was answered before or the run answers it. */
  lemma {:induction false} FilledIffWritten(q: Questionnaire, s: State, acts: seq<Action>, i: int)
    requires Valid(q, s) && OptionAnswers(acts)
    requires 0 <= i < q.count
    ensures Run(q, s, acts).responses[i] != Unanswered <==> s.responses[i] != Unanswered || Writes(q, s, acts, i)
    decreases |acts|
  {
    if |acts| > 0 {
      var s' := Apply(q, s, acts[0]);
      assert acts[0].AnswerWith? ==> IsOptionValue(acts[0].value);
      assert s'.responses[i] != Unanswered <==>
             s.responses[i] != Unanswered || (acts[0].AnswerWith? && s.current == i);
      FilledIffWritten(q, s', acts[1..], i);
    }
  }

  /** Every question is answered at some point of the run from a fresh form. */
  predicate EveryQuestionAnswered(q: Questionnaire, acts: seq<Action>)
    requires q.count > 0
  {
    forall i :: 0 <= i < q.count ==> Writes(q, Init(q), acts, i)
  }

  /** From a fresh form, the answers are complete iff every question was answered, in whatever order. */
  lemma CompleteIffEveryQuestionAnswered(q: Questionnaire, acts: seq<Action>)
    requires q.count > 0 && OptionAnswers(acts)
    ensures Complete(Run(q, Init(q), acts)) <==> EveryQuestionAnswered(q, acts)
  {
    var r := Run(q, Init(q), acts);
    assert |r.responses| == q.count;
    forall i | 0 <= i < q.count
      ensures r.responses[i] != Unanswered <==> Writes(q, Init(q), acts, i)
    {
      assert Init(q).responses[i] == Unanswered;
      FilledIffWritten(q, Init(q), acts, i);
    }

  }

  /** A complete form of option answers yields a payload of numbers in 0..3. */
  lemma PayloadInRange(q: Questionnaire, s: State)
    requires Valid(q, s) && OptionSlots(s) && Complete(s)
    ensures forall i :: 0 <= i < |s.responses| ==>
              PayloadOf(q, s).responses[i].Some? && 0 <= PayloadOf(q, s).responses[i].value <= 3
  {
    var p := PayloadOf(q, s);
    forall i | 0 <= i < |s.responses|
      ensures p.responses[i].Some? && 0 <= p.responses[i].value <= 3
    {
      assert IsOptionValue(s.responses[i]);
    }
  }

  /** A submitted payload of option answers is accepted, and its total lies in [0, 3 * count]. */
  lemma SubmittedScoreBounded(q: Questionnaire, s: State)
    requires Valid(q, s) && OptionSlots(s)
    requires Next(q, s).request.Some?
    ensures ToRequest(Next(q, s).request.value).Some?
    ensures var req := ToRequest(Next(q, s).request.value).value;
            req.questionnaire == q.token && 0 <= Scoring.Assess(req).totalScore <= 3 * q.count
  {
    var p := PayloadOf(q, s);
    assert Next(q, s).request.value == p;
    PayloadInRange(q, s);
    var req := ToRequest(p).value;
    forall i | 0 <= i < |req.responses|
      ensures 0 <= req.responses[i] <= 3
    {
      assert p.responses[i] == Some(req.responses[i]);
    }
    assert 0 <= Scoring.Sum(req.responses) <= 3 * |req.responses|;
  }

  /** Progress is positive and at most 100. */
  lemma ProgressBounds(q: Questionnaire, s: State)
    requires Valid(q, s)
    ensures 0.0 < Progress(q, s) <= 100.0
  {
    var n := q.count as real;
    var x := (s.current + 1) as real / n;
    assert x * n == (s.current + 1) as real;
    assert (1.0 - x) * n >= 0.0;
  }

  /** Progress is exactly 100 at the last question and nowhere else. */
  lemma ProgressFullIffLast(q: Questionnaire, s: State)
    requires Valid(q, s)
    ensures Progress(q, s) == 100.0 <==> s.current == q.count - 1
  {
    var n := q.count as real;
    var c := (s.current + 1) as real;
    var p := Progress(q, s);
    assert p * n == c * 100.0;
    if p == 100.0 {
      assert 100.0 * n == 100.0 * c;
      assert q.count == s.current + 1;
    }
    if s.current == q.count - 1 {
      assert c == n;
      assert c / n == 1.0;
    }
  }

  /** A fresh form shows 100 / count. */
  lemma ProgressAtStart(q: Questionnaire)
    requires q.count > 0
    ensures Progress(q, Init(q)) == 100.0 / q.count as real
  {
  }

  /** Progress grows with the index. */
  lemma ProgressMonotone(q: Questionnaire, s: State, t: State)
    requires q.count > 0
    requires s.current <= t.current
    ensures Progress(q, s) <= Progress(q, t)
  {
    DivMonotone((s.current + 1) as real, (t.current + 1) as real, q.count as real);
  }

  /** Dividing by the same positive number keeps the order. */
  lemma DivMonotone(x: real, y: real, n: real)
    requires 0.0 < n && x <= y
    ensures x / n <= y / n
  {
    assert y / n - x / n == (y - x) / n;
  }
}
