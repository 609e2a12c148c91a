/**
 The two instances of the wizard, PHQ-9 (nine questions) and GAD-7 (seven
 questions), and what the scoring service answers to their submissions.
 */
module Questionnaires {
  import opened Wrappers
  import Scoring
  import Wizard

  /** The PHQ-9 prompts, in order. */
  const Phq9Questions: seq<string> := [
    "Little interest or pleasure in doing things",
    "Feeling down, depressed, or hopeless",
    "Trouble falling or staying asleep, or sleeping too much",
    "Feeling tired or having little energy",
    "Poor appetite or overeating",
    "Feeling bad about yourself — or that you are a failure or have let yourself or your family down",
    "Trouble concentrating on things, such as reading the newspaper or watching television",
    "Moving or speaking so slowly that other people could have noticed? Or the opposite — being so fidgety or restless that you have been moving around a lot more than usual",
    "Thoughts that you would be better off dead or of hurting yourself in some way"
  ]

  /** The PHQ-9 form: nine slots, scored under "PHQ-9". */
  const Phq9: Wizard.Questionnaire := Wizard.Questionnaire("PHQ-9", 9)

  /** The GAD-7 prompts, in order. */
  const Gad7Questions: seq<string> := [
    "Feeling nervous, anxious, or on edge",
    "Not being able to stop or control worrying",
    "Worrying too much about different things",
    "Trouble relaxing",
    "Being so restless that it is hard to sit still",
    "Becoming easily annoyed or irritable",
    "Feeling afraid, as if something awful might happen"
  ]

  /** The GAD-7 form: seven slots, scored under "GAD-7". */
  const Gad7: Wizard.Questionnaire := Wizard.Questionnaire("GAD-7", 7)

  /** The slot count of each form agrees with the length of its prompt list, which bounds navigation. */
  lemma CountsMatchPrompts()
    ensures |Phq9Questions| == Phq9.count
    ensures |Gad7Questions| == Gad7.count
  {
  }

  /** A fresh PHQ-9 form has nine unanswered slots and shows 100/9 progress. */
  lemma Phq9Start()
    ensures |Wizard.Init(Phq9).responses| == 9
    ensures forall i :: 0 <= i < 9 ==> Wizard.Init(Phq9).responses[i] == ""
    ensures Wizard.Progress(Phq9, Wizard.Init(Phq9)) == 100.0 / 9.0
  {
  }

  /** A fresh GAD-7 form has seven unanswered slots and shows 100/7 progress. */
  lemma Gad7Start()
    ensures |Wizard.Init(Gad7).responses| == 7
    ensures forall i :: 0 <= i < 7 ==> Wizard.Init(Gad7).responses[i] == ""
    ensures Wizard.Progress(Gad7, Wizard.Init(Gad7)) == 100.0 / 7.0
  {
  }

  /** GAD-7 progress reaches 100 exactly at question index 6. */
  lemma Gad7ProgressFull(s: Wizard.State)
    requires Wizard.Valid(Gad7, s)
    ensures Wizard.Progress(Gad7, s) == 100.0 <==> s.current == 6
  {
    Wizard.ProgressFullIffLast(Gad7, s);
  }

  /** PHQ-9 progress reaches 100 exactly at question index 8. */
  lemma Phq9ProgressFull(s: Wizard.State)
    requires Wizard.Valid(Phq9, s)
    ensures Wizard.Progress(Phq9, s) == 100.0 <==> s.current == 8
  {
    Wizard.ProgressFullIffLast(Phq9, s);
  }

  /** The form at its last question with every slot holding `v`. */
  function AllAnswered(q: Wizard.Questionnaire, v: string): (s: Wizard.State)
    requires q.count > 0
    ensures Wizard.Valid(q, s)
  {
    Wizard.State(q.count - 1, seq(q.count, _ => v), false, None, false)
  }

  /** Submitting option k in every slot sends the token with count copies of k, totalling count * k. */
  lemma UniformSubmission(q: Wizard.Questionnaire, k: nat)
    requires q.count > 0 && k < |Wizard.OptionValues|
    ensures Wizard.Next(q, AllAnswered(q, Wizard.OptionValues[k])).request.Some?
    ensures Wizard.ToRequest(Wizard.Next(q, AllAnswered(q, Wizard.OptionValues[k])).request.value)
            == Some(Scoring.AssessmentRequest(q.token, seq(q.count, _ => k as int)))
    ensures Scoring.Sum(seq(q.count, _ => k as int)) == q.count * k
  {
    var s := AllAnswered(q, Wizard.OptionValues[k]);
    assert Wizard.Complete(s);
    var p := Wizard.PayloadOf(q, s);
    forall i | 0 <= i < |p.responses|
      ensures p.responses[i] == Some(k as int)
    {
      Wizard.OptionValueParses(k);
    }
    var req := Wizard.ToRequest(p).value;
    assert req.responses == seq(q.count, _ => k as int);
    Scoring.SumConstant(q.count, k);
  }

  /** The reply to a form submitted with option k in every slot. */
  function UniformReply(q: Wizard.Questionnaire, k: nat): (r: Scoring.AssessmentResult)
    requires q.count > 0 && k < |Wizard.OptionValues|
    ensures Wizard.ToRequest(Wizard.Next(q, AllAnswered(q, Wizard.OptionValues[k])).request.value).Some?
    ensures r.totalScore == q.count * k
    ensures Scoring.Band(r.severity, r.interpretation) == Scoring.Dispatch(q.token, q.count * k)
  {
    UniformSubmission(q, k);
    Scoring.Assess(Wizard.ToRequest(Wizard.Next(q, AllAnswered(q, Wizard.OptionValues[k])).request.value).value)
  }

  /** Nine answers of 3 score a PHQ-9 total of 27, "Severe Depression". */
  lemma Phq9AllThrees()
    ensures UniformReply(Phq9, 3) ==
            Scoring.AssessmentResult(27, "Severe Depression", "Immediate and intensive treatment recommended.")
  {
    Scoring.CanonicalTokens();
  }

  /** Nine answers of 0 score a PHQ-9 total of 0, "Minimal Depression". */
  lemma Phq9AllZeros()
    ensures UniformReply(Phq9, 0) ==
            Scoring.AssessmentResult(0, "Minimal Depression", "Little or no depressive symptoms.")
  {
    Scoring.CanonicalTokens();
  }

  /** Seven answers of 3 score a GAD-7 total of 21, "Severe Anxiety". */
  lemma Gad7AllThrees()
    ensures UniformReply(Gad7, 3) ==
            Scoring.AssessmentResult(21, "Severe Anxiety", "Active treatment likely warranted.")
  {
    Scoring.CanonicalTokens();
  }

  /** What the service answers to a submission of option answers from a form with token `q.token`. */
  lemma SubmissionScoring(q: Wizard.Questionnaire, s: Wizard.State)
    requires Wizard.Valid(q, s) && Wizard.OptionSlots(s)
    requires Wizard.Next(q, s).request.Some?
    ensures Wizard.ToRequest(Wizard.Next(q, s).request.value).Some?
    ensures var r := Scoring.Assess(Wizard.ToRequest(Wizard.Next(q, s).request.value).value);
            && 0 <= r.totalScore <= 3 * q.count
            && Scoring.Band(r.severity, r.interpretation) == Scoring.Dispatch(q.token, r.totalScore)
  {
    Wizard.SubmittedScoreBounded(q, s);
  }

  /** Whatever a PHQ-9 form submits is banded by interpret_phq9, within [0, 27]. */
  lemma Phq9SubmissionScoring(s: Wizard.State)
    requires Wizard.Valid(Phq9, s) && Wizard.OptionSlots(s)
    requires Wizard.Next(Phq9, s).request.Some?
    ensures Wizard.ToRequest(Wizard.Next(Phq9, s).request.value).Some?
    ensures var r := Scoring.Assess(Wizard.ToRequest(Wizard.Next(Phq9, s).request.value).value);
            0 <= r.totalScore <= 27 && Scoring.Band(r.severity, r.interpretation) == Scoring.InterpretPhq9(r.totalScore)
  {
    SubmissionScoring(Phq9, s);
    Scoring.CanonicalTokens();
  }

  /** Whatever a GAD-7 form submits is banded by interpret_gad7, within [0, 21]. */
  lemma Gad7SubmissionScoring(s: Wizard.State)
    requires Wizard.Valid(Gad7, s) && Wizard.OptionSlots(s)
    requires Wizard.Next(Gad7, s).request.Some?
    ensures Wizard.ToRequest(Wizard.Next(Gad7, s).request.value).Some?
    ensures var r := Scoring.Assess(Wizard.ToRequest(Wizard.Next(Gad7, s).request.value).value);
            0 <= r.totalScore <= 21 && Scoring.Band(r.severity, r.interpretation) == Scoring.InterpretGad7(r.totalScore)
  {
    SubmissionScoring(Gad7, s);
    Scoring.CanonicalTokens();
  }
}
