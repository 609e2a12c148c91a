/**
 The pure logic of the assessment service: the total of the responses, the
 case-insensitive questionnaire dispatch, and the GAD-7 / PHQ-9 severity bands.
 */
module Scoring {

  /** Body of an assessment request: a questionnaire token and the integer responses. */
  datatype AssessmentRequest = AssessmentRequest(questionnaire: string, responses: seq<int>)

  /** Body of an assessment reply. */
  datatype AssessmentResult = AssessmentResult(totalScore: int, severity: string, interpretation: string)

  /** A severity label together with its interpretation text. */
  datatype Band = Band(severity: string, interpretation: string)

  /** GAD-7 bands, from the lowest severity to the highest. */
  const Gad7Bands: seq<Band> := [
    Band("Minimal Anxiety", "Little or no symptoms."),
    Band("Mild Anxiety", "Monitor; may not require treatment."),
    Band("Moderate Anxiety", "Further evaluation recommended."),
    Band("Severe Anxiety", "Active treatment likely warranted.")
  ]

  /** The lowest score of each GAD-7 band above the first. */
  const Gad7Cutoffs: seq<int> := [5, 10, 15]

  /** PHQ-9 bands, from the lowest severity to the highest. */
  const Phq9Bands: seq<Band> := [
    Band("Minimal Depression", "Little or no depressive symptoms."),
    Band("Mild Depression", "Watchful waiting; may not need treatment."),
    Band("Moderate Depression", "Treatment plan may be considered."),
    Band("Moderately Severe Depression", "Active treatment warranted."),
    Band("Severe Depression", "Immediate and intensive treatment recommended.")
  ]

  /** The lowest score of each PHQ-9 band above the first. */
  const Phq9Cutoffs: seq<int> := [5, 10, 15, 20]

  /** What an unrecognised questionnaire token is answered with. */
  const UnknownBand: Band := Band("Unknown", "Invalid questionnaire type.")

  /** Independent reading of a band table: the number of cut-offs the score has reached. */
  function Rank(cutoffs: seq<int>, score: int): (k: nat)
    ensures k <= |cutoffs|
  {
    if |cutoffs| == 0 then 0
    else (if cutoffs[0] <= score then 1 else 0) + Rank(cutoffs[1..], score)
  }

  /** A higher score never reaches fewer cut-offs. */
  lemma {:induction false} RankMonotone(cutoffs: seq<int>, a: int, b: int)
    requires a <= b
    ensures Rank(cutoffs, a) <= Rank(cutoffs, b)
    decreases |cutoffs|
  {
    if |cutoffs| > 0 {
      RankMonotone(cutoffs[1..], a, b);
    }
  }

  /** Cut-offs in strictly increasing order. */
  predicate Increasing(cutoffs: seq<int>)
  {
    forall i, j :: 0 <= i < j < |cutoffs| ==> cutoffs[i] < cutoffs[j]
  }

  /** On increasing cut-offs, a score in [cutoffs[k-1], cutoffs[k]) has rank k. */
  lemma {:induction false} RankOfIncreasing(cutoffs: seq<int>, score: int, k: nat)
    requires Increasing(cutoffs)
    requires k <= |cutoffs|
    requires k == 0 || cutoffs[k - 1] <= score
    requires k == |cutoffs| || score < cutoffs[k]
    ensures Rank(cutoffs, score) == k
    decreases |cutoffs|
  {
    if |cutoffs| > 0 {
      if cutoffs[0] <= score {
        RankOfIncreasing(cutoffs[1..], score, k - 1);
      } else {
        RankOfIncreasing(cutoffs[1..], score, 0);
      }
    }
  }

  /** Conversely, on increasing cut-offs a score of rank k lies in [cutoffs[k-1], cutoffs[k]). */
  lemma {:induction false} RankOnlyIf(cutoffs: seq<int>, score: int)
    requires Increasing(cutoffs)
    ensures var k := Rank(cutoffs, score);
            (k == 0 || cutoffs[k - 1] <= score) && (k == |cutoffs| || score < cutoffs[k])
    decreases |cutoffs|
  {
    if |cutoffs| > 0 {
      RankOnlyIf(cutoffs[1..], score);
      if cutoffs[0] > score {
        RankOfIncreasing(cutoffs, score, 0);
      }
    }
  }

  /** interpret_gad7: the band of a GAD-7 total. Total over every integer. */
  function InterpretGad7(score: int): (r: Band)
    ensures r == Gad7Bands[Rank(Gad7Cutoffs, score)]
  {
    if score <= 4 then
      RankOfIncreasing(Gad7Cutoffs, score, 0);
      Band("Minimal Anxiety", "Little or no symptoms.")
    else if score <= 9 then
      RankOfIncreasing(Gad7Cutoffs, score, 1);
      Band("Mild Anxiety", "Monitor; may not require treatment.")
    else if score <= 14 then
      RankOfIncreasing(Gad7Cutoffs, score, 2);
      Band("Moderate Anxiety", "Further evaluation recommended.")
    else
      RankOfIncreasing(Gad7Cutoffs, score, 3);
      Band("Severe Anxiety", "Active treatment likely warranted.")
  }

  /** interpret_phq9: the band of a PHQ-9 total. Total over every integer. */
  function InterpretPhq9(score: int): (r: Band)
    ensures r == Phq9Bands[Rank(Phq9Cutoffs, score)]
  {
    if score <= 4 then
      RankOfIncreasing(Phq9Cutoffs, score, 0);
      Band("Minimal Depression", "Little or no depressive symptoms.")
    else if score <= 9 then
      RankOfIncreasing(Phq9Cutoffs, score, 1);
      Band("Mild Depression", "Watchful waiting; may not need treatment.")
    else if score <= 14 then
      RankOfIncreasing(Phq9Cutoffs, score, 2);
      Band("Moderate Depression", "Treatment plan may be considered.")
    else if score <= 19 then
      RankOfIncreasing(Phq9Cutoffs, score, 3);
      Band("Moderately Severe Depression", "Active treatment warranted.")
    else
      RankOfIncreasing(Phq9Cutoffs, score, 4);
      Band("Severe Depression", "Immediate and intensive treatment recommended.")
  }

  /** GAD-7 severity never decreases as the score grows. */
  lemma Gad7Monotone(a: int, b: int, i: nat, j: nat)
    requires a <= b
    requires i < |Gad7Bands| && j < |Gad7Bands|
    requires InterpretGad7(a) == Gad7Bands[i] && InterpretGad7(b) == Gad7Bands[j]
    ensures i <= j
  {
    RankMonotone(Gad7Cutoffs, a, b);
  }

  /** PHQ-9 severity never decreases as the score grows. */
  lemma Phq9Monotone(a: int, b: int, i: nat, j: nat)
    requires a <= b
    requires i < |Phq9Bands| && j < |Phq9Bands|
    requires InterpretPhq9(a) == Phq9Bands[i] && InterpretPhq9(b) == Phq9Bands[j]
    ensures i <= j
  {
    RankMonotone(Phq9Cutoffs, a, b);
  }

  /** A GAD-7 severity label always comes with the same interpretation. */
  lemma Gad7SeverityDeterminesText(a: int, b: int)
    requires InterpretGad7(a).severity == InterpretGad7(b).severity
    ensures InterpretGad7(a) == InterpretGad7(b)
  {
  }

  /** A PHQ-9 severity label always comes with the same interpretation. */
  lemma Phq9SeverityDeterminesText(a: int, b: int)
    requires InterpretPhq9(a).severity == InterpretPhq9(b).severity
    ensures InterpretPhq9(a) == InterpretPhq9(b)
  {
  }

  /**
   Python's `sum`: a left-to-right fold. When every response is an option
   value 0..3, the total lies in [0, 3n].
   */
  function Sum(xs: seq<int>): (total: int)
    ensures (forall i :: 0 <= i < |xs| ==> 0 <= xs[i] <= 3) ==> 0 <= total <= 3 * |xs|
  {
    if |xs| == 0 then 0 else Sum(xs[..|xs| - 1]) + xs[|xs| - 1]
  }

  /** The total is the same when accumulated from the front: the first response plus the sum of the rest. */
  lemma {:induction false} SumFront(xs: seq<int>)
    requires |xs| > 0
    ensures Sum(xs) == xs[0] + Sum(xs[1..])
    decreases |xs|
  {
    if |xs| > 1 {
      var front := xs[..|xs| - 1];
      SumFront(front);
      assert front[1..] == xs[1..][..|xs| - 2];
    }
  }

  /** Python's `sum` over a response list: one pass, accumulating left to right. */
  method TotalScore(xs: seq<int>) returns (total: int)
    ensures total == Sum(xs)
  {
    total := 0;
    var i := 0;
    while i < |xs|
      invariant 0 <= i <= |xs|
      invariant total == Sum(xs[..i])
    {
      assert xs[..i + 1][..i] == xs[..i];
      total := total + xs[i];
      i := i + 1;
    }
    assert xs[..|xs|] == xs;
  }

  /** n equal responses v sum to n * v. */
  lemma SumConstant(n: nat, v: int)
    ensures Sum(seq(n, _ => v)) == n * v
  {
    SumUniform(seq(n, _ => v), v);
  }

  /** A list whose every response is v sums to its length times v. */
  lemma {:induction false} SumUniform(xs: seq<int>, v: int)
    requires forall i :: 0 <= i < |xs| ==> xs[i] == v
    ensures Sum(xs) == |xs| * v
    decreases |xs|
  {
    if |xs| > 0 {
      var front := xs[..|xs| - 1];
      SumUniform(front, v);
      assert Sum(xs) == Sum(front) + v;
    }
  }

  /** Python's `str.upper` on one character, restricted to the ASCII letters. */
  function UpperChar(c: char): (u: char)
    ensures 'a' <= c <= 'z' ==> 'A' <= u <= 'Z' && u as int - c as int == 'A' as int - 'a' as int
    ensures !('a' <= c <= 'z') ==> u == c
  {
    if 'a' <= c <= 'z' then (c as int - 'a' as int + 'A' as int) as char else c
  }

  /** Python's `str.upper`, character by character. */
  function Upper(s: string): (u: string)
    ensures |u| == |s|
    ensures forall i :: 0 <= i < |s| ==> u[i] == UpperChar(s[i])
  {
    seq(|s|, i requires 0 <= i < |s| => UpperChar(s[i]))
  }

  /** Upper-casing twice is upper-casing once. */
  lemma UpperIdempotent(s: string)
    ensures Upper(Upper(s)) == Upper(s)
  {
  }

  /** A string with no lower-case ASCII letter is its own upper-case form. */
  lemma UpperFixesUpperCase(s: string)
    requires forall i :: 0 <= i < |s| ==> !('a' <= s[i] <= 'z')
    ensures Upper(s) == s
  {
  }

  /** The two tokens the forms send are already upper case. */
  lemma CanonicalTokens()
    ensures Upper("GAD-7") == "GAD-7" && Upper("PHQ-9") == "PHQ-9"
  {
    UpperFixesUpperCase("GAD-7");
    UpperFixesUpperCase("PHQ-9");
  }

  /** The band a questionnaire token selects for a given total. */
  function Dispatch(questionnaire: string, total: int): (b: Band)
    ensures Upper(questionnaire) == "GAD-7" ==> b == Gad7Bands[Rank(Gad7Cutoffs, total)]
    ensures Upper(questionnaire) == "PHQ-9" ==> b == Phq9Bands[Rank(Phq9Cutoffs, total)]
    ensures Upper(questionnaire) != "GAD-7" && Upper(questionnaire) != "PHQ-9" ==> b == UnknownBand
  {
    if Upper(questionnaire) == "GAD-7" then InterpretGad7(total)
    else if Upper(questionnaire) == "PHQ-9" then InterpretPhq9(total)
    else UnknownBand
  }

  /** The assess endpoint: the summed score, banded by the questionnaire the token names. */
  function Assess(req: AssessmentRequest): (r: AssessmentResult)
    ensures r.totalScore == Sum(req.responses)
    ensures Upper(req.questionnaire) == "GAD-7" ==>
              Band(r.severity, r.interpretation) == Gad7Bands[Rank(Gad7Cutoffs, r.totalScore)]
    ensures Upper(req.questionnaire) == "PHQ-9" ==>
              Band(r.severity, r.interpretation) == Phq9Bands[Rank(Phq9Cutoffs, r.totalScore)]
    ensures Upper(req.questionnaire) != "GAD-7" && Upper(req.questionnaire) != "PHQ-9" ==>
              r.severity == "Unknown" && r.interpretation == "Invalid questionnaire type."
  {
    var total := Sum(req.responses);
    var b := Dispatch(req.questionnaire, total);
    AssessmentResult(total, b.severity, b.interpretation)
  }

  /** Tokens that differ only in ASCII letter case are scored identically. */
  lemma AssessCaseInsensitive(q1: string, q2: string, responses: seq<int>)
    requires Upper(q1) == Upper(q2)
    ensures Assess(AssessmentRequest(q1, responses)) == Assess(AssessmentRequest(q2, responses))
  {
  }

  /** "gad-7" is routed to the GAD-7 bands, exactly like "GAD-7". */
  lemma LowerCaseGad7Token(responses: seq<int>)
    ensures Assess(AssessmentRequest("gad-7", responses)) == Assess(AssessmentRequest("GAD-7", responses))
    ensures Band(Assess(AssessmentRequest("gad-7", responses)).severity,
                 Assess(AssessmentRequest("gad-7", responses)).interpretation) ==
            Gad7Bands[Rank(Gad7Cutoffs, Sum(responses))]
  {
    assert Upper("gad-7") == "GAD-7";
    CanonicalTokens();
  }

  /** Any unrecognised token still reports the summed score, with the Unknown band. */
  lemma UnknownTokenKeepsScore(q: string, responses: seq<int>)
    requires Upper(q) != "GAD-7" && Upper(q) != "PHQ-9"
    ensures Assess(AssessmentRequest(q, responses)) ==
            AssessmentResult(Sum(responses), "Unknown", "Invalid questionnaire type.")
  {
  }
}
