/** The suicide-risk questionnaire page (app/assess/suicide/page.tsx): ten yes/no
    questions, a count of the "yes" answers, and a risk level with its own severity,
    recommendations and routing. */
module SuicideAssessment {
  import opened Types
  import Scoring

  const QuestionCount := 10

  /** Index of "Do you have a plan to harm yourself?". */
  const PlanQuestion := 1
  /** Index of "Do you have a support system?", a protective question counted like the rest. */
  const SupportSystemQuestion := 8

  /** The number of "yes" answers (`filter` then `length`). */
  function RiskCount(answers: seq<bool>): (n: nat)
    ensures n <= |answers|
  {
    if answers == [] then 0
    else RiskCount(answers[..|answers| - 1]) + if answers[|answers| - 1] then 1 else 0
  }

  /** Counting a list split in two counts both parts. */
  lemma {:induction false} RiskCountAppend(a: seq<bool>, b: seq<bool>)
    ensures RiskCount(a + b) == RiskCount(a) + RiskCount(b)
    decreases |b|
  {
    if b == [] {
      assert a + b == a;
    } else {
      assert (a + b)[..|a + b| - 1] == a + b[..|b| - 1];
      RiskCountAppend(a, b[..|b| - 1]);
    }
  }

  /** Turning any "no" into "yes" adds exactly one to the count, whichever question it is,
      the protective support-system question included. */
  lemma FlipToYesAddsOne(answers: seq<bool>, i: nat)
    requires i < |answers| && !answers[i]
    ensures RiskCount(answers[i := true]) == RiskCount(answers) + 1
  {
    var before, after := answers[..i], answers[i + 1..];
    assert answers == before + [false] + after;
    assert answers[i := true] == before + [true] + after;
    RiskCountAppend(before + [false], after);
    RiskCountAppend(before + [true], after);
    RiskCountAppend(before, [false]);
    RiskCountAppend(before, [true]);
    assert RiskCount([true]) == 1 by { assert [true][..0] == []; }
    assert RiskCount([false]) == 0 by { assert [false][..0] == []; }
  }

  datatype RiskLevel = Low | ModerateRisk | High | Critical

  /** Position of a risk level in the order low < moderate < high < critical. */
  function LevelRank(l: RiskLevel): nat {
    match l
    case Low => 0
    case ModerateRisk => 1
    case High => 2
    case Critical => 3
  }

  /** The page's local routing decision; the emergency route is not a stored route. */
  datatype PageRoute = Emergency | ToHumanTherapy | ToAiSupport

  /** The risk level: 6 or more risk factors critical, 4 or more high, 2 or more moderate,
      else low. */
  function RiskLevelOf(count: int): (l: RiskLevel)
    ensures l == Critical <==> 6 <= count
    ensures l == High <==> 4 <= count < 6
    ensures l == ModerateRisk <==> 2 <= count < 4
    ensures l == Low <==> count < 2
  {
    if count >= 6 then Critical
    else if count >= 4 then High
    else if count >= 2 then ModerateRisk
    else Low
  }

  /** More "yes" answers never lower the risk level. */
  lemma RiskLevelMonotone(c1: int, c2: int)
    requires c1 <= c2
    ensures LevelRank(RiskLevelOf(c1)) <= LevelRank(RiskLevelOf(c2))
  {
  }

  /** The severity stored for a risk level: one step per level, critical being severe. */
  function SeverityOf(l: RiskLevel): (s: Severity)
    ensures Rank(s) == LevelRank(l) + 1
  {
    if l == Critical then Severe
    else if l == High then ModeratelySevere
    else if l == ModerateRisk then Moderate
    else Mild
  }

  /** Three recommendations for every risk level. */
  function RecommendationsOf(l: RiskLevel): (r: seq<string>)
    ensures |r| == 3
  {
    if l == Critical then ["Call 988 immediately", "Go to emergency room", "Remove access to means"]
    else if l == High then ["Seek immediate professional help", "Create safety plan", "Remove access to means"]
    else if l == ModerateRisk then ["Schedule professional evaluation", "Build support network", "Practice safety measures"]
    else ["Continue monitoring", "Build coping skills", "Maintain support connections"]
  }

  /** Only the high and critical levels are told to remove access to means. */
  lemma RemoveMeansOnlyAtHighOrCritical(l: RiskLevel)
    ensures "Remove access to means" in RecommendationsOf(l) <==> LevelRank(l) >= 2
  {
  }

  /** The emergency route is stored as human therapy. */
  function StoredRoute(r: PageRoute): (route: Route)
    ensures route != Stable
    ensures route == AiSupport <==> r == ToAiSupport
  {
    match r
    case Emergency => HumanTherapy
    case ToHumanTherapy => HumanTherapy
    case ToAiSupport => AiSupport
  }

  class SuicideForm {
    var answers: seq<bool>

    ghost predicate Valid()
      reads this
    {
      |answers| == QuestionCount
    }

    /** Every question starts answered "no". */
    constructor ()
      ensures Valid()
      ensures forall i :: 0 <= i < |answers| ==> !answers[i]
      ensures RiskCount(answers) == 0
    {
      var none := seq(QuestionCount, _ => false);
      NoYesCountsZero(none);
      answers := none;
    }

    /** Sets the answer at `index` and leaves every other answer as it was. */
    method HandleAnswer(index: int, value: bool)
      requires Valid()
      modifies this
      ensures Valid()
      ensures 0 <= index < |answers| ==> answers == old(answers)[index := value]
      ensures !(0 <= index < |answers|) ==> answers == old(answers)
    {
      var current := answers;
      answers := seq(|current|, i requires 0 <= i < |current| => if i == index then value else current[i]);
    }

    /** Counts the risk factors, raises the level and route band by band, and builds the
        result. The stored route is never the emergency route; only the critical level
        navigates to the emergency page. */
    method HandleSubmit(id: string, now: int) returns (assessment: AssessmentResult, path: string)
      ensures var count := RiskCount(answers); var level := RiskLevelOf(count);
        && assessment.id == id && assessment.timestamp == now
        && assessment.scores == NoScores.(suicideRisk := Some(count))
        && assessment.severity == SeverityOf(level)
        && assessment.symptoms == (if count > 0 then ["Suicidal ideation", "Risk factors present"] else [])
        && assessment.recommendations == RecommendationsOf(level)
        && assessment.routeTo == (if level == Low then AiSupport else HumanTherapy)
        && (path == "/emergency" <==> level == Critical)
        && (path != "/emergency" ==> path == "/results")
    {
      var riskFactors := RiskCount(answers);
      var riskLevel := Low;
      var routeTo := ToAiSupport;
      if riskFactors >= 6 {
        riskLevel := Critical;
        routeTo := Emergency;
      } else if riskFactors >= 4 {
        riskLevel := High;
        routeTo := ToHumanTherapy;
      } else if riskFactors >= 2 {
        riskLevel := ModerateRisk;
        routeTo := ToHumanTherapy;
      }
      assessment := AssessmentResult(
        id, now,
        NoScores.(suicideRisk := Some(riskFactors)),
        SeverityOf(riskLevel),
        if riskFactors > 0 then ["Suicidal ideation", "Risk factors present"] else [],
        RecommendationsOf(riskLevel),
        StoredRoute(routeTo));
      if routeTo == Emergency {
        path := "/emergency";
      } else {
        path := "/results";
      }
    }
  }

  lemma {:induction false} NoYesCountsZero(answers: seq<bool>)
    requires forall i :: 0 <= i < |answers| ==> !answers[i]
    ensures RiskCount(answers) == 0
  {
    if answers != [] {
      NoYesCountsZero(answers[..|answers| - 1]);
    }
  }

  /** The stored route is the one the main routing rule gives the stored severity. */
  lemma StoredRouteMatchesMainRouting(count: int)
    ensures Scoring.DetermineRouting(SeverityOf(RiskLevelOf(count)), NoIdeation)
         == (if RiskLevelOf(count) == Low then AiSupport else HumanTherapy)
  {
  }

  /** Answering "yes" to the plan question alone is low risk, mild and AI support here,
      while the scorer treats a plan flag as severe and routes it to human therapy. */
  lemma PlanAloneIsLowRisk()
    ensures var answers := seq(QuestionCount, i => i == PlanQuestion);
      && RiskLevelOf(RiskCount(answers)) == Low
      && SeverityOf(RiskLevelOf(RiskCount(answers))) == Mild
    ensures forall total :: Scoring.DetermineSeverity(total, SuicidalIdeation(false, true, false)) == Severe
    ensures Scoring.DetermineRouting(Severe, SuicidalIdeation(false, true, false)) == HumanTherapy
  {
    var none := seq(QuestionCount, _ => false);
    NoYesCountsZero(none);
    FlipToYesAddsOne(none, PlanQuestion);
    assert none[PlanQuestion := true] == seq(QuestionCount, i => i == PlanQuestion);
  }

  /** A "yes" to the support-system question raises the count like any risk factor. */
  lemma SupportSystemCountsAsRisk(answers: seq<bool>)
    requires |answers| == QuestionCount && !answers[SupportSystemQuestion]
    ensures RiskCount(answers[SupportSystemQuestion := true]) == RiskCount(answers) + 1
  {
    FlipToYesAddsOne(answers, SupportSystemQuestion);
  }
}
