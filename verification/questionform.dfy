/** The quick-screen questionnaire form (components/QuestionForm.tsx): a per-question
    answer array edited one index at a time, and a submit step that classifies PHQ-9 and
    GAD-7 totals with its own copy of the cutoffs and its own routing rule. */
module QuestionForm {
  import opened Types
  import Scoring

  /** The marker of a question not answered yet. */
  const Unanswered := -1

  /** The number of answered questions, as the progress line shows it. */
  function AnsweredCount(answers: seq<int>): (n: nat)
    ensures n <= |answers|
  {
    if answers == [] then 0
    else AnsweredCount(answers[..|answers| - 1]) + if answers[|answers| - 1] != Unanswered then 1 else 0
  }

  /** Every question is answered exactly when the answered count is the question count. */
  lemma {:induction false} AllAnsweredIffCountFull(answers: seq<int>)
    ensures AnsweredCount(answers) == |answers| <==> forall i :: 0 <= i < |answers| ==> answers[i] != Unanswered
  {
    if answers != [] {
      var n := |answers| - 1;
      AllAnsweredIffCountFull(answers[..n]);
      if forall i :: 0 <= i < |answers| ==> answers[i] != Unanswered {
        assert forall i :: 0 <= i < n ==> answers[..n][i] != Unanswered;
      }
      if AnsweredCount(answers) == |answers| {
        assert AnsweredCount(answers[..n]) == n;
        forall i | 0 <= i < |answers|
          ensures answers[i] != Unanswered
        {
          if i < n { assert answers[..n][i] == answers[i]; }
        }
      }
    }
  }

  /** The quick screen's PHQ-9 cutoffs, written out separately from the scorer's. */
  function QuickPhqSeverity(total: int): (s: Severity)
    ensures s == Scoring.PhqSeverity(total)
  {
    if total <= 4 then Minimal
    else if total <= 9 then Mild
    else if total <= 14 then Moderate
    else if total <= 19 then ModeratelySevere
    else Severe
  }

  /** The quick screen's GAD-7 cutoffs, written out separately from the scorer's. */
  function QuickGadSeverity(total: int): (s: Severity)
    ensures s == Scoring.GadSeverity(total)
  {
    if total <= 4 then Minimal
    else if total <= 9 then Mild
    else if total <= 14 then Moderate
    else Severe
  }

  /** The quick screen's routing: both upper levels to human therapy, moderate and mild
      to AI support, minimal stays stable. */
  function QuickRoute(s: Severity): (r: Route)
    ensures r == HumanTherapy <==> Rank(s) >= 3
    ensures r == AiSupport <==> s == Moderate || s == Mild
    ensures r == Stable <==> s == Minimal
  {
    if s == Severe || s == ModeratelySevere then HumanTherapy
    else if s == Moderate || s == Mild then AiSupport
    else Stable
  }

  /** The quick screen and the main routing rule disagree on moderate results, and only
      there: the quick screen sends them to AI support. */
  lemma QuickRouteDiffersOnlyOnModerate(s: Severity)
    ensures QuickRoute(s) != Scoring.DetermineRouting(s, NoIdeation) <==> s == Moderate
    ensures s == Moderate ==> QuickRoute(s) == AiSupport && Scoring.DetermineRouting(s, NoIdeation) == HumanTherapy
  {
  }

  /** The quick screen adds the answers as plain numbers; that is the scorer's total of the
      same answers, none of them absent. */
  lemma {:induction false} QuickTotalMatchesScorer(answers: seq<int>)
    ensures Scoring.AnswerTotal(seq(|answers|, i requires 0 <= i < |answers| => Some(answers[i])))
         == Scoring.Sum(answers)
  {
    var wrapped := seq(|answers|, i requires 0 <= i < |answers| => Some(answers[i]));
    if answers != [] {
      var n := |answers| - 1;
      QuickTotalMatchesScorer(answers[..n]);
      assert wrapped[..n] == seq(n, i requires 0 <= i < n => Some(answers[..n][i]));
    }
  }

  /** The evaluation with every number 2 and every flag false that a quick screen scores. */
  const BasicEvaluation := SymptomEvaluation(
    SleepPatterns(2, 2, []), Appetite(2, "", 2), Energy(2, 2, 2), Behavior([], 2, 2),
    Social(2, 2, 2), Thoughts(2, [], NoIdeation), Coping([], 2, []))

  /** The sub-scores a quick-screen result keeps from the basic evaluation; the
      questionnaire total itself is not stored. */
  lemma BasicEvaluationScores()
    ensures Scoring.SubScores(BasicEvaluation, None, None)
         == Scores(None, None, Some(4), Some(4), Some(6), Some(6), Some(2), None)
  {
  }

  /** Scores the basic evaluation with the main engine; a quick screen keeps only the id,
      the instant and the sub-scores of that result. */
  method ScoreBasicEvaluation(id: string, now: int) returns (r: AssessmentResult)
    ensures r.id == id && r.timestamp == now
    ensures r.scores == Scoring.SubScores(BasicEvaluation, None, None)
  {
    r := Scoring.CreateAssessmentResult(BasicEvaluation, None, None, id, now);
  }

  const ReferralSymptoms: seq<string> := ["Mood changes", "Anxiety symptoms"]
  const ReferralRecommendations: seq<string> := ["Consider professional evaluation", "Practice self-care strategies"]
  const MinimalRecommendations: seq<string> := ["Continue healthy habits", "Regular mood monitoring"]

  /** One questionnaire page: its answers, the key it stores them under and where it goes
      next. */
  class QuestionFormState {
    var answers: seq<int>
    const storageKey: string
    const next: Option<string>

    /** Every answer is unanswered or one of the four option values. */
    ghost predicate Valid()
      reads this
    {
      forall i :: 0 <= i < |answers| ==> Unanswered <= answers[i] <= 3
    }

    /** Every question starts unanswered, so submitting is disabled at first (when there
        is at least one question). */
    constructor (questionCount: nat, storageKey: string, next: Option<string>)
      ensures Valid()
      ensures |answers| == questionCount
      ensures forall i :: 0 <= i < questionCount ==> answers[i] == Unanswered
      ensures this.storageKey == storageKey && this.next == next
    {
      answers := seq(questionCount, _ => Unanswered);
      this.storageKey := storageKey;
      this.next := next;
    }

    /** Submitting is allowed once no answer is unanswered. */
    predicate CanSubmit()
      reads this
    {
      forall i :: 0 <= i < |answers| ==> answers[i] != Unanswered
    }

    /** Choosing option `v` for question `i` changes that answer and no other; an index
        outside the form changes nothing. */
    method Select(i: int, v: int)
      requires Valid()
      requires 0 <= v <= 3
      modifies this
      ensures Valid()
      ensures |answers| == |old(answers)|
      ensures 0 <= i < |answers| ==> answers == old(answers)[i := v]
      ensures !(0 <= i < |answers|) ==> answers == old(answers)
    {
      var current := answers;
      answers := seq(|current|, idx requires 0 <= idx < |current| => if idx == i then v else current[idx]);
    }

    /** "Clear selection" makes question `i` unanswered again and touches no other. */
    method Clear(i: int)
      requires Valid()
      modifies this
      ensures Valid()
      ensures |answers| == |old(answers)|
      ensures 0 <= i < |answers| ==> answers == old(answers)[i := Unanswered]
      ensures !(0 <= i < |answers|) ==> answers == old(answers)
    {
      var current := answers;
      answers := seq(|current|, idx requires 0 <= idx < |current| => if idx == i then Unanswered else current[idx]);
    }

    /** Only the PHQ-9 and GAD-7 pages create an assessment: the basic evaluation is
        scored, then its severity, route, symptoms and recommendations are overwritten
        from the questionnaire total. Either way the page goes to `next`, or to the
        results page without one. */
    method Submit(id: string, now: int) returns (assessment: Option<AssessmentResult>, path: string)
      ensures assessment.Some? <==> storageKey == "phq9" || storageKey == "gad7"
      ensures assessment.Some? ==>
        var a := assessment.value;
        && a.id == id && a.timestamp == now
        && a.severity == (if storageKey == "phq9" then Scoring.PhqSeverity(Scoring.Sum(answers))
                          else Scoring.GadSeverity(Scoring.Sum(answers)))
        && a.routeTo == QuickRoute(a.severity)
        && a.symptoms == (if a.severity == Minimal then [] else ReferralSymptoms)
        && a.recommendations == (if a.severity == Minimal then MinimalRecommendations else ReferralRecommendations)
        && a.scores == Scoring.SubScores(BasicEvaluation, None, None)
      ensures path == next.GetOr("/results")
    {
      if storageKey == "phq9" || storageKey == "gad7" {
        var total := Scoring.Sum(answers);
        var severity := Minimal;
        var routeTo := Stable;
        if storageKey == "phq9" {
          severity := QuickPhqSeverity(total);
        } else if storageKey == "gad7" {
          severity := QuickGadSeverity(total);
        }
        if severity == Severe || severity == ModeratelySevere {
          routeTo := HumanTherapy;
        } else if severity == Moderate || severity == Mild {
          routeTo := AiSupport;
        }
        var result := ScoreBasicEvaluation(id, now);
        result := result.(severity := severity);
        result := result.(routeTo := routeTo);
        result := result.(symptoms := if severity != Minimal then ReferralSymptoms else []);
        result := result.(recommendations := if severity != Minimal then ReferralRecommendations else MinimalRecommendations);
        assessment := Some(result);
      } else {
        assessment := None;
      }
      if next.Some? {
        path := next.value;
      } else {
        path := "/results";
      }
    }
  }

  /** With every answer one of the option values, a page's total lies between 0 and three
      per question. */
  lemma QuickTotalBounds(answers: seq<int>)
    requires forall i :: 0 <= i < |answers| ==> 0 <= answers[i] <= 3
    ensures 0 <= Scoring.Sum(answers) <= 3 * |answers|
  {
    Scoring.SumBounds(answers, 3);
  }
}
