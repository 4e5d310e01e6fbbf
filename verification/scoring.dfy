/** Questionnaire scorers, the composite symptom score, the severity and routing
    classifiers with their suicidal-ideation override, symptom labels, recommendations
    and the assembly of an assessment result (lib/scoring.ts). */
module Scoring {
  import opened Types

  // ---------------------------------------------------------------------------
  // PHQ-9 and GAD-7

  /** A questionnaire item is absent (undefined or NaN) or one of the scores 0..3. */
  predicate ValidItem(a: Option<int>) {
    a.None? || 0 <= a.value <= 3
  }

  /** `a || 0`: an absent item counts as 0. */
  function ItemValue(a: Option<int>): int {
    a.GetOr(0)
  }

  /** The `reduce` total of the answers, a fold from the left starting at 0. */
  function AnswerTotal(answers: seq<Option<int>>): (t: int)
    ensures (forall i :: 0 <= i < |answers| ==> ValidItem(answers[i])) ==> 0 <= t <= 3 * |answers|
  {
    if answers == [] then 0
    else AnswerTotal(answers[..|answers| - 1]) + ItemValue(answers[|answers| - 1])
  }

  /** The total does not depend on how the answers are split, so an absent item anywhere
      adds nothing. */
  lemma {:induction false} AnswerTotalAppend(a: seq<Option<int>>, b: seq<Option<int>>)
    ensures AnswerTotal(a + b) == AnswerTotal(a) + AnswerTotal(b)
    decreases |b|
  {
    if b == [] {
      assert a + b == a;
    } else {
      var b' := b[..|b| - 1];
      assert (a + b)[..|a + b| - 1] == a + b';
      AnswerTotalAppend(a, b');
    }
  }

  lemma AbsentItemCountsZero(a: seq<Option<int>>, b: seq<Option<int>>)
    ensures AnswerTotal(a + [None] + b) == AnswerTotal(a + b)
  {
    AnswerTotalAppend(a + [None], b);
    AnswerTotalAppend(a, b);
    assert (a + [None])[..|a|] == a;
  }

  /** PHQ-9 cutoffs, inclusive upper bounds 4, 9, 14 and 19. */
  function PhqSeverity(total: int): (s: Severity)
    ensures s == Minimal <==> total <= 4
    ensures s == Mild <==> 5 <= total <= 9
    ensures s == Moderate <==> 10 <= total <= 14
    ensures s == ModeratelySevere <==> 15 <= total <= 19
    ensures s == Severe <==> 20 <= total
  {
    if total <= 4 then Minimal
    else if total <= 9 then Mild
    else if total <= 14 then Moderate
    else if total <= 19 then ModeratelySevere
    else Severe
  }

  /** GAD-7 cutoffs: the PHQ-9 bands up to 14, then severe; it has no moderately severe band. */
  function GadSeverity(total: int): (s: Severity)
    ensures s != ModeratelySevere
    ensures total <= 14 ==> s == PhqSeverity(total)
    ensures s == Severe <==> 15 <= total
  {
    if total <= 4 then Minimal
    else if total <= 9 then Mild
    else if total <= 14 then Moderate
    else Severe
  }

  lemma QuestionnaireSeverityMonotone(t1: int, t2: int)
    requires t1 <= t2
    ensures Rank(PhqSeverity(t1)) <= Rank(PhqSeverity(t2))
    ensures Rank(GadSeverity(t1)) <= Rank(GadSeverity(t2))
  {
  }

  datatype Screening = Screening(total: int, severity: Severity)

  function ScorePHQ9(answers: seq<Option<int>>): (r: Screening)
    ensures r.total == AnswerTotal(answers) && r.severity == PhqSeverity(r.total)
    ensures |answers| == 9 && (forall i :: 0 <= i < 9 ==> ValidItem(answers[i])) ==> 0 <= r.total <= 27
  {
    var total := AnswerTotal(answers);
    Screening(total, PhqSeverity(total))
  }

  function ScoreGAD7(answers: seq<Option<int>>): (r: Screening)
    ensures r.total == AnswerTotal(answers) && r.severity == GadSeverity(r.total)
    ensures |answers| == 7 && (forall i :: 0 <= i < 7 ==> ValidItem(answers[i])) ==> 0 <= r.total <= 21
  {
    var total := AnswerTotal(answers);
    Screening(total, GadSeverity(total))
  }

  /** Nine answers of 3 total 27, which is severe. */
  lemma AllMaxPhq9IsSevere()
    ensures ScorePHQ9(seq(9, _ => Some(3))) == Screening(27, Severe)
  {
    ConstantAnswersTotal(9, 3);
  }

  /** `n` answers all equal to `v` total `n * v`. */
  lemma {:induction false} ConstantAnswersTotal(n: nat, v: int)
    ensures AnswerTotal(seq(n, _ => Some(v))) == n * v
  {
    if n > 0 {
      var a := seq(n, _ => Some(v));
      assert a[..n - 1] == seq(n - 1, _ => Some(v));
      ConstantAnswersTotal(n - 1, v);
      assert (n - 1) * v + v == n * v;
    }
  }

  // ---------------------------------------------------------------------------
  // Suicide flag

  datatype SuicideRisk = NoRisk | Elevated | Immediate

  function SuicideFlag(thoughts: bool, plan: bool, intent: bool): (r: SuicideRisk)
    ensures r == Immediate <==> plan || intent
    ensures r == Elevated <==> thoughts && !plan && !intent
    ensures r == NoRisk <==> !AnyIdeation(SuicidalIdeation(thoughts, plan, intent))
  {
    if intent || plan then Immediate
    else if thoughts then Elevated
    else NoRisk
  }

  // ---------------------------------------------------------------------------
  // Composite score

  function Sum(s: seq<int>): int {
    if s == [] then 0 else Sum(s[..|s| - 1]) + s[|s| - 1]
  }

  lemma {:induction false} SumBounds(s: seq<int>, m: int)
    requires 0 <= m
    requires forall i :: 0 <= i < |s| ==> 0 <= s[i] <= m
    ensures 0 <= Sum(s) <= m * |s|
  {
    if s != [] {
      SumBounds(s[..|s| - 1], m);
      assert m * (|s| - 1) + m == m * |s|;
    }
  }

  /** The fourteen fields the composite score adds, in the order the source adds them. */
  function CompositeFields(e: SymptomEvaluation): (fs: seq<int>)
    ensures |fs| == 14
  {
    [ e.sleepPatterns.quality, e.sleepPatterns.duration,
      e.appetite.changes, e.appetite.motivation,
      e.energy.level, e.energy.fatigue, e.energy.motivation,
      e.social.functioning, e.social.relationships, e.social.isolation,
      e.behavior.socialWithdrawal, e.behavior.irritability,
      e.thoughts.selfImage, e.coping.effectiveness ]
  }

  /** The composite score on its documented 0-140 scale. */
  function CompositeScore(e: SymptomEvaluation): (t: int)
    ensures ScaledEvaluation(e) ==> 0 <= t <= 140
  {
    var fs := CompositeFields(e);
    assert ScaledEvaluation(e) ==> forall i :: 0 <= i < |fs| ==> 0 <= fs[i] <= 10;
    if ScaledEvaluation(e) then SumBounds(fs, 10); Sum(fs) else Sum(fs)
  }

  /** Accumulates the fourteen fields one by one into a running total. */
  method CalculateSymptomScore(e: SymptomEvaluation) returns (total: int)
    ensures total == Sum(CompositeFields(e))
    ensures ScaledEvaluation(e) ==> 0 <= total <= 140
  {
    total := 0;
    total := total + e.sleepPatterns.quality;
    total := total + e.sleepPatterns.duration;
    total := total + e.appetite.changes;
    total := total + e.appetite.motivation;
    total := total + e.energy.level;
    total := total + e.energy.fatigue;
    total := total + e.energy.motivation;
    total := total + e.social.functioning;
    total := total + e.social.relationships;
    total := total + e.social.isolation;
    total := total + e.behavior.socialWithdrawal;
    total := total + e.behavior.irritability;
    total := total + e.thoughts.selfImage;
    total := total + e.coping.effectiveness;
    SumFourteen(CompositeFields(e));
    assert total == CompositeScore(e);
  }

  // ---------------------------------------------------------------------------
  // Severity and routing

  /** Ideation forces severe; otherwise lower-inclusive cutoffs 100, 70, 50 and 30. */
  function DetermineSeverity(totalScore: int, si: SuicidalIdeation): (s: Severity)
    ensures AnyIdeation(si) ==> s == Severe
    ensures !AnyIdeation(si) ==>
      && (s == Severe <==> 100 <= totalScore)
      && (s == ModeratelySevere <==> 70 <= totalScore < 100)
      && (s == Moderate <==> 50 <= totalScore < 70)
      && (s == Mild <==> 30 <= totalScore < 50)
      && (s == Minimal <==> totalScore < 30)
  {
    if AnyIdeation(si) then Severe
    else if totalScore >= 100 then Severe
    else if totalScore >= 70 then ModeratelySevere
    else if totalScore >= 50 then Moderate
    else if totalScore >= 30 then Mild
    else Minimal
  }

  /** A higher score never gives a lower severity. */
  lemma SeverityMonotone(t1: int, t2: int, si: SuicidalIdeation)
    requires t1 <= t2
    ensures Rank(DetermineSeverity(t1, si)) <= Rank(DetermineSeverity(t2, si))
  {
  }

  /** Ideation forces human therapy; otherwise moderate and above go to human therapy,
      mild to AI support and minimal to stable. */
  function DetermineRouting(severity: Severity, si: SuicidalIdeation): (r: Route)
    ensures AnyIdeation(si) ==> r == HumanTherapy
    ensures !AnyIdeation(si) ==>
      && (r == HumanTherapy <==> Rank(severity) >= Rank(Moderate))
      && (r == AiSupport <==> severity == Mild)
      && (r == Stable <==> severity == Minimal)
  {
    if AnyIdeation(si) then HumanTherapy
    else match severity
      case Severe => HumanTherapy
      case ModeratelySevere => HumanTherapy
      case Moderate => HumanTherapy
      case Mild => AiSupport
      case Minimal => Stable
  }

  /** The routing of a severity never routes a higher severity to a lighter pathway. */
  lemma RoutingFollowsSeverity(s1: Severity, s2: Severity, si: SuicidalIdeation)
    requires Rank(s1) <= Rank(s2)
    ensures DetermineRouting(s1, si) == HumanTherapy ==> DetermineRouting(s2, si) == HumanTherapy
    ensures DetermineRouting(s2, si) == Stable ==> DetermineRouting(s1, si) == Stable
  {
  }

  // ---------------------------------------------------------------------------
  // Symptom labels

  /** One row of the fixed symptom check list: whether it fires, and its label. */
  datatype Check = Check(fires: bool, name: string)

  /** The fourteen checks in the order the source tries them. All but the last fire at
      5 or more; the coping check is protective and fires at 5 or less. */
  function SymptomChecks(e: SymptomEvaluation): (cs: seq<Check>)
    ensures |cs| == 14
  {
    [ Check(e.sleepPatterns.quality >= 5, "Sleep disturbances"),
      Check(e.sleepPatterns.duration >= 5, "Insomnia or oversleeping"),
      Check(e.appetite.changes >= 5, "Appetite changes"),
      Check(e.appetite.motivation >= 5, "Loss of motivation"),
      Check(e.energy.level >= 5, "Low energy"),
      Check(e.energy.fatigue >= 5, "Fatigue"),
      Check(e.energy.motivation >= 5, "Lack of motivation"),
      Check(e.social.functioning >= 5, "Social difficulties"),
      Check(e.social.isolation >= 5, "Social withdrawal"),
      Check(e.social.relationships >= 5, "Relationship problems"),
      Check(e.behavior.socialWithdrawal >= 5, "Social withdrawal"),
      Check(e.behavior.irritability >= 5, "Irritability"),
      Check(e.thoughts.selfImage >= 5, "Negative self-image"),
      Check(e.coping.effectiveness <= 5, "Poor coping skills") ]
  }

  /** The labels of the checks that fire, in check order, duplicates kept. */
  function FiredLabels(cs: seq<Check>): (r: seq<string>)
    ensures |r| <= |cs|
  {
    if cs == [] then []
    else
      var last := cs[|cs| - 1];
      var prefix := FiredLabels(cs[..|cs| - 1]);
      if last.fires then prefix + [last.name] else prefix
  }

  /** Checking one more check appends its label when it fires. */
  lemma FiredLabelsStep(cs: seq<Check>, k: nat)
    requires k < |cs|
    ensures FiredLabels(cs[..k + 1]) == FiredLabels(cs[..k]) + if cs[k].fires then [cs[k].name] else []
  {
    assert cs[..k + 1][..k] == cs[..k];
  }

  /** Checking two lists one after the other lists the labels of both in order. */
  lemma {:induction false} FiredLabelsAppend(a: seq<Check>, b: seq<Check>)
    ensures FiredLabels(a + b) == FiredLabels(a) + FiredLabels(b)
    decreases |b|
  {
    if b == [] {
      assert a + b == a;
    } else {
      assert (a + b)[..|a + b| - 1] == a + b[..|b| - 1];
      FiredLabelsAppend(a, b[..|b| - 1]);
    }
  }

  /** A label is listed exactly when some check carrying it fires. */
  lemma {:induction false} FiredLabelsMembership(cs: seq<Check>, l: string)
    ensures l in FiredLabels(cs) <==> exists i :: 0 <= i < |cs| && cs[i].fires && cs[i].name == l
  {
    if cs != [] {
      var n := |cs| - 1;
      FiredLabelsMembership(cs[..n], l);
      if l in FiredLabels(cs[..n]) {
        var i :| 0 <= i < n && cs[..n][i].fires && cs[..n][i].name == l;
        assert cs[i] == cs[..n][i];
      }
      if exists i :: 0 <= i < |cs| && cs[i].fires && cs[i].name == l {
        var i :| 0 <= i < |cs| && cs[i].fires && cs[i].name == l;
        if i < n { assert cs[..n][i] == cs[i]; }
      }
    }
  }

  /** When only the check at `k` carries label `l`, `l` is listed exactly when that
      check fires. */
  lemma UniqueLabel(cs: seq<Check>, l: string, k: nat)
    requires k < |cs| && cs[k].name == l
    requires forall i :: 0 <= i < |cs| && i != k ==> cs[i].name != l
    ensures l in FiredLabels(cs) <==> cs[k].fires
  {
    FiredLabelsMembership(cs, l);
  }

  lemma {:induction false} NothingFiredNoLabels(cs: seq<Check>)
    requires forall i :: 0 <= i < |cs| ==> !cs[i].fires
    ensures FiredLabels(cs) == []
  {
    if cs != [] {
      NothingFiredNoLabels(cs[..|cs| - 1]);
    }
  }

  function Symptoms(e: SymptomEvaluation): (r: seq<string>)
    ensures |r| <= 14
  {
    FiredLabels(SymptomChecks(e))
  }

  /** Pushes the label of every check that fires, in check order. The source spells the
      fourteen checks out one after another; here they are walked as the rows of
      `SymptomChecks`. */
  method GenerateSymptoms(e: SymptomEvaluation) returns (symptoms: seq<string>)
    ensures symptoms == Symptoms(e)
    ensures |symptoms| <= 14
  {
    var checks := SymptomChecks(e);
    symptoms := [];
    var k := 0;
    while k < |checks|
      invariant 0 <= k <= |checks|
      invariant symptoms == FiredLabels(checks[..k])
    {
      if checks[k].fires {
        symptoms := symptoms + [checks[k].name];
      }
      FiredLabelsStep(checks, k);
      k := k + 1;
    }
    assert checks[..k] == checks;
  }

  /** "Poor coping skills" is listed exactly when coping effectiveness is 5 or less. */
  lemma PoorCopingCondition(e: SymptomEvaluation)
    ensures "Poor coping skills" in Symptoms(e) <==> e.coping.effectiveness <= 5
  {
    UniqueLabel(SymptomChecks(e), "Poor coping skills", 13);
  }

  /** "Sleep disturbances" follows sleep quality alone, "Insomnia or oversleeping" sleep
      duration alone, and "Low energy" the energy level alone. */
  lemma SleepAndEnergyConditions(e: SymptomEvaluation)
    ensures "Sleep disturbances" in Symptoms(e) <==> e.sleepPatterns.quality >= 5
    ensures "Insomnia or oversleeping" in Symptoms(e) <==> e.sleepPatterns.duration >= 5
    ensures "Low energy" in Symptoms(e) <==> e.energy.level >= 5
  {
    UniqueLabel(SymptomChecks(e), "Sleep disturbances", 0);
    UniqueLabel(SymptomChecks(e), "Insomnia or oversleeping", 1);
    UniqueLabel(SymptomChecks(e), "Low energy", 4);
  }

  /** "Social withdrawal" is listed when social isolation or behavioural withdrawal
      reaches 5, and only then. */
  lemma SocialWithdrawalCondition(e: SymptomEvaluation)
    ensures "Social withdrawal" in Symptoms(e) <==> e.social.isolation >= 5 || e.behavior.socialWithdrawal >= 5
  {
    var cs := SymptomChecks(e);
    FiredLabelsMembership(cs, "Social withdrawal");
    if "Social withdrawal" in Symptoms(e) {
      var i :| 0 <= i < |cs| && cs[i].fires && cs[i].name == "Social withdrawal";
      assert i == 8 || i == 10;
    }
    if e.social.isolation >= 5 { assert cs[8].fires; }
    if e.behavior.socialWithdrawal >= 5 { assert cs[10].fires; }
  }

  /** The evaluation with every number 0 and every flag false. */
  const ZeroEvaluation := SymptomEvaluation(
    SleepPatterns(0, 0, []), Appetite(0, "", 0), Energy(0, 0, 0), Behavior([], 0, 0),
    Social(0, 0, 0), Thoughts(0, [], NoIdeation), Coping([], 0, []))

  /** An all-zero evaluation is listed with exactly one symptom: coping effectiveness 0
      counts as poor coping. */
  lemma ZeroEvaluationSymptoms()
    ensures Symptoms(ZeroEvaluation) == ["Poor coping skills"]
  {
    var cs := SymptomChecks(ZeroEvaluation);
    NothingFiredNoLabels(cs[..13]);
    assert cs[..13] == cs[..|cs| - 1];
  }

  /** Zero everywhere except social isolation and behavioural withdrawal at 5: the same
      label is listed twice, in check order, before the coping label. */
  lemma SocialWithdrawalListedTwice()
    ensures var e := ZeroEvaluation.(social := Social(0, 0, 5), behavior := Behavior([], 5, 0));
      Symptoms(e) == ["Social withdrawal", "Social withdrawal", "Poor coping skills"]
  {
    var e := ZeroEvaluation.(social := Social(0, 0, 5), behavior := Behavior([], 5, 0));
    var cs := SymptomChecks(e);
    assert cs == cs[..8] + cs[8..9] + cs[9..10] + cs[10..11] + cs[11..13] + cs[13..];
    FiredLabelsAppend(cs[..8] + cs[8..9] + cs[9..10] + cs[10..11] + cs[11..13], cs[13..]);
    FiredLabelsAppend(cs[..8] + cs[8..9] + cs[9..10] + cs[10..11], cs[11..13]);
    FiredLabelsAppend(cs[..8] + cs[8..9] + cs[9..10], cs[10..11]);
    FiredLabelsAppend(cs[..8] + cs[8..9], cs[9..10]);
    FiredLabelsAppend(cs[..8], cs[8..9]);
    NothingFiredNoLabels(cs[..8]);
    NothingFiredNoLabels(cs[9..10]);
    NothingFiredNoLabels(cs[11..13]);
    assert FiredLabels(cs[8..9]) == ["Social withdrawal"] by { assert cs[8..9][..0] == []; }
    assert FiredLabels(cs[10..11]) == ["Social withdrawal"] by { assert cs[10..11][..0] == []; }
    assert FiredLabels(cs[13..]) == ["Poor coping skills"] by { assert cs[13..][..0] == []; }
  }

  // ---------------------------------------------------------------------------
  // Recommendations

  const UniversalRecommendations: seq<string> :=
    ["Practice regular self-care", "Maintain a consistent sleep schedule", "Engage in physical activity"]

  /** The severity-tier block: severe shares the moderately severe block, minimal has two. */
  function TierRecommendations(s: Severity): (r: seq<string>)
    ensures |r| == if s == Minimal then 2 else 3
  {
    match s
    case Severe => ["Seek immediate professional help", "Consider medication evaluation", "Create a safety plan"]
    case ModeratelySevere => ["Seek immediate professional help", "Consider medication evaluation", "Create a safety plan"]
    case Moderate => ["Schedule professional evaluation", "Consider therapy options", "Build support network"]
    case Mild => ["Try self-help strategies", "Monitor symptoms", "Consider brief therapy"]
    case Minimal => ["Continue healthy habits", "Regular mood monitoring"]
  }

  /** The symptom-triggered follow-ups, as checks: each fires when its symptom label is
      listed, however often. */
  function FollowUpChecks(symptoms: seq<string>): (cs: seq<Check>)
    ensures |cs| == 3
  {
    [ Check("Sleep disturbances" in symptoms, "Practice sleep hygiene"),
      Check("Social withdrawal" in symptoms, "Gradually increase social activities"),
      Check("Low energy" in symptoms, "Start with small, manageable tasks") ]
  }

  /** The symptom-triggered block: at most one of each follow-up, in a fixed order. */
  function FollowUpRecommendations(symptoms: seq<string>): (r: seq<string>)
    ensures |r| <= 3
  {
    FiredLabels(FollowUpChecks(symptoms))
  }

  /** Checks with pairwise distinct labels list each label at most once. */
  lemma {:induction false} DistinctNamesDistinctLabels(cs: seq<Check>)
    requires forall i, j :: 0 <= i < j < |cs| ==> cs[i].name != cs[j].name
    ensures var r := FiredLabels(cs); forall i, j :: 0 <= i < j < |r| ==> r[i] != r[j]
  {
    if cs != [] {
      var n := |cs| - 1;
      var prefix := FiredLabels(cs[..n]);
      DistinctNamesDistinctLabels(cs[..n]);
      if cs[n].fires {
        FiredLabelsMembership(cs[..n], cs[n].name);
        forall i | 0 <= i < n
          ensures !(cs[..n][i].fires && cs[..n][i].name == cs[n].name)
        {
          assert cs[..n][i] == cs[i];
        }
        assert cs[n].name !in prefix;
        var r := prefix + [cs[n].name];
        forall i, j | 0 <= i < j < |r|
          ensures r[i] != r[j]
        {
          if j == |prefix| {
            assert r[i] == prefix[i];
            assert r[i] in prefix;
          }
        }
      }
    }
  }

  /** Each follow-up is given exactly when its symptom label is listed, and never twice. */
  lemma FollowUpsFollowSymptoms(symptoms: seq<string>)
    ensures var r := FollowUpRecommendations(symptoms);
      && (forall i, j :: 0 <= i < j < |r| ==> r[i] != r[j])
      && ("Practice sleep hygiene" in r <==> "Sleep disturbances" in symptoms)
      && ("Gradually increase social activities" in r <==> "Social withdrawal" in symptoms)
      && ("Start with small, manageable tasks" in r <==> "Low energy" in symptoms)
  {
    var cs := FollowUpChecks(symptoms);
    DistinctNamesDistinctLabels(cs);
    UniqueLabel(cs, "Practice sleep hygiene", 0);
    UniqueLabel(cs, "Gradually increase social activities", 1);
    UniqueLabel(cs, "Start with small, manageable tasks", 2);
  }

  /** Universal items first, then the tier block, then the follow-ups. */
  function Recommendations(s: Severity, symptoms: seq<string>): (r: seq<string>)
    ensures |r| == 3 + |TierRecommendations(s)| + |FollowUpRecommendations(symptoms)|
  {
    UniversalRecommendations + TierRecommendations(s) + FollowUpRecommendations(symptoms)
  }

  /** The list holds 5 to 9 items: the three universal ones, then exactly the tier block,
      then exactly the follow-ups. */
  lemma RecommendationsLayout(s: Severity, symptoms: seq<string>)
    ensures var r := Recommendations(s, symptoms); var t := |TierRecommendations(s)|;
      && 5 <= |r| <= 9
      && r[..3] == UniversalRecommendations
      && r[3..3 + t] == TierRecommendations(s)
      && r[3 + t..] == FollowUpRecommendations(symptoms)
  {
  }

  method GenerateRecommendations(s: Severity, symptoms: seq<string>) returns (recommendations: seq<string>)
    ensures recommendations == Recommendations(s, symptoms)
  {
    recommendations := [];
    recommendations := recommendations + ["Practice regular self-care"];
    recommendations := recommendations + ["Maintain a consistent sleep schedule"];
    recommendations := recommendations + ["Engage in physical activity"];
    assert recommendations == UniversalRecommendations;
    recommendations := recommendations + TierRecommendations(s);
    ghost var head := recommendations;
    var followUps := FollowUpChecks(symptoms);
    var k := 0;
    while k < |followUps|
      invariant 0 <= k <= |followUps|
      invariant recommendations == head + FiredLabels(followUps[..k])
    {
      if followUps[k].fires {
        recommendations := recommendations + [followUps[k].name];
      }
      FiredLabelsStep(followUps, k);
      k := k + 1;
    }
    assert followUps[..k] == followUps;
  }

  // ---------------------------------------------------------------------------
  // Assessment result

  /** The per-domain sub-scores; together they hold the composite score except for the
      withdrawal, irritability and self-image fields, which no sub-score carries. */
  function SubScores(e: SymptomEvaluation, phq9: Option<int>, gad7: Option<int>): (sc: Scores)
    ensures sc.phq9 == phq9 && sc.gad7 == gad7 && sc.suicideRisk.None?
    ensures sc.sleep.Some? && sc.appetite.Some? && sc.energy.Some? && sc.social.Some? && sc.coping.Some?
    ensures sc.sleep.value + sc.appetite.value + sc.energy.value + sc.social.value + sc.coping.value
         == CompositeScore(e) - (e.behavior.socialWithdrawal + e.behavior.irritability + e.thoughts.selfImage)
  {
    var fs := CompositeFields(e);
    assert Sum(fs) == fs[0] + fs[1] + fs[2] + fs[3] + fs[4] + fs[5] + fs[6] + fs[7] + fs[8] + fs[9] + fs[10] + fs[11] + fs[12] + fs[13] by {
      SumFourteen(fs);
    }
    Scores(
      phq9, gad7,
      Some(e.sleepPatterns.quality + e.sleepPatterns.duration),
      Some(e.appetite.changes + e.appetite.motivation),
      Some(e.energy.level + e.energy.fatigue + e.energy.motivation),
      Some(e.social.functioning + e.social.relationships + e.social.isolation),
      Some(e.coping.effectiveness),
      None)
  }

  /** Extending a prefix by one element adds that element to its sum. */
  lemma SumPrefixStep(s: seq<int>, k: nat)
    requires k < |s|
    ensures Sum(s[..k + 1]) == Sum(s[..k]) + s[k]
  {
    assert s[..k + 1][..k] == s[..k];
  }

  lemma SumFourteen(fs: seq<int>)
    requires |fs| == 14
    ensures Sum(fs) == fs[0] + fs[1] + fs[2] + fs[3] + fs[4] + fs[5] + fs[6] + fs[7] + fs[8] + fs[9] + fs[10] + fs[11] + fs[12] + fs[13]
  {
    assert fs[..0] == [];
    SumPrefixStep(fs, 0); SumPrefixStep(fs, 1); SumPrefixStep(fs, 2); SumPrefixStep(fs, 3);
    SumPrefixStep(fs, 4); SumPrefixStep(fs, 5); SumPrefixStep(fs, 6); SumPrefixStep(fs, 7);
    SumPrefixStep(fs, 8); SumPrefixStep(fs, 9); SumPrefixStep(fs, 10); SumPrefixStep(fs, 11);
    SumPrefixStep(fs, 12); SumPrefixStep(fs, 13);
    assert fs[..14] == fs;
  }

  /** The composite score written out field by field. */
  lemma CompositeScoreExpanded(e: SymptomEvaluation)
    ensures CompositeScore(e) ==
      e.sleepPatterns.quality + e.sleepPatterns.duration + e.appetite.changes + e.appetite.motivation
      + e.energy.level + e.energy.fatigue + e.energy.motivation
      + e.social.functioning + e.social.relationships + e.social.isolation
      + e.behavior.socialWithdrawal + e.behavior.irritability
      + e.thoughts.selfImage + e.coping.effectiveness
  {
    SumFourteen(CompositeFields(e));
  }

  /** Builds the result from one evaluation; the id and the creation instant come from
      the caller's clock. */
  method CreateAssessmentResult(e: SymptomEvaluation, phq9: Option<int>, gad7: Option<int>, id: string, now: int)
    returns (r: AssessmentResult)
    ensures r.id == id && r.timestamp == now
    ensures r.severity == DetermineSeverity(CompositeScore(e), e.thoughts.suicidalIdeation)
    ensures r.routeTo == DetermineRouting(r.severity, e.thoughts.suicidalIdeation)
    ensures AnyIdeation(e.thoughts.suicidalIdeation) ==> r.severity == Severe && r.routeTo == HumanTherapy
    ensures r.symptoms == Symptoms(e)
    ensures r.recommendations == Recommendations(r.severity, r.symptoms)
    ensures r.scores == SubScores(e, phq9, gad7)
  {
    var totalScore := CalculateSymptomScore(e);
    var severity := DetermineSeverity(totalScore, e.thoughts.suicidalIdeation);
    var routeTo := DetermineRouting(severity, e.thoughts.suicidalIdeation);
    var symptoms := GenerateSymptoms(e);
    var recommendations := GenerateRecommendations(severity, symptoms);
    r := AssessmentResult(id, now, SubScores(e, phq9, gad7), severity, symptoms, recommendations, routeTo);
  }

  /** The all-zero evaluation is minimal and stable; setting only the plan flag makes it
      severe and routes it to human therapy although the score stays 0. */
  lemma ZeroEvaluationClassification()
    ensures CompositeScore(ZeroEvaluation) == 0
    ensures DetermineSeverity(0, NoIdeation) == Minimal && DetermineRouting(Minimal, NoIdeation) == Stable
    ensures var planned := SuicidalIdeation(false, true, false);
      DetermineSeverity(0, planned) == Severe && DetermineRouting(Severe, planned) == HumanTherapy
  {
    SumFourteen(CompositeFields(ZeroEvaluation));
  }
}
