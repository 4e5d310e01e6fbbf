/** The seven-step symptom-evaluation form (components/SymptomEvaluation.tsx): the steps
    and their questions, answers written into a nested object, the step navigation, and
    the submit step that screens for suicidal ideation before asking for an analysis. */
module SymptomForm {
  import opened Types
  import opened Js
  import Scoring
  import Fallback

  datatype QuestionKind = Scale | Text | YesNo | MultiSelect

  datatype Question = Question(key: string, kind: QuestionKind)

  /** A step is named after the evaluation section its answers belong to. */
  datatype Step = Step(id: string, questions: seq<Question>)

  const Steps: seq<Step> := [
    Step("sleepPatterns", [Question("quality", Scale), Question("duration", Scale), Question("disturbances", MultiSelect)]),
    Step("appetite", [Question("changes", Scale), Question("weightChanges", Text), Question("motivation", Scale)]),
    Step("energy", [Question("level", Scale), Question("fatigue", Scale), Question("motivation", Scale)]),
    Step("behavior", [Question("changes", MultiSelect), Question("socialWithdrawal", Scale), Question("irritability", Scale)]),
    Step("social", [Question("functioning", Scale), Question("relationships", Scale), Question("isolation", Scale)]),
    Step("thoughts", [Question("selfImage", Scale), Question("negativeThoughts", MultiSelect),
                      Question("suicidalIdeation.thoughts", YesNo), Question("suicidalIdeation.plan", YesNo),
                      Question("suicidalIdeation.intent", YesNo)]),
    Step("coping", [Question("mechanisms", MultiSelect), Question("effectiveness", Scale), Question("support", MultiSelect)])
  ]

  const ThoughtsStep := 5

  /** The last segments of the three ideation questions of the thoughts step. */
  const FlagNames: seq<string> := ["thoughts", "plan", "intent"]

  predicate ValidQuestion(s: int, q: int) {
    0 <= s < |Steps| && 0 <= q < |Steps[s].questions|
  }

  function KeyOf(s: nat, q: nat): string
    requires ValidQuestion(s, q)
  {
    Steps[s].questions[q].key
  }

  /** The seven sections of the evaluation object, the top-level names the scorer reads. */
  predicate SectionKey(k: string) {
    || k == "sleepPatterns" || k == "appetite" || k == "energy" || k == "behavior"
    || k == "social" || k == "thoughts" || k == "coping"
  }

  /** A plain key: one segment, not the name the ideation answers live under and not a
      section name. */
  predicate PlainKey(key: string) {
    '.' !in key && key != "suicidalIdeation" && !SectionKey(key)
  }

  /** Every key is plain except the three ideation questions, which are
      `suicidalIdeation.<flag>`. */
  lemma KeyShapes(s: nat, q: nat)
    requires ValidQuestion(s, q)
    ensures PlainKey(KeyOf(s, q)) || (s == ThoughtsStep && 2 <= q <= 4 && KeyOf(s, q) == "suicidalIdeation" + "." + FlagNames[q - 2])
  {
    if s == ThoughtsStep && q >= 2 {
      FlagKeys(q);
    } else {
      PlainKeys(s, q);
    }
  }

  lemma FlagKeys(q: nat)
    requires 2 <= q < 5
    ensures KeyOf(ThoughtsStep, q) == "suicidalIdeation" + "." + FlagNames[q - 2]
  {
    if q == 2 {
      assert KeyOf(ThoughtsStep, q) == "suicidalIdeation.thoughts";
    } else if q == 3 {
      assert KeyOf(ThoughtsStep, q) == "suicidalIdeation.plan";
    } else {
      assert KeyOf(ThoughtsStep, q) == "suicidalIdeation.intent";
    }
  }

  lemma PlainKeys(s: nat, q: nat)
    requires ValidQuestion(s, q) && !(s == ThoughtsStep && q >= 2)
    ensures PlainKey(KeyOf(s, q))
  {
    if s == 0 {
      SleepKeysPlain(q);
    } else if s == 1 {
      AppetiteKeysPlain(q);
    } else if s == 2 {
      EnergyKeysPlain(q);
    } else if s == 3 {
      BehaviorKeysPlain(q);
    } else if s == 4 {
      SocialKeysPlain(q);
    } else if s == 5 {
      ThoughtsKeysPlain(q);
    } else {
      CopingKeysPlain(q);
    }
  }

  lemma SleepNamesPlain()
    ensures PlainKey("quality") && PlainKey("duration") && PlainKey("disturbances")
  {
  }

  lemma SleepKeysPlain(q: nat)
    requires q < 3
    ensures PlainKey(KeyOf(0, q))
  {
    SleepNamesPlain();
    if q == 0 {
      assert KeyOf(0, q) == "quality";
    } else if q == 1 {
      assert KeyOf(0, q) == "duration";
    } else {
      assert KeyOf(0, q) == "disturbances";
    }
  }

  lemma AppetiteNamesPlain()
    ensures PlainKey("changes") && PlainKey("weightChanges") && PlainKey("motivation")
  {
  }

  lemma AppetiteKeysPlain(q: nat)
    requires q < 3
    ensures PlainKey(KeyOf(1, q))
  {
    AppetiteNamesPlain();
    if q == 0 {
      assert KeyOf(1, q) == "changes";
    } else if q == 1 {
      assert KeyOf(1, q) == "weightChanges";
    } else {
      assert KeyOf(1, q) == "motivation";
    }
  }

  lemma EnergyNamesPlain()
    ensures PlainKey("level") && PlainKey("fatigue") && PlainKey("motivation")
  {
  }

  lemma EnergyKeysPlain(q: nat)
    requires q < 3
    ensures PlainKey(KeyOf(2, q))
  {
    EnergyNamesPlain();
    if q == 0 {
      assert KeyOf(2, q) == "level";
    } else if q == 1 {
      assert KeyOf(2, q) == "fatigue";
    } else {
      assert KeyOf(2, q) == "motivation";
    }
  }

  lemma BehaviorNamesPlain()
    ensures PlainKey("changes") && PlainKey("socialWithdrawal") && PlainKey("irritability")
  {
  }

  lemma BehaviorKeysPlain(q: nat)
    requires q < 3
    ensures PlainKey(KeyOf(3, q))
  {
    BehaviorNamesPlain();
    if q == 0 {
      assert KeyOf(3, q) == "changes";
    } else if q == 1 {
      assert KeyOf(3, q) == "socialWithdrawal";
    } else {
      assert KeyOf(3, q) == "irritability";
    }
  }

  lemma SocialNamesPlain()
    ensures PlainKey("functioning") && PlainKey("relationships") && PlainKey("isolation")
  {
  }

  lemma SocialKeysPlain(q: nat)
    requires q < 3
    ensures PlainKey(KeyOf(4, q))
  {
    SocialNamesPlain();
    if q == 0 {
      assert KeyOf(4, q) == "functioning";
    } else if q == 1 {
      assert KeyOf(4, q) == "relationships";
    } else {
      assert KeyOf(4, q) == "isolation";
    }
  }

  lemma ThoughtsNamesPlain()
    ensures PlainKey("selfImage") && PlainKey("negativeThoughts")
  {
  }

  lemma ThoughtsKeysPlain(q: nat)
    requires q < 2
    ensures PlainKey(KeyOf(5, q))
  {
    ThoughtsNamesPlain();
    if q == 0 {
      assert KeyOf(5, q) == "selfImage";
    } else {
      assert KeyOf(5, q) == "negativeThoughts";
    }
  }

  lemma CopingNamesPlain()
    ensures PlainKey("mechanisms") && PlainKey("effectiveness") && PlainKey("support")
  {
  }

  lemma CopingKeysPlain(q: nat)
    requires q < 3
    ensures PlainKey(KeyOf(6, q))
  {
    CopingNamesPlain();
    if q == 0 {
      assert KeyOf(6, q) == "mechanisms";
    } else if q == 1 {
      assert KeyOf(6, q) == "effectiveness";
    } else {
      assert KeyOf(6, q) == "support";
    }
  }

  /** Within one step no two questions share a key, and no two steps share an id. */
  lemma KeysDistinct(s: nat, q1: nat, q2: nat)
    requires ValidQuestion(s, q1) && ValidQuestion(s, q2) && q1 != q2
    ensures KeyOf(s, q1) != KeyOf(s, q2)
  {
  }

  lemma StepIdsDistinct(s1: nat, s2: nat)
    requires s1 < |Steps| && s2 < |Steps| && s1 != s2
    ensures Steps[s1].id != Steps[s2].id
  {
  }

  // ---------------------------------------------------------------------------
  // Where an answer is written

  /** The path the component writes an answer to: the dotted key alone, the step id
      being passed in and then ignored. */
  function AnswerPathAsWritten(stepId: string, key: string): (r: seq<string>)
    ensures |r| >= 1 && JoinDots(r) == key
  {
    JoinSplit(key);
    SplitDots(key)
  }

  /** The path the declared evaluation shape calls for: the step's section, then the
      segments the component writes to. */
  function AnswerPath(stepId: string, key: string): (r: seq<string>)
    ensures |r| >= 2 && r[0] == stepId
    ensures r[1..] == AnswerPathAsWritten(stepId, key) && JoinDots(r[1..]) == key
  {
    var rest := AnswerPathAsWritten(stepId, key);
    assert ([stepId] + rest)[1..] == rest;
    [stepId] + rest
  }

  /** A dotted key of two plain names splits into those two names. */
  lemma {:induction false} SplitAtDot(a: string, b: string)
    requires '.' !in a && '.' !in b
    ensures SplitDots(a + "." + b) == [a, b]
  {
    if a == [] {
      NoDotSingleSegment(b);
      assert ("." + b)[1..] == b;
    } else {
      SplitAtDot(a[1..], b);
      assert (a + "." + b)[1..] == a[1..] + "." + b;
      assert [a[0]] + a[1..] == a;
    }
  }

  /** A plain key is written directly into the section, or, as written, at the top. */
  lemma PlainPath(id: string, key: string)
    requires PlainKey(key)
    ensures AnswerPath(id, key) == [id, key]
    ensures AnswerPathAsWritten(id, key) == [key]
  {
    NoDotSingleSegment(key);
  }

  /** An ideation key is written under `suicidalIdeation` in the section, or, as written,
      under a top-level `suicidalIdeation`. */
  lemma FlagPath(id: string, f: string)
    requires f in FlagNames
    ensures AnswerPath(id, "suicidalIdeation" + "." + f) == [id, "suicidalIdeation", f]
    ensures AnswerPathAsWritten(id, "suicidalIdeation" + "." + f) == ["suicidalIdeation", f]
  {
    assert '.' !in "suicidalIdeation";
    assert '.' !in f;
    SplitAtDot("suicidalIdeation", f);
  }

  /** The path of every question: a plain key sits directly in its step's section, an
      ideation flag under `thoughts.suicidalIdeation`. */
  lemma PathShapes(s: nat, q: nat)
    requires ValidQuestion(s, q)
    ensures PlainKey(KeyOf(s, q)) ==> AnswerPath(Steps[s].id, KeyOf(s, q)) == [Steps[s].id, KeyOf(s, q)]
    ensures PlainKey(KeyOf(s, q)) ==> AnswerPathAsWritten(Steps[s].id, KeyOf(s, q)) == [KeyOf(s, q)]
    ensures !PlainKey(KeyOf(s, q)) ==>
      && s == ThoughtsStep && 2 <= q <= 4
      && AnswerPath(Steps[s].id, KeyOf(s, q)) == ["thoughts", "suicidalIdeation", FlagNames[q - 2]]
      && AnswerPathAsWritten(Steps[s].id, KeyOf(s, q)) == ["suicidalIdeation", FlagNames[q - 2]]
  {
    KeyShapes(s, q);
    var id, key := Steps[s].id, KeyOf(s, q);
    if PlainKey(key) {
      PlainPath(id, key);
    } else {
      assert id == "thoughts";
      FlagPath(id, FlagNames[q - 2]);
    }
  }

  /** As written, the first segment of every path is a plain key or `suicidalIdeation`,
      never a section name. */
  lemma AsWrittenFirstSegment(s: nat, q: nat)
    requires ValidQuestion(s, q)
    ensures !SectionKey(AnswerPathAsWritten(Steps[s].id, KeyOf(s, q))[0])
  {
    PathShapes(s, q);
  }

  // ---------------------------------------------------------------------------
  // Reading the evaluation back

  /** `x || 0` on a number field: a number, or 0 for anything absent or not a number. */
  function NumberAt(ev: map<string, JsValue>, path: seq<string>): int {
    match Lookup(JObj(ev), path)
    case Some(JNum(n)) => n
    case _ => 0
  }

  function ListAt(ev: map<string, JsValue>, path: seq<string>): seq<string> {
    match Lookup(JObj(ev), path)
    case Some(JList(xs)) => xs
    case _ => []
  }

  function TextAt(ev: map<string, JsValue>, path: seq<string>): string {
    match Lookup(JObj(ev), path)
    case Some(JStr(s)) => s
    case _ => ""
  }

  /** An optional-chained flag: true only when the value is there and truthy. */
  predicate FlagAt(ev: map<string, JsValue>, path: seq<string>) {
    match Lookup(JObj(ev), path)
    case Some(v) => Truthy(v)
    case None => false
  }

  /** `evaluation.thoughts?.suicidalIdeation`, each flag read for truthiness. */
  function IdeationOf(ev: map<string, JsValue>): (r: SuicidalIdeation)
    ensures "thoughts" !in ev ==> r == NoIdeation
  {
    SuicidalIdeation(
      FlagAt(ev, ["thoughts", "suicidalIdeation", "thoughts"]),
      FlagAt(ev, ["thoughts", "suicidalIdeation", "plan"]),
      FlagAt(ev, ["thoughts", "suicidalIdeation", "intent"]))
  }

  /** The evaluation object as the scorer reads it, every default resolved. */
  function Normalize(ev: map<string, JsValue>): (e: SymptomEvaluation)
    ensures e.thoughts.suicidalIdeation == IdeationOf(ev)
  {
    SymptomEvaluation(
      SleepPatterns(NumberAt(ev, ["sleepPatterns", "quality"]), NumberAt(ev, ["sleepPatterns", "duration"]),
                    ListAt(ev, ["sleepPatterns", "disturbances"])),
      Appetite(NumberAt(ev, ["appetite", "changes"]), TextAt(ev, ["appetite", "weightChanges"]),
               NumberAt(ev, ["appetite", "motivation"])),
      Energy(NumberAt(ev, ["energy", "level"]), NumberAt(ev, ["energy", "fatigue"]), NumberAt(ev, ["energy", "motivation"])),
      Behavior(ListAt(ev, ["behavior", "changes"]), NumberAt(ev, ["behavior", "socialWithdrawal"]),
               NumberAt(ev, ["behavior", "irritability"])),
      Social(NumberAt(ev, ["social", "functioning"]), NumberAt(ev, ["social", "relationships"]),
             NumberAt(ev, ["social", "isolation"])),
      Thoughts(NumberAt(ev, ["thoughts", "selfImage"]), ListAt(ev, ["thoughts", "negativeThoughts"]), IdeationOf(ev)),
      Coping(ListAt(ev, ["coping", "mechanisms"]), NumberAt(ev, ["coping", "effectiveness"]),
             ListAt(ev, ["coping", "support"])))
  }

  /** An untouched form reads as the all-zero evaluation. */
  lemma EmptyFormIsZeroEvaluation()
    ensures Normalize(map[]) == Scoring.ZeroEvaluation
  {
  }

  /** A scale answer written to a path reads back as the number chosen. */
  lemma ScaleAnswerReadBack(ev: map<string, JsValue>, path: seq<string>, n: nat)
    requires path != [] && SetPath(ev, path, Coerce(RawText(NatToString(n)))).Some?
    ensures NumberAt(SetPath(ev, path, Coerce(RawText(NatToString(n)))).value, path) == n
  {
    ScaleAnswerRoundTrip(n);
    ReadAfterWrite(ev, path, JNum(n));
  }

  /** The list a check box hands over: the current list (or none) with the option appended
      when it is checked, or with every copy of it removed when it is cleared. */
  function ToggleOption(current: Option<JsValue>, option: string, checked: bool): (r: seq<string>)
    ensures checked ==> |r| >= 1 && r[|r| - 1] == option
    ensures !checked ==> option !in r
    ensures forall x :: x != option ==>
      (x in r <==> (current.Some? && current.value.JList? && x in current.value.items))
    ensures checked && current.Some? && current.value.JList? ==> r == current.value.items + [option]
    ensures checked && !(current.Some? && current.value.JList?) ==> r == [option]
    ensures !checked && current.Some? && current.value.JList? ==> r == Without(current.value.items, option)
    ensures !checked && !(current.Some? && current.value.JList?) ==> r == []
  {
    Toggle(if current.Some? && current.value.JList? then current.value.items else [], option, checked)
  }

  /** Where the form goes for a stored route. */
  function RoutePath(r: Route): (p: string)
    ensures p == "/results" <==> r == Stable
  {
    match r
    case HumanTherapy => "/therapy/human"
    case AiSupport => "/therapy/ai"
    case Stable => "/results"
  }

  /** Every section present is an object, and so is `thoughts.suicidalIdeation` when
      present: the shape the form's own writes keep. */
  predicate Shaped(ev: map<string, JsValue>) {
    && (forall k :: k in ev ==> ev[k].JObj?)
    && ("thoughts" in ev ==>
          "suicidalIdeation" !in ev["thoughts"].fields || ev["thoughts"].fields["suicidalIdeation"].JObj?)
  }

  /** On a shaped evaluation every answer write succeeds and keeps the shape. */
  lemma ShapedWriteSucceeds(ev: map<string, JsValue>, s: nat, q: nat, v: JsValue)
    requires Shaped(ev) && ValidQuestion(s, q)
    ensures SetPath(ev, AnswerPath(Steps[s].id, KeyOf(s, q)), v).Some?
    ensures Shaped(SetPath(ev, AnswerPath(Steps[s].id, KeyOf(s, q)), v).value)
  {
    PathShapes(s, q);
    if PlainKey(KeyOf(s, q)) {
      ShapedPlainWrite(ev, Steps[s].id, KeyOf(s, q), v);
    } else {
      ShapedFlagWrite(ev, FlagNames[q - 2], v);
    }
  }

  lemma ShapedPlainWrite(ev: map<string, JsValue>, id: string, key: string, v: JsValue)
    requires Shaped(ev) && key != "suicidalIdeation"
    ensures SetPath(ev, [id, key], v).Some? && Shaped(SetPath(ev, [id, key], v).value)
  {
    var child := if id in ev && Truthy(ev[id]) then ev[id].fields else map[];
    assert [id, key][1..] == [key];
    assert SetPath(ev, [id, key], v) == Some(ev[id := JObj(child[key := v])]);
  }

  lemma ShapedFlagWrite(ev: map<string, JsValue>, f: string, v: JsValue)
    requires Shaped(ev)
    ensures SetPath(ev, ["thoughts", "suicidalIdeation", f], v).Some?
    ensures Shaped(SetPath(ev, ["thoughts", "suicidalIdeation", f], v).value)
  {
    var path := ["thoughts", "suicidalIdeation", f];
    var child := if "thoughts" in ev && Truthy(ev["thoughts"]) then ev["thoughts"].fields else map[];
    var si := if "suicidalIdeation" in child && Truthy(child["suicidalIdeation"]) then child["suicidalIdeation"].fields else map[];
    assert path[1..] == ["suicidalIdeation", f];
    assert path[1..][1..] == [f];
    assert SetPath(child, path[1..], v) == Some(child["suicidalIdeation" := JObj(si[f := v])]);
  }

  /** The form: the step shown and the evaluation answered so far. */
  class EvaluationForm {
    var currentStep: nat
    var evaluation: map<string, JsValue>

    ghost predicate Valid()
      reads this
    {
      currentStep < |Steps| && Shaped(evaluation)
    }

    /** A fresh form shows the first step with nothing answered. */
    constructor ()
      ensures Valid()
      ensures currentStep == 0 && evaluation == map[]
    {
      currentStep := 0;
      evaluation := map[];
    }

    /** A question counts as answered when reading its path is not undefined. */
    predicate Answered(s: nat, q: nat)
      reads this
      requires ValidQuestion(s, q)
    {
      Lookup(JObj(evaluation), AnswerPath(Steps[s].id, KeyOf(s, q))).Some?
    }

    /** The "Next" and "Complete Assessment" buttons are enabled once every question of
        the current step is answered. */
    predicate CanProceed()
      reads this
      requires currentStep < |Steps|
    {
      forall q :: 0 <= q < |Steps[currentStep].questions| ==> Answered(currentStep, q)
    }

    predicate IsLastStep()
      reads this
    {
      currentStep == |Steps| - 1
    }

    /** Stores the coerced answer to question `q` of the current step at its path; the
        question is answered afterwards and every other question keeps its answer. */
    method HandleAnswer(q: nat, raw: Raw)
      requires Valid() && ValidQuestion(currentStep, q)
      modifies this
      ensures Valid() && currentStep == old(currentStep)
      ensures SetPath(old(evaluation), AnswerPath(Steps[currentStep].id, KeyOf(currentStep, q)), Coerce(raw)).Some?
      ensures evaluation == SetPath(old(evaluation), AnswerPath(Steps[currentStep].id, KeyOf(currentStep, q)), Coerce(raw)).value
      ensures Lookup(JObj(evaluation), AnswerPath(Steps[currentStep].id, KeyOf(currentStep, q))) == Some(Coerce(raw))
      ensures Answered(currentStep, q)
    {
      var path := AnswerPath(Steps[currentStep].id, KeyOf(currentStep, q));
      ShapedWriteSucceeds(evaluation, currentStep, q, Coerce(raw));
      var updated := SetPath(evaluation, path, Coerce(raw)).value;
      ReadAfterWrite(evaluation, path, Coerce(raw));
      evaluation := updated;
    }

    /** "Previous": one step back, never before the first. */
    method Previous()
      requires Valid()
      modifies this
      ensures Valid() && evaluation == old(evaluation)
      ensures currentStep == if old(currentStep) == 0 then 0 else old(currentStep) - 1
    {
      if currentStep > 0 {
        currentStep := currentStep - 1;
      }
    }

    /** "Next": shown on every step but the last, and enabled once the step is answered. */
    method Next()
      requires Valid() && !IsLastStep() && CanProceed()
      modifies this
      ensures Valid() && evaluation == old(evaluation)
      ensures currentStep == old(currentStep) + 1
    {
      currentStep := currentStep + 1;
    }

    /** "Complete Assessment". Any ideation flag sends the scored result, forced to severe
        and human therapy, to the emergency page; otherwise the analysis overwrites the
        severity, symptoms, recommendations and route, and the route picks the page. A
        `None` stands for the submit's catch branch, which keeps the scored result and goes to
        the results page.
        The caller stores the evaluation and the result. */
    method Submit(analysis: Option<Fallback.Analysis>, id: string, now: int)
      returns (assessment: AssessmentResult, path: string)
      ensures var e := Normalize(evaluation);
        && assessment.id == id && assessment.timestamp == now
        && assessment.scores == Scoring.SubScores(e, None, None)
        && (AnyIdeation(IdeationOf(evaluation)) ==>
              && assessment.severity == Severe && assessment.routeTo == HumanTherapy
              && assessment.symptoms == Scoring.Symptoms(e)
              && assessment.recommendations == Scoring.Recommendations(Severe, Scoring.Symptoms(e))
              && path == "/emergency")
        && (!AnyIdeation(IdeationOf(evaluation)) && analysis.Some? ==>
              && assessment.severity == analysis.value.severity
              && assessment.symptoms == analysis.value.symptoms
              && assessment.recommendations == analysis.value.recommendations
              && assessment.routeTo == analysis.value.routeTo
              && path == RoutePath(analysis.value.routeTo))
        && (!AnyIdeation(IdeationOf(evaluation)) && analysis.None? ==>
              && assessment.severity == Scoring.DetermineSeverity(Scoring.CompositeScore(e), NoIdeation)
              && assessment.routeTo == Scoring.DetermineRouting(assessment.severity, NoIdeation)
              && assessment.symptoms == Scoring.Symptoms(e)
              && assessment.recommendations == Scoring.Recommendations(assessment.severity, assessment.symptoms)
              && path == "/results")
    {
      var e := Normalize(evaluation);
      var si := e.thoughts.suicidalIdeation;
      var scored := Scoring.CreateAssessmentResult(e, None, None, id, now);
      if si.thoughts || si.plan || si.intent {
        assessment := scored.(routeTo := HumanTherapy);
        assessment := assessment.(severity := Severe);
        path := "/emergency";
        return;
      }
      match analysis {
        case Some(a) =>
          assessment := scored.(severity := a.severity);
          assessment := assessment.(symptoms := a.symptoms);
          assessment := assessment.(recommendations := a.recommendations);
          assessment := assessment.(routeTo := a.routeTo);
          match assessment.routeTo {
            case HumanTherapy => path := "/therapy/human";
            case AiSupport => path := "/therapy/ai";
            case Stable => path := "/results";
          }
        case None =>
          assessment := scored;
          path := "/results";
      }
    }
  }

  // ---------------------------------------------------------------------------
  // The ideation answers and the emergency override

  /** As written, no answer of the form ever reaches `thoughts.suicidalIdeation`: the
      first segment of every written path is a plain key or `suicidalIdeation`, never
      `thoughts`, so the ideation read before submitting is whatever it was before. */
  lemma AsWrittenAnswerLeavesIdeation(ev: map<string, JsValue>, s: nat, q: nat, raw: Raw)
    requires ValidQuestion(s, q)
    requires SetPath(ev, AnswerPathAsWritten(Steps[s].id, KeyOf(s, q)), Coerce(raw)).Some?
    ensures IdeationOf(SetPath(ev, AnswerPathAsWritten(Steps[s].id, KeyOf(s, q)), Coerce(raw)).value) == IdeationOf(ev)
  {
    AsWrittenFirstSegment(s, q);
    var path := AnswerPathAsWritten(Steps[s].id, KeyOf(s, q));
    assert path[0] != "thoughts";
    forall f | f in FlagNames
      ensures Lookup(JObj(SetPath(ev, path, Coerce(raw)).value), ["thoughts", "suicidalIdeation", f])
           == Lookup(JObj(ev), ["thoughts", "suicidalIdeation", f])
    {
      WriteLeavesOtherPaths(ev, path, Coerce(raw), ["thoughts", "suicidalIdeation", f], 0);
    }
  }

  /** So, as written, answering "yes" to the plan question on an untouched form leaves no
      ideation for the submit step to see: the analysis decides, and the offline analysis
      sends the user to AI support. */
  lemma AsWrittenPlanAnswerMissed()
    ensures var ev := SetPath(map[], AnswerPathAsWritten("thoughts", KeyOf(ThoughtsStep, 3)), Coerce(RawText("true")));
      && ev.Some?
      && Lookup(JObj(ev.value), ["suicidalIdeation", "plan"]) == Some(JBool(true))
      && !AnyIdeation(IdeationOf(ev.value))
    ensures RoutePath(Fallback.OfflineAnalysis.routeTo) == "/therapy/ai"
  {
    AsWrittenPlanWrite();
    var path := ["suicidalIdeation", "plan"];
    ReadAfterWrite(map[], path, JBool(true));
    var ev := SetPath(map[], path, JBool(true)).value;
    assert "thoughts" !in ev;
  }

  lemma AsWrittenPlanWrite()
    ensures SetPath(map[], AnswerPathAsWritten("thoughts", KeyOf(ThoughtsStep, 3)), Coerce(RawText("true")))
         == SetPath(map[], ["suicidalIdeation", "plan"], JBool(true))
  {
    FlagKeys(3);
    FlagPath("thoughts", FlagNames[1]);
    assert Coerce(RawText("true")) == JBool(true);
  }

  /** With the step's section in the path, a "yes" to any ideation question is seen by
      the submit step, which then routes to the emergency page. */
  lemma CorrectedIdeationAnswerSeen(ev: map<string, JsValue>, q: nat)
    requires Shaped(ev) && 2 <= q <= 4
    ensures var after := SetPath(ev, AnswerPath("thoughts", KeyOf(ThoughtsStep, q)), Coerce(RawText("true")));
      && after.Some?
      && FlagAt(after.value, ["thoughts", "suicidalIdeation", FlagNames[q - 2]])
      && AnyIdeation(IdeationOf(after.value))
  {
    FlagKeys(q);
    FlagPath("thoughts", FlagNames[q - 2]);
    assert Steps[ThoughtsStep].id == "thoughts";
    ShapedWriteSucceeds(ev, ThoughtsStep, q, JBool(true));
    ReadAfterWrite(ev, ["thoughts", "suicidalIdeation", FlagNames[q - 2]], JBool(true));
  }

  /** Answers on other steps never disturb the answers of a step: the paths part at the
      first segment. */
  lemma OtherStepsKeepAnswers(ev: map<string, JsValue>, s: nat, q: nat, v: JsValue, s2: nat, q2: nat)
    requires Shaped(ev) && ValidQuestion(s, q) && ValidQuestion(s2, q2) && s != s2
    ensures var after := SetPath(ev, AnswerPath(Steps[s].id, KeyOf(s, q)), v);
      && after.Some?
      && Lookup(JObj(after.value), AnswerPath(Steps[s2].id, KeyOf(s2, q2)))
         == Lookup(JObj(ev), AnswerPath(Steps[s2].id, KeyOf(s2, q2)))
  {
    ShapedWriteSucceeds(ev, s, q, v);
    StepIdsDistinct(s, s2);
    WriteLeavesOtherPaths(ev, AnswerPath(Steps[s].id, KeyOf(s, q)), v, AnswerPath(Steps[s2].id, KeyOf(s2, q2)), 0);
  }
  // ---------------------------------------------------------------------------
  // The form as written: every answer at the top level

  /** What the as-written form builds: no section name at the top level, and
      `suicidalIdeation`, when present, an object. */
  predicate FlatShaped(ev: map<string, JsValue>) {
    && (forall k | k in ev :: !SectionKey(k))
    && ("suicidalIdeation" in ev ==> ev["suicidalIdeation"].JObj?)
  }

  /** A plain key written at the top level keeps the object flat. */
  lemma FlatPlainWrite(ev: map<string, JsValue>, key: string, v: JsValue)
    requires FlatShaped(ev) && PlainKey(key)
    ensures SetPath(ev, [key], v) == Some(ev[key := v])
    ensures FlatShaped(ev[key := v])
  {
  }

  /** An ideation flag written under a top-level `suicidalIdeation` keeps the object flat. */
  lemma FlatFlagWrite(ev: map<string, JsValue>, f: string, v: JsValue)
    requires FlatShaped(ev)
    ensures SetPath(ev, ["suicidalIdeation", f], v).Some?
    ensures FlatShaped(SetPath(ev, ["suicidalIdeation", f], v).value)
  {
    var path := ["suicidalIdeation", f];
    var si := if "suicidalIdeation" in ev && Truthy(ev["suicidalIdeation"]) then ev["suicidalIdeation"].fields else map[];
    assert path[1..] == [f];
    assert SetPath(ev, path, v) == Some(ev["suicidalIdeation" := JObj(si[f := v])]);
  }

  /** As written, every answer lands at the top level: the write succeeds and the object
      stays flat. */
  lemma AsWrittenWriteKeepsFlat(ev: map<string, JsValue>, s: nat, q: nat, v: JsValue)
    requires FlatShaped(ev) && ValidQuestion(s, q)
    ensures var after := SetPath(ev, AnswerPathAsWritten(Steps[s].id, KeyOf(s, q)), v);
      after.Some? && FlatShaped(after.value)
  {
    PathShapes(s, q);
    if PlainKey(KeyOf(s, q)) {
      FlatPlainWrite(ev, KeyOf(s, q), v);
    } else {
      FlatFlagWrite(ev, FlagNames[q - 2], v);
    }
  }

  /** A flat object holds no section, so the scorer reads every field at its default:
      the all-zero evaluation. */
  lemma FlatFormIsZeroEvaluation(ev: map<string, JsValue>)
    requires FlatShaped(ev)
    ensures Normalize(ev) == Scoring.ZeroEvaluation
  {
    assert "sleepPatterns" !in ev && "appetite" !in ev && "energy" !in ev && "behavior" !in ev;
    assert "social" !in ev && "thoughts" !in ev && "coping" !in ev;
  }

  /** One answer: the step, the question within it, and the raw value handed over. */
  datatype Answer = Answer(step: nat, question: nat, raw: Raw)

  /** The answers given one after another on an evaluation, each written where the
      component writes it; `None` when a question does not exist or a write fails. */
  function ReplayAsWritten(ev: map<string, JsValue>, answers: seq<Answer>): (r: Option<map<string, JsValue>>)
    ensures answers == [] ==> r == Some(ev)
  {
    if answers == [] then Some(ev)
    else
      var a := answers[|answers| - 1];
      match ReplayAsWritten(ev, answers[..|answers| - 1])
      case None => None
      case Some(e) =>
        if ValidQuestion(a.step, a.question)
        then SetPath(e, AnswerPathAsWritten(Steps[a.step].id, KeyOf(a.step, a.question)), Coerce(a.raw))
        else None
  }

  /** As written, whatever is answered, in whatever order, the form submitted is flat. */
  lemma {:induction false} AsWrittenReplayStaysFlat(answers: seq<Answer>)
    requires forall i :: 0 <= i < |answers| ==> ValidQuestion(answers[i].step, answers[i].question)
    ensures ReplayAsWritten(map[], answers).Some?
    ensures FlatShaped(ReplayAsWritten(map[], answers).value)
  {
    if answers != [] {
      var init, a := answers[..|answers| - 1], answers[|answers| - 1];
      assert ValidQuestion(a.step, a.question);
      AsWrittenReplayStaysFlat(init);
      AsWrittenWriteKeepsFlat(ReplayAsWritten(map[], init).value, a.step, a.question, Coerce(a.raw));
    }
  }

  /** So, as written, every submission is scored as the all-zero evaluation, whatever the
      answers were: composite score 0, no ideation, every sub-score 0, and minimal and
      stable with "Poor coping skills" alone should the submit's catch branch keep it.
      The analysis is asked about that evaluation too: the offline analysis sends the user
      to AI support, and the rule-based analysis of an unparsable reply is minimal and
      stable. */
  lemma AsWrittenFormScoresZero(answers: seq<Answer>)
    requires forall i :: 0 <= i < |answers| ==> ValidQuestion(answers[i].step, answers[i].question)
    ensures ReplayAsWritten(map[], answers).Some?
    ensures var e := Normalize(ReplayAsWritten(map[], answers).value);
      && e == Scoring.ZeroEvaluation
      && !AnyIdeation(IdeationOf(ReplayAsWritten(map[], answers).value))
      && Scoring.CompositeScore(e) == 0
      && Scoring.DetermineSeverity(Scoring.CompositeScore(e), e.thoughts.suicidalIdeation) == Minimal
      && Scoring.DetermineRouting(Minimal, e.thoughts.suicidalIdeation) == Stable
      && Scoring.Symptoms(e) == ["Poor coping skills"]
      && Scoring.SubScores(e, None, None) == Scoring.SubScores(Scoring.ZeroEvaluation, None, None)
      && Fallback.FallbackSeverity(Fallback.FallbackTotal(e), e.thoughts.suicidalIdeation) == Minimal
  {
    AsWrittenReplayStaysFlat(answers);
    FlatFormIsZeroEvaluation(ReplayAsWritten(map[], answers).value);
    ZeroEvaluationOutcome(Normalize(ReplayAsWritten(map[], answers).value));
  }

  /** What the scorer and the rule-based analysis make of the all-zero evaluation. */
  lemma ZeroEvaluationOutcome(e: SymptomEvaluation)
    requires e == Scoring.ZeroEvaluation
    ensures Scoring.CompositeScore(e) == 0
    ensures Scoring.DetermineSeverity(Scoring.CompositeScore(e), e.thoughts.suicidalIdeation) == Minimal
    ensures Scoring.DetermineRouting(Minimal, e.thoughts.suicidalIdeation) == Stable
    ensures Scoring.Symptoms(e) == ["Poor coping skills"]
    ensures Fallback.FallbackSeverity(Fallback.FallbackTotal(e), e.thoughts.suicidalIdeation) == Minimal
  {
    Scoring.ZeroEvaluationClassification();
    Scoring.ZeroEvaluationSymptoms();
    Fallback.ZeroEvaluationFallback();
  }

  /** With the step id in the path the scorer reads the answers given: a sleep quality
      of `n` is scored as `n`. */
  lemma CorrectedAnswerScored(ev: map<string, JsValue>, n: nat)
    requires Shaped(ev)
    ensures var after := SetPath(ev, AnswerPath(Steps[0].id, KeyOf(0, 0)), Coerce(RawText(NatToString(n))));
      && after.Some?
      && Normalize(after.value).sleepPatterns.quality == n
  {
    SleepKeysPlain(0);
    assert KeyOf(0, 0) == "quality";
    PathShapes(0, 0);
    ShapedWriteSucceeds(ev, 0, 0, Coerce(RawText(NatToString(n))));
    ScaleAnswerReadBack(ev, ["sleepPatterns", "quality"], n);
  }

  /** As written, two questions with the same key share one top-level slot: answering
      one is reading the other. */
  lemma AsWrittenSharedKey(ev: map<string, JsValue>, s1: nat, q1: nat, s2: nat, q2: nat, raw: Raw)
    requires ValidQuestion(s1, q1) && ValidQuestion(s2, q2) && KeyOf(s1, q1) == KeyOf(s2, q2)
    requires PlainKey(KeyOf(s1, q1))
    ensures var after := SetPath(ev, AnswerPathAsWritten(Steps[s1].id, KeyOf(s1, q1)), Coerce(raw));
      && after.Some?
      && Lookup(JObj(after.value), AnswerPathAsWritten(Steps[s2].id, KeyOf(s2, q2))) == Some(Coerce(raw))
  {
    PathShapes(s1, q1);
    PathShapes(s2, q2);
    ReadAfterWrite(ev, [KeyOf(s1, q1)], Coerce(raw));
  }

  /** Two such pairs exist: appetite `changes` (a scale) and behaviour `changes` (a
      multi-select), and appetite and energy `motivation`. As written they share a slot;
      with the section in the path they do not. */
  lemma AsWrittenKeysCollide()
    ensures ValidQuestion(1, 0) && ValidQuestion(3, 0) && ValidQuestion(1, 2) && ValidQuestion(2, 2)
    ensures KeyOf(1, 0) == KeyOf(3, 0) && PlainKey(KeyOf(1, 0))
    ensures Steps[1].questions[0].kind != Steps[3].questions[0].kind
    ensures AnswerPathAsWritten(Steps[1].id, KeyOf(1, 0)) == AnswerPathAsWritten(Steps[3].id, KeyOf(3, 0))
    ensures AnswerPath(Steps[1].id, KeyOf(1, 0)) != AnswerPath(Steps[3].id, KeyOf(3, 0))
    ensures KeyOf(1, 2) == KeyOf(2, 2) && PlainKey(KeyOf(1, 2))
    ensures AnswerPathAsWritten(Steps[1].id, KeyOf(1, 2)) == AnswerPathAsWritten(Steps[2].id, KeyOf(2, 2))
    ensures AnswerPath(Steps[1].id, KeyOf(1, 2)) != AnswerPath(Steps[2].id, KeyOf(2, 2))
  {
    AppetiteKeysPlain(0);
    BehaviorKeysPlain(0);
    AppetiteKeysPlain(2);
    EnergyKeysPlain(2);
    StepIdsDistinct(1, 3);
    StepIdsDistinct(1, 2);
  }
}
