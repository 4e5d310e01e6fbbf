/** The offline parts of the language-model service (lib/ollama.ts): the rule-based
    analysis used when the model's answer is not JSON, and the canned replies given
    when the model cannot be reached. The network calls themselves are not modelled. */
module Fallback {
  import opened Types
  import Scoring

  /** The four fields an analysis returns; they overwrite a computed assessment. */
  datatype Analysis = Analysis(severity: Severity, symptoms: seq<string>, recommendations: seq<string>, routeTo: Route)

  // ---------------------------------------------------------------------------
  // Rule-based analysis

  /** The offline total adds ten of the fourteen composite fields: it leaves out energy
      motivation, social relationships and both behaviour fields. */
  function FallbackTotal(e: SymptomEvaluation): (t: int)
    ensures t == Scoring.CompositeScore(e)
      - (e.energy.motivation + e.social.relationships + e.behavior.socialWithdrawal + e.behavior.irritability)
    ensures ScaledEvaluation(e) ==> 0 <= t <= 100
  {
    Scoring.CompositeScoreExpanded(e);
    e.sleepPatterns.quality + e.sleepPatterns.duration
    + e.appetite.changes + e.appetite.motivation
    + e.energy.level + e.energy.fatigue
    + e.social.functioning + e.social.isolation
    + e.thoughts.selfImage + e.coping.effectiveness
  }

  /** The offline severity: cutoffs 30, 20 and 10 on the ten-field total, overridden by any
      ideation flag; it has no moderately severe band. */
  function FallbackSeverity(total: int, si: SuicidalIdeation): (s: Severity)
    ensures AnyIdeation(si) ==> s == Severe
    ensures !AnyIdeation(si) ==>
      && (s == Severe <==> 30 <= total)
      && (s == Moderate <==> 20 <= total < 30)
      && (s == Mild <==> 10 <= total < 20)
      && (s == Minimal <==> total < 10)
    ensures s != ModeratelySevere
  {
    if AnyIdeation(si) then Severe
    else if total >= 30 then Severe
    else if total >= 20 then Moderate
    else if total >= 10 then Mild
    else Minimal
  }

  const FallbackSymptoms: seq<string> := ["Mood changes", "Sleep disturbances", "Energy changes"]
  const FallbackRecommendations: seq<string> := ["Consider professional evaluation", "Practice self-care"]

  /** Starts from minimal/stable, raises both by the total's band, then lets any ideation
      flag force severe and human therapy. The route it ends with is the one the main
      routing rule gives for the severity it ends with. */
  method FallbackAnalysis(e: SymptomEvaluation) returns (a: Analysis)
    ensures a.severity == FallbackSeverity(FallbackTotal(e), e.thoughts.suicidalIdeation)
    ensures a.routeTo == Scoring.DetermineRouting(a.severity, e.thoughts.suicidalIdeation)
    ensures a.symptoms == FallbackSymptoms && a.recommendations == FallbackRecommendations
  {
    var totalScore := FallbackTotal(e);
    var severity := Minimal;
    var routeTo := Stable;
    if totalScore >= 30 {
      severity := Severe;
      routeTo := HumanTherapy;
    } else if totalScore >= 20 {
      severity := Moderate;
      routeTo := HumanTherapy;
    } else if totalScore >= 10 {
      severity := Mild;
      routeTo := AiSupport;
    }
    var si := e.thoughts.suicidalIdeation;
    if si.thoughts || si.plan || si.intent {
      routeTo := HumanTherapy;
      severity := Severe;
    }
    a := Analysis(severity, FallbackSymptoms, FallbackRecommendations, routeTo);
  }

  /** The rule-based analysis of the all-zero evaluation is minimal and stable. */
  lemma ZeroEvaluationFallback()
    ensures FallbackTotal(Scoring.ZeroEvaluation) == 0
    ensures FallbackSeverity(0, NoIdeation) == Minimal
    ensures Scoring.DetermineRouting(Minimal, NoIdeation) == Stable
  {
  }

  /** On the documented scale, whenever the main engine classifies an evaluation as
      severe, so does the offline analysis. */
  lemma MainSevereImpliesFallbackSevere(e: SymptomEvaluation)
    requires ScaledEvaluation(e)
    requires Scoring.DetermineSeverity(Scoring.CompositeScore(e), e.thoughts.suicidalIdeation) == Severe
    ensures FallbackSeverity(FallbackTotal(e), e.thoughts.suicidalIdeation) == Severe
  {
    var si := e.thoughts.suicidalIdeation;
    if !AnyIdeation(si) {
      assert Scoring.CompositeScore(e) >= 100;
      assert FallbackTotal(e) >= 60;
    }
  }

  /** On the documented scale, an evaluation the offline analysis calls minimal is at most
      mild for the main engine. */
  lemma FallbackMinimalImpliesMainAtMostMild(e: SymptomEvaluation)
    requires ScaledEvaluation(e)
    requires FallbackSeverity(FallbackTotal(e), e.thoughts.suicidalIdeation) == Minimal
    ensures Rank(Scoring.DetermineSeverity(Scoring.CompositeScore(e), e.thoughts.suicidalIdeation)) <= 1
  {
    assert Scoring.CompositeScore(e) < 50;
  }

  /** Three in each of the ten counted fields: the offline analysis says severe and human
      therapy where the main engine says mild and AI support. */
  lemma FallbackHarsherThanMain()
    ensures var e := Scoring.ZeroEvaluation.(
        sleepPatterns := SleepPatterns(3, 3, []), appetite := Appetite(3, "", 3),
        energy := Energy(3, 3, 0), social := Social(3, 0, 3),
        thoughts := Thoughts(3, [], NoIdeation), coping := Coping([], 3, []));
      && FallbackSeverity(FallbackTotal(e), NoIdeation) == Severe
      && Scoring.DetermineRouting(FallbackSeverity(FallbackTotal(e), NoIdeation), NoIdeation) == HumanTherapy
      && Scoring.DetermineSeverity(Scoring.CompositeScore(e), NoIdeation) == Mild
      && Scoring.DetermineRouting(Scoring.DetermineSeverity(Scoring.CompositeScore(e), NoIdeation), NoIdeation) == AiSupport
  {
    var e := Scoring.ZeroEvaluation.(
        sleepPatterns := SleepPatterns(3, 3, []), appetite := Appetite(3, "", 3),
        energy := Energy(3, 3, 0), social := Social(3, 0, 3),
        thoughts := Thoughts(3, [], NoIdeation), coping := Coping([], 3, []));
    Scoring.CompositeScoreExpanded(e);
  }

  /** Ten in each of the four uncounted fields and zero elsewhere: the offline analysis
      says minimal and stable where the main engine says mild and AI support. */
  lemma FallbackMilderThanMain()
    ensures var e := Scoring.ZeroEvaluation.(
        energy := Energy(0, 0, 10), social := Social(0, 10, 0), behavior := Behavior([], 10, 10));
      && FallbackSeverity(FallbackTotal(e), NoIdeation) == Minimal
      && Scoring.DetermineSeverity(Scoring.CompositeScore(e), NoIdeation) == Mild
  {
    var e := Scoring.ZeroEvaluation.(
        energy := Energy(0, 0, 10), social := Social(0, 10, 0), behavior := Behavior([], 10, 10));
    Scoring.CompositeScoreExpanded(e);
    assert Scoring.CompositeScore(e) == 40;
    assert FallbackTotal(e) == 0;
  }

  // ---------------------------------------------------------------------------
  // Strings

  /** `sub` occurs in `s` starting at index `i`. */
  predicate OccursAt(s: string, sub: string, i: nat) {
    i + |sub| <= |s| && s[i..i + |sub|] == sub
  }

  /** Substring containment, as `includes` tests it. */
  predicate Contains(s: string, sub: string) {
    exists i :: 0 <= i <= |s| && OccursAt(s, sub, i)
  }

  /** A string containing `a` contains everything `a` contains. */
  lemma ContainsTransitive(s: string, a: string, b: string)
    requires Contains(s, a) && Contains(a, b)
    ensures Contains(s, b)
  {
    var i :| 0 <= i <= |s| && OccursAt(s, a, i);
    var j :| 0 <= j <= |a| && OccursAt(a, b, j);
    forall k | 0 <= k < |b|
      ensures s[i + j + k] == b[k]
    {
      assert b[k] == a[j + k];
      assert a[j + k] == s[i + (j + k)];
    }
    assert s[i + j..i + j + |b|] == b;
    assert OccursAt(s, b, i + j);
  }

  /** Nothing non-empty occurs in the empty string. */
  lemma EmptyContainsNothing(sub: string)
    requires sub != []
    ensures !Contains([], sub)
  {
  }

  function LowerChar(c: char): char {
    if 'A' <= c <= 'Z' then (c as int - 'A' as int + 'a' as int) as char else c
  }

  /** Lower-casing, restricted to the ASCII letters. */
  function LowerAscii(s: string): (r: string)
    ensures |r| == |s|
    ensures forall i :: 0 <= i < |r| ==> !('A' <= r[i] <= 'Z')
    ensures forall i :: 0 <= i < |r| ==> (r[i] == s[i] <==> !('A' <= s[i] <= 'Z'))
  {
    seq(|s|, i requires 0 <= i < |s| => LowerChar(s[i]))
  }

  /** Lower-casing twice is lower-casing once. */
  lemma LowerAsciiIdempotent(s: string)
    ensures LowerAscii(LowerAscii(s)) == LowerAscii(s)
  {
  }

  // ---------------------------------------------------------------------------
  // Extracting the user's message: the pattern `User: (.+?)(?:\n|$)`

  /** The characters the pattern's `.` does not match. */
  predicate IsLineTerminator(c: char) {
    c == '\n' || c == '\r' || c == '\U{2028}' || c == '\U{2029}'
  }

  /** The first line terminator at or after `j`, or the end of `s`. */
  function LineEnd(s: string, j: nat): (k: nat)
    requires j <= |s|
    ensures j <= k <= |s|
    ensures forall i :: j <= i < k ==> !IsLineTerminator(s[i])
    ensures k < |s| ==> IsLineTerminator(s[k])
    decreases |s| - j
  {
    if j == |s| || IsLineTerminator(s[j]) then j else LineEnd(s, j + 1)
  }

  const UserTag := "User: "

  /** The pattern matches at `k`: the tag, then at least one character before the next
      line terminator, and that terminator is a line feed or the end of the text. The lazy
      `.+?` cannot cross a terminator, so the only place it can stop is that terminator. */
  predicate MatchesAt(s: string, k: nat) {
    && OccursAt(s, UserTag, k)
    && var end := LineEnd(s, k + |UserTag|);
       end > k + |UserTag| && (end == |s| || s[end] == '\n')
  }

  /** The leftmost position at or after `from` where the pattern matches. */
  function FirstMatch(s: string, from: nat): (r: Option<nat>)
    ensures r.Some? ==> from <= r.value && MatchesAt(s, r.value)
    ensures r.Some? ==> forall i :: from <= i < r.value ==> !MatchesAt(s, i)
    ensures r.None? ==> forall i :: from <= i ==> !MatchesAt(s, i)
    decreases |s| - from
  {
    if from + |UserTag| > |s| then None
    else if MatchesAt(s, from) then Some(from)
    else FirstMatch(s, from + 1)
  }

  /** The captured text of the leftmost match, lower-cased; empty when nothing matches. */
  function UserMessage(prompt: string): (m: string)
    ensures m == [] <==> forall i :: !MatchesAt(prompt, i)
    ensures forall i :: 0 <= i < |m| ==> !IsLineTerminator(m[i])
  {
    match FirstMatch(prompt, 0)
    case Some(k) => LowerAscii(prompt[k + |UserTag|..LineEnd(prompt, k + |UserTag|)])
    case None => []
  }

  /** A prompt that opens with a `User: ` line yields that line, lower-cased. */
  lemma UserLineExtracted(line: string, rest: string)
    requires line != []
    requires forall i :: 0 <= i < |line| ==> !IsLineTerminator(line[i])
    ensures UserMessage(UserTag + line + "\n" + rest) == LowerAscii(line)
  {
    var s := UserTag + line + "\n" + rest;
    assert s[..|UserTag|] == UserTag;
    assert s[|UserTag|..|UserTag| + |line|] == line;
    forall i | |UserTag| <= i < |UserTag| + |line|
      ensures !IsLineTerminator(s[i])
    {
      assert s[i] == line[i - |UserTag|];
    }
    assert s[|UserTag| + |line|] == '\n';
    assert LineEnd(s, |UserTag|) == |UserTag| + |line|;
    assert MatchesAt(s, 0);
  }

  // ---------------------------------------------------------------------------
  // Canned replies

  /** Which canned text is returned. `Supportive(v)` is the v-th of the four default
      supportive replies; `AnalysisJson` is the JSON text of the analysis it carries. */
  datatype Reply =
    | SelfCarePlan | SelfCareGeneral | AnxietyStress | DepressionSupport | SleepSupport
    | PanicSupport | LonelinessSupport | GriefSupport
    | Supportive(variant: nat)
    | AnalysisJson(analysis: Analysis)
    | TechnicalDifficulty

  predicate SelfCareTopic(m: string) { Contains(m, "self care") || Contains(m, "self-care") }
  predicate PlanRequest(m: string) { Contains(m, "plan") || Contains(m, "5 day") || Contains(m, "5-day") }
  predicate AnxietyTopic(m: string) { Contains(m, "anxiety") || Contains(m, "stress") }
  predicate DepressionTopic(m: string) { Contains(m, "depression") || Contains(m, "sad") || Contains(m, "down") }
  predicate SleepTopic(m: string) { Contains(m, "sleep") || Contains(m, "insomnia") }
  predicate PanicTopic(m: string) { Contains(m, "panic") || Contains(m, "panic attack") }
  predicate LonelinessTopic(m: string) { Contains(m, "lonely") || Contains(m, "loneliness") || Contains(m, "alone") }
  predicate GriefTopic(m: string) { Contains(m, "grief") || Contains(m, "loss") || Contains(m, "death") }

  predicate AnyTopic(m: string) {
    SelfCareTopic(m) || AnxietyTopic(m) || DepressionTopic(m) || SleepTopic(m)
    || PanicTopic(m) || LonelinessTopic(m) || GriefTopic(m)
  }

  /** The therapeutic reply: the first keyword group the message mentions decides, in the
      order self-care, anxiety, depression, sleep, panic, loneliness, grief; a message
      mentioning none gets the default reply the roll picks. */
  function TopicReply(m: string, roll: nat): (r: Reply)
    requires roll < 4
    ensures r == SelfCarePlan <==> SelfCareTopic(m) && PlanRequest(m)
    ensures r == SelfCareGeneral <==> SelfCareTopic(m) && !PlanRequest(m)
    ensures r == AnxietyStress <==> !SelfCareTopic(m) && AnxietyTopic(m)
    ensures r == DepressionSupport <==> !SelfCareTopic(m) && !AnxietyTopic(m) && DepressionTopic(m)
    ensures r == SleepSupport <==>
      !SelfCareTopic(m) && !AnxietyTopic(m) && !DepressionTopic(m) && SleepTopic(m)
    ensures r == PanicSupport <==>
      !SelfCareTopic(m) && !AnxietyTopic(m) && !DepressionTopic(m) && !SleepTopic(m) && PanicTopic(m)
    ensures r == LonelinessSupport <==>
      !SelfCareTopic(m) && !AnxietyTopic(m) && !DepressionTopic(m) && !SleepTopic(m) && !PanicTopic(m)
      && LonelinessTopic(m)
    ensures r == GriefSupport <==>
      !SelfCareTopic(m) && !AnxietyTopic(m) && !DepressionTopic(m) && !SleepTopic(m) && !PanicTopic(m)
      && !LonelinessTopic(m) && GriefTopic(m)
    ensures r.Supportive? <==> !AnyTopic(m)
    ensures r.Supportive? ==> r.variant == roll
    ensures !r.AnalysisJson? && r != TechnicalDifficulty
  {
    if SelfCareTopic(m) then (if PlanRequest(m) then SelfCarePlan else SelfCareGeneral)
    else if AnxietyTopic(m) then AnxietyStress
    else if DepressionTopic(m) then DepressionSupport
    else if SleepTopic(m) then SleepSupport
    else if PanicTopic(m) then PanicSupport
    else if LonelinessTopic(m) then LonelinessSupport
    else if GriefTopic(m) then GriefSupport
    else Supportive(roll)
  }

  /** The "panic attack" keyword adds nothing: every message containing it contains "panic". */
  lemma PanicAttackKeywordRedundant(m: string)
    ensures PanicTopic(m) <==> Contains(m, "panic")
  {
    if Contains(m, "panic attack") {
      assert OccursAt("panic attack", "panic", 0);
      ContainsTransitive(m, "panic attack", "panic");
    }
  }

  const AnalysisMarker := "Analyze the following mental health evaluation"
  const LongTherapyMarker := "Provide a supportive, therapeutic response"
  const TherapyMarker := "therapeutic response"

  /** The prompt is a therapy-chat prompt. */
  predicate TherapeuticPrompt(prompt: string) {
    Contains(prompt, "User:") && (Contains(prompt, LongTherapyMarker) || Contains(prompt, TherapyMarker))
  }

  /** The long therapy marker adds nothing: it contains the short one. */
  lemma LongTherapyMarkerRedundant(prompt: string)
    ensures TherapeuticPrompt(prompt) <==> Contains(prompt, "User:") && Contains(prompt, TherapyMarker)
  {
    if Contains(prompt, LongTherapyMarker) {
      assert OccursAt(LongTherapyMarker, TherapyMarker, 22);
      ContainsTransitive(prompt, LongTherapyMarker, TherapyMarker);
    }
  }

  /** The analysis text given when the model is unreachable. */
  const OfflineAnalysis := Analysis(
    Mild,
    ["General mood changes", "Sleep disturbances"],
    ["Consider professional evaluation", "Practice self-care", "Maintain regular sleep schedule"],
    AiSupport)

  /** The reply given without the model: therapy prompts get a topic reply, analysis
      prompts the fixed offline analysis, anything else the technical-difficulty text.
      `roll` stands for the random choice among the four default replies. */
  function FallbackResponse(prompt: string, roll: nat): (r: Reply)
    requires roll < 4
    ensures TherapeuticPrompt(prompt) ==> r == TopicReply(UserMessage(prompt), roll)
    ensures r.AnalysisJson? <==> !TherapeuticPrompt(prompt) && Contains(prompt, AnalysisMarker)
    ensures r.AnalysisJson? ==> r.analysis == OfflineAnalysis
    ensures r == TechnicalDifficulty <==> !TherapeuticPrompt(prompt) && !Contains(prompt, AnalysisMarker)
  {
    if TherapeuticPrompt(prompt) then TopicReply(UserMessage(prompt), roll)
    else if Contains(prompt, AnalysisMarker) then AnalysisJson(OfflineAnalysis)
    else TechnicalDifficulty
  }

  /** The offline analysis is mild and routed to AI support, as the main routing rule
      would route a mild result without ideation. */
  lemma OfflineAnalysisRoutedLikeMainEngine()
    ensures OfflineAnalysis.routeTo == Scoring.DetermineRouting(OfflineAnalysis.severity, NoIdeation)
    ensures OfflineAnalysis.severity == Mild
  {
  }

  /** A therapy prompt in which the pattern finds no `User: ` line (for instance one whose
      only tag is `User:` at the very end) always gets a default reply: the empty message
      mentions no topic. */
  lemma NoUserLineGetsDefaultReply(prompt: string, roll: nat)
    requires roll < 4
    requires TherapeuticPrompt(prompt)
    requires forall i :: !MatchesAt(prompt, i)
    ensures FallbackResponse(prompt, roll) == Supportive(roll)
  {
    assert UserMessage(prompt) == [];
    assert !AnyTopic([]);
  }

  /** A mention of self-care outranks every other topic, whatever else the message says. */
  lemma SelfCareOutranksAll(m: string, roll: nat)
    requires roll < 4
    requires SelfCareTopic(m)
    ensures TopicReply(m, roll) == SelfCarePlan || TopicReply(m, roll) == SelfCareGeneral
  {
  }
}
