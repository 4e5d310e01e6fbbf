/** Shared record and enumeration types of the assessment engine (lib/types.ts). */
module Types {

  datatype Option<+T> = None | Some(value: T) {
    /** The value, or `default` when absent. */
    function GetOr(default: T): T {
      match this
      case Some(v) => v
      case None => default
    }
  }

  /** The five severity levels, in ascending order of risk. */
  datatype Severity = Minimal | Mild | Moderate | ModeratelySevere | Severe

  /** Position of a severity in the risk order: minimal is 0, severe is 4. */
  function Rank(s: Severity): (r: nat)
    ensures r <= 4
    ensures r == 0 <==> s == Minimal
    ensures r == 4 <==> s == Severe
  {
    match s
    case Minimal => 0
    case Mild => 1
    case Moderate => 2
    case ModeratelySevere => 3
    case Severe => 4
  }

  /** The string a severity is stored and displayed as. */
  function SeverityName(s: Severity): string {
    match s
    case Minimal => "minimal"
    case Mild => "mild"
    case Moderate => "moderate"
    case ModeratelySevere => "moderately_severe"
    case Severe => "severe"
  }

  /** The care-routing decision stored in an assessment. */
  datatype Route = AiSupport | HumanTherapy | Stable

  function RouteName(r: Route): string {
    match r
    case AiSupport => "ai_support"
    case HumanTherapy => "human_therapy"
    case Stable => "stable"
  }

  datatype SuicidalIdeation = SuicidalIdeation(thoughts: bool, plan: bool, intent: bool)

  const NoIdeation := SuicidalIdeation(false, false, false)

  /** The condition of the unconditional override: any of the three flags. */
  predicate AnyIdeation(si: SuicidalIdeation) {
    si.thoughts || si.plan || si.intent
  }

  datatype SleepPatterns = SleepPatterns(quality: int, duration: int, disturbances: seq<string>)
  datatype Appetite = Appetite(changes: int, weightChanges: string, motivation: int)
  datatype Energy = Energy(level: int, fatigue: int, motivation: int)
  datatype Behavior = Behavior(changes: seq<string>, socialWithdrawal: int, irritability: int)
  datatype Social = Social(functioning: int, relationships: int, isolation: int)
  datatype Thoughts = Thoughts(selfImage: int, negativeThoughts: seq<string>, suicidalIdeation: SuicidalIdeation)
  datatype Coping = Coping(mechanisms: seq<string>, effectiveness: int, support: seq<string>)

  /** A symptom evaluation with every default already resolved (absent numbers are 0,
      absent flags false). */
  datatype SymptomEvaluation = SymptomEvaluation(
    sleepPatterns: SleepPatterns,
    appetite: Appetite,
    energy: Energy,
    behavior: Behavior,
    social: Social,
    thoughts: Thoughts,
    coping: Coping)

  /** The 0-10 range the evaluation's numeric fields are documented to lie in. */
  predicate InScale(n: int) { 0 <= n <= 10 }

  predicate ScaledEvaluation(e: SymptomEvaluation) {
    && InScale(e.sleepPatterns.quality) && InScale(e.sleepPatterns.duration)
    && InScale(e.appetite.changes) && InScale(e.appetite.motivation)
    && InScale(e.energy.level) && InScale(e.energy.fatigue) && InScale(e.energy.motivation)
    && InScale(e.social.functioning) && InScale(e.social.relationships) && InScale(e.social.isolation)
    && InScale(e.behavior.socialWithdrawal) && InScale(e.behavior.irritability)
    && InScale(e.thoughts.selfImage) && InScale(e.coping.effectiveness)
  }

  /** Every sub-score is optional. `suicideRisk` is the extra key the suicide-risk page
      stores, which the declared interface does not list. */
  datatype Scores = Scores(
    phq9: Option<int>,
    gad7: Option<int>,
    sleep: Option<int>,
    appetite: Option<int>,
    energy: Option<int>,
    social: Option<int>,
    coping: Option<int>,
    suicideRisk: Option<int>)

  const NoScores := Scores(None, None, None, None, None, None, None, None)

  /** `timestamp` is the creation instant in milliseconds. */
  datatype AssessmentResult = AssessmentResult(
    id: string,
    timestamp: int,
    scores: Scores,
    severity: Severity,
    symptoms: seq<string>,
    recommendations: seq<string>,
    routeTo: Route)

  datatype Role = User | Assistant

  datatype ChatMessage = ChatMessage(id: string, role: Role, content: string, timestamp: int)

  /** A therapy session is only ever AI support or human therapy. */
  datatype SessionType = AiSession | HumanSession

  datatype SessionProgress = SessionProgress(mood: int, symptoms: seq<string>, improvements: seq<string>)

  datatype TherapySession = TherapySession(
    id: string,
    assessmentId: string,
    kind: SessionType,
    startTime: int,
    endTime: Option<int>,
    messages: seq<ChatMessage>,
    progress: SessionProgress)

  datatype WeeklyCheckin = WeeklyCheckin(
    date: int,
    mood: int,
    symptoms: seq<string>,
    copingStrategies: seq<string>,
    notes: string)

  /** Progress tracking as the store holds it: the store spreads partial updates over a
      possibly absent record, so any field can be missing. */
  datatype ProgressTracking = ProgressTracking(
    sessionId: Option<string>,
    weeklyCheckins: Option<seq<WeeklyCheckin>>,
    reassessmentNeeded: Option<bool>,
    nextAssessmentDate: Option<int>)
}
