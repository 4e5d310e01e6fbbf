/** The results page (app/results/page.tsx): the texts and colours chosen for a stored
    severity and route, the page each route leads to, and the crisis banner. */
module Results {
  import opened Types
  import Store
  import SymptomForm

  /** "Start session": the page for the stored route; a stable result leads to progress
      tracking. */
  function StartSessionPath(r: Route): (p: string)
    ensures p == "/progress" <==> r == Stable
    ensures r != Stable ==> p == SymptomForm.RoutePath(r)
  {
    match r
    case HumanTherapy => "/therapy/human"
    case AiSupport => "/therapy/ai"
    case Stable => "/progress"
  }

  /** The title for a route name, with a default for any other name. */
  function RouteTitle(route: string): (t: string)
    ensures t == "Assessment Complete" <==> route != "human_therapy" && route != "ai_support" && route != "stable"
    ensures t == "Professional Therapy Recommended" <==> route == "human_therapy"
  {
    if route == "human_therapy" then "Professional Therapy Recommended"
    else if route == "ai_support" then "AI Support Available"
    else if route == "stable" then "Stable Condition"
    else "Assessment Complete"
  }

  const DefaultRouteDescription := "Your assessment has been completed successfully."
  const HumanTherapyDescription :=
    "Based on your assessment, we recommend connecting with a mental health professional for personalized care and support."
  const AiSupportDescription :=
    "You can benefit from AI-powered support and guidance. Our AI assistant is here to help you develop coping strategies."
  const StableDescription :=
    "Your symptoms appear to be minimal. Continue with your current self-care practices and monitor your well-being."

  /** The description for a route name, with a default for any other name. */
  function RouteDescription(route: string): (d: string)
    ensures d == DefaultRouteDescription <==>
      route != "human_therapy" && route != "ai_support" && route != "stable"
  {
    DescriptionsDiffer();
    if route == "human_therapy" then HumanTherapyDescription
    else if route == "ai_support" then AiSupportDescription
    else if route == "stable" then StableDescription
    else DefaultRouteDescription
  }

  /** The four route descriptions are pairwise different. */
  lemma DescriptionsDiffer()
    ensures HumanTherapyDescription != DefaultRouteDescription
    ensures AiSupportDescription != DefaultRouteDescription
    ensures StableDescription != DefaultRouteDescription
    ensures HumanTherapyDescription != AiSupportDescription
    ensures HumanTherapyDescription != StableDescription
    ensures AiSupportDescription != StableDescription
  {
  }

  /** Every stored route has its own title and description; none falls to the default. */
  lemma EveryRouteHasItsOwnTexts(r: Route)
    ensures RouteTitle(RouteName(r)) != "Assessment Complete"
    ensures RouteDescription(RouteName(r)) != DefaultRouteDescription
  {
    match r
    case HumanTherapy => assert RouteName(r) == "human_therapy";
    case AiSupport => assert RouteName(r) == "ai_support";
    case Stable => assert RouteName(r) == "stable";
  }

  /** Each stored route has a title and a description of its own: equal texts mean equal
      routes. */
  lemma RouteTextsTellRoutesApart(r1: Route, r2: Route)
    ensures RouteTitle(RouteName(r1)) == RouteTitle(RouteName(r2)) ==> r1 == r2
    ensures RouteDescription(RouteName(r1)) == RouteDescription(RouteName(r2)) ==> r1 == r2
  {
    DescriptionsDiffer();
    assert RouteName(HumanTherapy) == "human_therapy";
    assert RouteName(AiSupport) == "ai_support";
    assert RouteName(Stable) == "stable";
    assert RouteTitle("ai_support") != RouteTitle("stable");
  }

  const DefaultSeverityColor := "text-gray-600 bg-gray-50 border-gray-200"

  /** The colour classes for a severity name, grey for any other name. */
  function SeverityColor(severity: string): (c: string)
    ensures c == DefaultSeverityColor <==>
      severity !in ["severe", "moderately_severe", "moderate", "mild", "minimal"]
  {
    if severity == "severe" then "text-red-600 bg-red-50 border-red-200"
    else if severity == "moderately_severe" then "text-orange-600 bg-orange-50 border-orange-200"
    else if severity == "moderate" then "text-yellow-600 bg-yellow-50 border-yellow-200"
    else if severity == "mild" then "text-blue-600 bg-blue-50 border-blue-200"
    else if severity == "minimal" then "text-green-600 bg-green-50 border-green-200"
    else DefaultSeverityColor
  }

  /** No stored severity is shown in the default grey. */
  lemma StoredSeverityNeverGrey(s: Severity)
    ensures SeverityColor(SeverityName(s)) != DefaultSeverityColor
  {
  }

  /** What a JSX child expression evaluates to: a boolean renders nothing, the banner
      element renders the banner. */
  datatype Child = BoolChild(b: bool) | Banner

  predicate Renders(c: Child) { c.Banner? }

  /** The banner expression as written, `severe || moderately_severe && <banner>`: `&&`
      binds tighter, so a severe result yields `true` and no banner. */
  function CrisisBannerAsWritten(s: Severity): (c: Child)
    ensures Renders(c) <==> s == ModeratelySevere
    ensures c.BoolChild? ==> (c.b <==> s == Severe)
  {
    if s == Severe then BoolChild(true)
    else if s == ModeratelySevere then Banner
    else BoolChild(false)
  }

  /** The banner as intended, `(severe || moderately_severe) && <banner>`. */
  function CrisisBanner(s: Severity): (c: Child)
    ensures Renders(c) <==> s == Severe || s == ModeratelySevere
  {
    if s == Severe || s == ModeratelySevere then Banner else BoolChild(false)
  }

  /** The written and the intended banner disagree on severe results alone: as written
      the most urgent result shows no banner. */
  lemma CrisisBannerSkipsSevere(s: Severity)
    ensures Renders(CrisisBannerAsWritten(s)) != Renders(CrisisBanner(s)) <==> s == Severe
    ensures !Renders(CrisisBannerAsWritten(Severe))
  {
  }

  /** The intended banner shows for the two upper levels, the levels the quick screen
      and the routing tiers treat as needing a human; so for every ideation override. */
  lemma CrisisBannerForUpperLevels(s: Severity)
    ensures Renders(CrisisBanner(s)) <==> Rank(s) >= 3
    ensures s == Severe ==> Renders(CrisisBanner(s))
  {
  }

  /** With no current assessment the page sends the user home; otherwise it stays. */
  function Redirect(current: Option<AssessmentResult>): (p: Option<string>)
    ensures p.Some? <==> current.None?
    ensures p.Some? ==> p.value == "/"
  {
    if current.None? then Some("/") else None
  }

  /** "New assessment": clears the session, then goes to the assessment menu. */
  method NewAssessment(store: Store.AssessmentStore) returns (path: string)
    requires store.Valid()
    modifies store
    ensures store.Valid()
    ensures store.currentSession == None && store.chatMessages == [] && store.symptomEvaluation == None
    ensures store.currentAssessment == old(store.currentAssessment)
    ensures store.assessmentHistory == old(store.assessmentHistory)
    ensures store.progressTracking == old(store.progressTracking)
    ensures path == "/assess"
  {
    store.ClearSession();
    path := "/assess";
  }
}
