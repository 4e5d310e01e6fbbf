/** The admin dashboard (app/admin/page.tsx): the per-severity histogram of the history,
    the recent-activity list and the severity badges. */
module Admin {
  import opened Types
  import Store

  /** How many assessments in the history have severity `s`. */
  function Count(h: seq<AssessmentResult>, s: Severity): (n: nat)
    ensures n <= |h|
  {
    if h == [] then 0
    else Count(h[..|h| - 1], s) + if h[|h| - 1].severity == s then 1 else 0
  }

  /** The counts over all five severities add up to the history length. */
  function TotalCount(counts: map<Severity, nat>): nat {
    (if Minimal in counts then counts[Minimal] else 0)
    + (if Mild in counts then counts[Mild] else 0)
    + (if Moderate in counts then counts[Moderate] else 0)
    + (if ModeratelySevere in counts then counts[ModeratelySevere] else 0)
    + (if Severe in counts then counts[Severe] else 0)
  }

  /** One more assessment adds one to its own severity's count only. */
  lemma CountStep(h: seq<AssessmentResult>, i: nat, s: Severity)
    requires i < |h|
    ensures Count(h[..i + 1], s) == Count(h[..i], s) + if h[i].severity == s then 1 else 0
  {
    assert h[..i + 1][..i] == h[..i];
  }

  /** Bumping one entry of the histogram raises the total by one. */
  lemma TotalCountBump(acc: map<Severity, nat>, s: Severity)
    ensures TotalCount(acc[s := (if s in acc then acc[s] else 0) + 1]) == TotalCount(acc) + 1
  {
  }

  /** `reduce` into a dictionary: each assessment adds one to its severity's entry,
      creating it at 1. A severity is a key exactly when some assessment has it, its
      entry is that count, and the entries add up to the history length. */
  method SeverityBreakdown(h: seq<AssessmentResult>) returns (acc: map<Severity, nat>)
    ensures forall s :: s in acc <==> Count(h, s) > 0
    ensures forall s :: s in acc ==> acc[s] == Count(h, s)
    ensures TotalCount(acc) == |h|
  {
    acc := map[];
    var i := 0;
    while i < |h|
      invariant 0 <= i <= |h|
      invariant forall s :: s in acc <==> Count(h[..i], s) > 0
      invariant forall s :: s in acc ==> acc[s] == Count(h[..i], s)
      invariant TotalCount(acc) == i
    {
      var s := h[i].severity;
      TotalCountBump(acc, s);
      forall t ensures Count(h[..i + 1], t) == Count(h[..i], t) + if s == t then 1 else 0 {
        CountStep(h, i, t);
      }
      acc := acc[s := (if s in acc then acc[s] else 0) + 1];
      i := i + 1;
    }
    assert h[..i] == h;
  }

  /** The first five entries of the history (fewer when it is shorter), in order. */
  function RecentActivity(h: seq<AssessmentResult>): (r: seq<AssessmentResult>)
    ensures |r| == Store.Min(|h|, 5)
    ensures forall i :: 0 <= i < |r| ==> r[i] == h[i]
  {
    h[..Store.Min(|h|, 5)]
  }

  /** With the ten-entry history, recent activity is the five latest assessments. */
  lemma {:induction false} RecentActivityIsLatest(h: seq<AssessmentResult>, adds: seq<AssessmentResult>)
    requires |h| <= Store.HistoryLimit && |adds| >= 5
    ensures RecentActivity(Store.Replay(h, adds)) == Store.Reverse(adds)[..5]
  {
    Store.HistoryKeepsMostRecent(h, adds);
    var r := Store.Replay(h, adds);
    assert |r| >= 5;
    forall i | 0 <= i < 5
      ensures RecentActivity(r)[i] == Store.Reverse(adds)[i]
    {
      assert r[i] == (Store.Reverse(adds) + h)[i];
    }
  }

  /** The badge classes: one per severity above minimal, green for anything else. */
  function Badge(severity: string): (b: string)
    ensures b == "bg-green-100 text-green-800" <==>
      severity !in ["severe", "moderately_severe", "moderate", "mild"]
  {
    if severity == "severe" then "bg-red-100 text-red-800"
    else if severity == "moderately_severe" then "bg-orange-100 text-orange-800"
    else if severity == "moderate" then "bg-yellow-100 text-yellow-800"
    else if severity == "mild" then "bg-blue-100 text-blue-800"
    else "bg-green-100 text-green-800"
  }

  /** A stored severity's badge is green exactly when the severity is minimal. */
  lemma GreenBadgeOnlyForMinimal(s: Severity)
    ensures Badge(SeverityName(s)) == "bg-green-100 text-green-800" <==> s == Minimal
  {
  }

  /** "Clear all data", once confirmed, clears the session; the history held in memory
      stays. */
  method ClearData(store: Store.AssessmentStore, confirmed: bool)
    requires store.Valid()
    modifies store
    ensures store.Valid()
    ensures confirmed ==> store.currentSession == None && store.chatMessages == [] && store.symptomEvaluation == None
    ensures !confirmed ==>
      store.currentSession == old(store.currentSession) && store.chatMessages == old(store.chatMessages)
      && store.symptomEvaluation == old(store.symptomEvaluation)
    ensures store.assessmentHistory == old(store.assessmentHistory)
    ensures store.currentAssessment == old(store.currentAssessment)
    ensures store.progressTracking == old(store.progressTracking)
  {
    if confirmed {
      store.ClearSession();
    }
  }
}
