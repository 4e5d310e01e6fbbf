/** The client-side store (lib/store.ts): the current assessment and evaluation, the
    therapy session and its chat, progress tracking, and a most-recent-first assessment
    history of at most ten entries. Persistence to local storage is not modelled. */
module Store {
  import opened Types
  import opened Js

  /** The history keeps this many assessments. */
  const HistoryLimit := 10

  function Min(a: int, b: int): int { if a <= b then a else b }

  /** The new item first, then the old first nine in order. */
  function CappedPrepend<T>(x: T, h: seq<T>): (r: seq<T>)
    ensures |r| == Min(|h| + 1, HistoryLimit)
    ensures r[0] == x && r[1..] == h[..|r| - 1]
  {
    [x] + h[..Min(|h|, HistoryLimit - 1)]
  }

  /** A history after each of `adds` was added, in order. */
  function Replay<T>(h: seq<T>, adds: seq<T>): seq<T> {
    if adds == [] then h else CappedPrepend(adds[|adds| - 1], Replay(h, adds[..|adds| - 1]))
  }

  function Reverse<T>(s: seq<T>): (r: seq<T>)
    ensures |r| == |s|
    ensures forall i :: 0 <= i < |s| ==> r[i] == s[|s| - 1 - i]
  {
    if s == [] then [] else [s[|s| - 1]] + Reverse(s[..|s| - 1])
  }

  /** Whatever is added, the history is the ten most recent entries, newest first: the
      additions in reverse order, followed by the earlier history. */
  lemma {:induction false} HistoryKeepsMostRecent<T>(h: seq<T>, adds: seq<T>)
    requires |h| <= HistoryLimit
    ensures Replay(h, adds) == (Reverse(adds) + h)[..Min(|adds| + |h|, HistoryLimit)]
  {
    if adds == [] {
      assert Reverse(adds) + h == h;
    } else {
      var init, last := adds[..|adds| - 1], adds[|adds| - 1];
      HistoryKeepsMostRecent(h, init);
      var prev := Replay(h, init);
      var all := Reverse(adds) + h;
      var allInit := Reverse(init) + h;
      assert all == [last] + allInit;
      var r := Replay(h, adds);
      assert r == CappedPrepend(last, prev);
      assert |r| == Min(|adds| + |h|, HistoryLimit);
      forall i | 0 <= i < |r|
        ensures r[i] == all[i]
      {
        if i > 0 {
          assert r[i] == prev[i - 1];
        }
      }
    }
  }

  /** An update of progress tracking: the fields it carries replace the stored ones. */
  const NoProgress := ProgressTracking(None, None, None, None)

  function Pick<T>(update: Option<T>, base: Option<T>): Option<T> {
    if update.Some? then update else base
  }

  /** `{ ...progressTracking, ...update }`: each field the update carries, otherwise the
      stored field (none when nothing is stored). */
  function Overlay(base: Option<ProgressTracking>, update: ProgressTracking): (r: ProgressTracking)
    ensures update.sessionId.Some? ==> r.sessionId == update.sessionId
    ensures update.weeklyCheckins.Some? ==> r.weeklyCheckins == update.weeklyCheckins
    ensures update.reassessmentNeeded.Some? ==> r.reassessmentNeeded == update.reassessmentNeeded
    ensures update.nextAssessmentDate.Some? ==> r.nextAssessmentDate == update.nextAssessmentDate
    ensures update.sessionId.None? ==> r.sessionId == base.GetOr(NoProgress).sessionId
    ensures update.weeklyCheckins.None? ==> r.weeklyCheckins == base.GetOr(NoProgress).weeklyCheckins
    ensures update.reassessmentNeeded.None? ==> r.reassessmentNeeded == base.GetOr(NoProgress).reassessmentNeeded
    ensures update.nextAssessmentDate.None? ==> r.nextAssessmentDate == base.GetOr(NoProgress).nextAssessmentDate
    ensures update == NoProgress ==> r == base.GetOr(NoProgress)
  {
    var b := base.GetOr(NoProgress);
    ProgressTracking(
      Pick(update.sessionId, b.sessionId),
      Pick(update.weeklyCheckins, b.weeklyCheckins),
      Pick(update.reassessmentNeeded, b.reassessmentNeeded),
      Pick(update.nextAssessmentDate, b.nextAssessmentDate))
  }

  /** Two updates in a row are one update carrying both, the later one winning. */
  lemma OverlayTwice(base: Option<ProgressTracking>, u1: ProgressTracking, u2: ProgressTracking)
    ensures Overlay(Some(Overlay(base, u1)), u2) == Overlay(base, Overlay(Some(u1), u2))
  {
  }

  /** Repeating an update changes nothing more. */
  lemma OverlayIdempotent(base: Option<ProgressTracking>, u: ProgressTracking)
    ensures Overlay(Some(Overlay(base, u)), u) == Overlay(base, u)
  {
  }

  class AssessmentStore {
    var currentAssessment: Option<AssessmentResult>
    var symptomEvaluation: Option<map<string, JsValue>>
    var currentSession: Option<TherapySession>
    var chatMessages: seq<ChatMessage>
    var progressTracking: Option<ProgressTracking>
    var assessmentHistory: seq<AssessmentResult>

    /** The history never exceeds its limit, and a current session's messages are the
        chat messages. */
    ghost predicate Valid()
      reads this
    {
      && |assessmentHistory| <= HistoryLimit
      && (currentSession.Some? ==> currentSession.value.messages == chatMessages)
    }

    /** The initial state: nothing stored. */
    constructor ()
      ensures Valid()
      ensures currentAssessment == None && symptomEvaluation == None && currentSession == None
      ensures chatMessages == [] && progressTracking == None && assessmentHistory == []
    {
      currentAssessment := None;
      symptomEvaluation := None;
      currentSession := None;
      chatMessages := [];
      progressTracking := None;
      assessmentHistory := [];
    }

    /** Puts the assessment first in the history, keeping the nine before it. */
    method AddAssessmentToHistory(a: AssessmentResult)
      requires Valid()
      modifies this
      ensures Valid()
      ensures assessmentHistory == CappedPrepend(a, old(assessmentHistory))
      ensures currentAssessment == old(currentAssessment) && symptomEvaluation == old(symptomEvaluation)
      ensures currentSession == old(currentSession) && chatMessages == old(chatMessages)
      ensures progressTracking == old(progressTracking)
    {
      assessmentHistory := CappedPrepend(a, assessmentHistory);
    }

    /** Makes the assessment current and records it in the history. */
    method SetCurrentAssessment(a: AssessmentResult)
      requires Valid()
      modifies this
      ensures Valid()
      ensures currentAssessment == Some(a)
      ensures assessmentHistory == CappedPrepend(a, old(assessmentHistory))
      ensures symptomEvaluation == old(symptomEvaluation)
      ensures currentSession == old(currentSession) && chatMessages == old(chatMessages)
      ensures progressTracking == old(progressTracking)
    {
      currentAssessment := Some(a);
      AddAssessmentToHistory(a);
    }

    method SetSymptomEvaluation(evaluation: map<string, JsValue>)
      requires Valid()
      modifies this
      ensures Valid()
      ensures symptomEvaluation == Some(evaluation)
      ensures currentAssessment == old(currentAssessment) && assessmentHistory == old(assessmentHistory)
      ensures currentSession == old(currentSession) && chatMessages == old(chatMessages)
      ensures progressTracking == old(progressTracking)
    {
      symptomEvaluation := Some(evaluation);
    }

    /** Opens a session of the given kind for an assessment, with no messages, no end,
        mood 5 and empty symptom and improvement lists; the chat starts empty. */
    method StartSession(kind: SessionType, assessmentId: string, id: string, now: int)
      requires Valid()
      modifies this
      ensures Valid()
      ensures currentSession == Some(TherapySession(id, assessmentId, kind, now, None, [], SessionProgress(5, [], [])))
      ensures chatMessages == []
      ensures currentAssessment == old(currentAssessment) && assessmentHistory == old(assessmentHistory)
      ensures symptomEvaluation == old(symptomEvaluation) && progressTracking == old(progressTracking)
    {
      currentSession := Some(TherapySession(id, assessmentId, kind, now, None, [], SessionProgress(5, [], [])));
      chatMessages := [];
    }

    /** Stamps the end time on the current session; without a session nothing happens. */
    method EndSession(now: int)
      requires Valid()
      modifies this
      ensures Valid()
      ensures old(currentSession).None? ==> currentSession == None
      ensures old(currentSession).Some? ==> currentSession == Some(old(currentSession).value.(endTime := Some(now)))
      ensures chatMessages == old(chatMessages)
      ensures currentAssessment == old(currentAssessment) && assessmentHistory == old(assessmentHistory)
      ensures symptomEvaluation == old(symptomEvaluation) && progressTracking == old(progressTracking)
    {
      if currentSession.Some? {
        currentSession := Some(currentSession.value.(endTime := Some(now)));
      }
    }

    /** Appends the message to the chat and, when a session is open, to its messages. */
    method AddChatMessage(m: ChatMessage)
      requires Valid()
      modifies this
      ensures Valid()
      ensures chatMessages == old(chatMessages) + [m]
      ensures old(currentSession).None? ==> currentSession == None
      ensures old(currentSession).Some? ==>
        currentSession == Some(old(currentSession).value.(messages := old(currentSession).value.messages + [m]))
      ensures currentAssessment == old(currentAssessment) && assessmentHistory == old(assessmentHistory)
      ensures symptomEvaluation == old(symptomEvaluation) && progressTracking == old(progressTracking)
    {
      chatMessages := chatMessages + [m];
      if currentSession.Some? {
        var s := currentSession.value;
        currentSession := Some(s.(messages := s.messages + [m]));
      }
    }

    /** Overlays the fields the update carries on the stored progress tracking. */
    method UpdateProgress(update: ProgressTracking)
      requires Valid()
      modifies this
      ensures Valid()
      ensures progressTracking == Some(Overlay(old(progressTracking), update))
      ensures currentAssessment == old(currentAssessment) && assessmentHistory == old(assessmentHistory)
      ensures symptomEvaluation == old(symptomEvaluation)
      ensures currentSession == old(currentSession) && chatMessages == old(chatMessages)
    {
      progressTracking := Some(Overlay(progressTracking, update));
    }

    /** Drops the session, the chat and the evaluation; the current assessment, the
        history and progress tracking stay. */
    method ClearSession()
      requires Valid()
      modifies this
      ensures Valid()
      ensures currentSession == None && chatMessages == [] && symptomEvaluation == None
      ensures currentAssessment == old(currentAssessment) && assessmentHistory == old(assessmentHistory)
      ensures progressTracking == old(progressTracking)
    {
      currentSession := None;
      chatMessages := [];
      symptomEvaluation := None;
    }
  }
}
