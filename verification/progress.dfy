/** The progress page (app/progress/page.tsx): weekly check-ins added newest first, the
    check-in form, the mood buckets, the streak, and the de-duplicated symptom list sent
    for insights. Loading and saving check-ins in local storage is not modelled. */
module Progress {
  import opened Js

  /** A check-in as the page stores it; `date` is the creation instant. */
  datatype Checkin = Checkin(id: string, date: int, mood: int, symptoms: seq<string>, copingStrategies: seq<string>, notes: string)

  /** The check-in form's contents. */
  datatype Draft = Draft(mood: int, symptoms: seq<string>, copingStrategies: seq<string>, notes: string)

  /** The form's reset state: mood 5, nothing ticked, no notes. */
  const BlankDraft := Draft(5, [], [], "")

  /** The mood buttons offer 1 to 10. */
  predicate MoodInRange(m: int) { 1 <= m <= 10 }

  datatype MoodLabel = Excellent | Good | Okay | Poor

  /** 8 and above excellent, 6 and above good, 4 and above okay, else poor. */
  function GetMoodLabel(mood: int): (l: MoodLabel)
    ensures l == Excellent <==> mood >= 8
    ensures l == Good <==> 6 <= mood < 8
    ensures l == Okay <==> 4 <= mood < 6
    ensures l == Poor <==> mood < 4
  {
    if mood >= 8 then Excellent
    else if mood >= 6 then Good
    else if mood >= 4 then Okay
    else Poor
  }

  /** The colour classes of a mood, tested against the same thresholds. */
  function GetMoodColor(mood: int): (c: string)
    ensures c == "text-green-600 bg-green-50" <==> GetMoodLabel(mood) == Excellent
    ensures c == "text-blue-600 bg-blue-50" <==> GetMoodLabel(mood) == Good
    ensures c == "text-yellow-600 bg-yellow-50" <==> GetMoodLabel(mood) == Okay
    ensures c == "text-red-600 bg-red-50" <==> GetMoodLabel(mood) == Poor
  {
    if mood >= 8 then "text-green-600 bg-green-50"
    else if mood >= 6 then "text-blue-600 bg-blue-50"
    else if mood >= 4 then "text-yellow-600 bg-yellow-50"
    else "text-red-600 bg-red-50"
  }

  /** Two moods share a colour exactly when they share a label. */
  lemma ColorFollowsLabel(m1: int, m2: int)
    ensures GetMoodColor(m1) == GetMoodColor(m2) <==> GetMoodLabel(m1) == GetMoodLabel(m2)
  {
    assert "text-green-600 bg-green-50"[5] != "text-blue-600 bg-blue-50"[5];
    assert "text-green-600 bg-green-50"[5] != "text-yellow-600 bg-yellow-50"[5];
    assert "text-green-600 bg-green-50"[5] != "text-red-600 bg-red-50"[5];
    assert "text-blue-600 bg-blue-50"[5] != "text-yellow-600 bg-yellow-50"[5];
    assert "text-blue-600 bg-blue-50"[5] != "text-red-600 bg-red-50"[5];
    assert "text-yellow-600 bg-yellow-50"[5] != "text-red-600 bg-red-50"[5];
  }

  /** The streak shown: the number of check-ins, capped at 7. */
  function Streak(count: nat): (days: nat)
    ensures days <= 7 && days <= count
    ensures days == count <==> count <= 7
  {
    if count > 0 then (if count < 7 then count else 7) else 0
  }

  /** `[...new Set(xs)]`: each entry once, at its first position. */
  function Dedup(xs: seq<string>): (r: seq<string>)
    ensures |r| <= |xs|
    ensures forall x :: x in r <==> x in xs
  {
    if xs == [] then []
    else
      var d := Dedup(xs[..|xs| - 1]);
      if xs[|xs| - 1] in d then d else d + [xs[|xs| - 1]]
  }

  predicate Distinct(xs: seq<string>) {
    forall i, j :: 0 <= i < j < |xs| ==> xs[i] != xs[j]
  }

  /** No entry appears twice after de-duplication. */
  lemma {:induction false} DedupDistinct(xs: seq<string>)
    ensures Distinct(Dedup(xs))
  {
    if xs != [] {
      DedupDistinct(xs[..|xs| - 1]);
    }
  }

  /** A list without repeats is left as it is. */
  lemma {:induction false} DedupOfDistinct(xs: seq<string>)
    requires Distinct(xs)
    ensures Dedup(xs) == xs
  {
    if xs != [] {
      var init := xs[..|xs| - 1];
      DedupOfDistinct(init);
      assert xs[|xs| - 1] !in init;
      assert init + [xs[|xs| - 1]] == xs;
    }
  }

  /** The position of the first copy of `x` in `xs`. */
  function FirstIndex(xs: seq<string>, x: string): (i: nat)
    requires x in xs
    ensures i < |xs| && xs[i] == x
    ensures forall j :: 0 <= j < i ==> xs[j] != x
  {
    if xs[0] == x then 0 else 1 + FirstIndex(xs[1..], x)
  }

  /** Appending an entry does not move the first copy of anything already listed. */
  lemma FirstIndexAppend(init: seq<string>, last: string, x: string)
    requires x in init
    ensures FirstIndex(init + [last], x) == FirstIndex(init, x)
  {
    var xs := init + [last];
    var i, k := FirstIndex(xs, x), FirstIndex(init, x);
    assert xs[k] == x;
    if i < |init| {
      assert init[i] == x;
    }
  }

  /** The de-duplicated list keeps the order of first occurrences. */
  lemma {:induction false} DedupFirstOccurrenceOrder(xs: seq<string>)
    ensures forall i, j :: 0 <= i < j < |Dedup(xs)| ==>
      FirstIndex(xs, Dedup(xs)[i]) < FirstIndex(xs, Dedup(xs)[j])
  {
    if xs != [] {
      var init, last := xs[..|xs| - 1], xs[|xs| - 1];
      assert xs == init + [last];
      var d := Dedup(init);
      DedupFirstOccurrenceOrder(init);
      forall y | y in d
        ensures FirstIndex(xs, y) == FirstIndex(init, y)
      {
        FirstIndexAppend(init, last, y);
      }
      if last !in d {
        assert Dedup(xs) == d + [last];
        forall i, j | 0 <= i < j < |Dedup(xs)|
          ensures FirstIndex(xs, Dedup(xs)[i]) < FirstIndex(xs, Dedup(xs)[j])
        {
          assert Dedup(xs)[i] == d[i];
          if j < |d| {
            assert Dedup(xs)[j] == d[j];
          }
        }
      }
    }
  }

  /** `flatMap` of the check-ins' symptom lists, in check-in order. */
  function AllSymptoms(cs: seq<Checkin>): seq<string> {
    if cs == [] then [] else AllSymptoms(cs[..|cs| - 1]) + cs[|cs| - 1].symptoms
  }

  /** The symptoms sent for insights: every symptom of some check-in, each once. */
  function InsightSymptoms(cs: seq<Checkin>): (r: seq<string>)
    ensures Distinct(r)
  {
    DedupDistinct(AllSymptoms(cs));
    Dedup(AllSymptoms(cs))
  }

  /** A symptom is sent exactly when some check-in lists it. */
  lemma {:induction false} InsightSymptomsComplete(cs: seq<Checkin>, s: string)
    ensures s in InsightSymptoms(cs) <==> exists i :: 0 <= i < |cs| && s in cs[i].symptoms
  {
    if cs != [] {
      var init := cs[..|cs| - 1];
      InsightSymptomsComplete(init, s);
      if exists i :: 0 <= i < |init| && s in init[i].symptoms {
        var i :| 0 <= i < |init| && s in init[i].symptoms;
        assert cs[i] == init[i];
      }
      if exists i :: 0 <= i < |cs| && s in cs[i].symptoms {
        var i :| 0 <= i < |cs| && s in cs[i].symptoms;
        if i < |init| {
          assert init[i] == cs[i];
        }
      }
    }
  }

  class ProgressPage {
    var weeklyCheckins: seq<Checkin>
    var newCheckin: Draft
    var showCheckinForm: bool

    /** Every mood the page holds came from the 1-10 buttons or the reset value 5. */
    ghost predicate Valid()
      reads this
    {
      && MoodInRange(newCheckin.mood)
      && forall i :: 0 <= i < |weeklyCheckins| ==> MoodInRange(weeklyCheckins[i].mood)
    }

    /** An empty page with a blank, hidden form. */
    constructor ()
      ensures Valid()
      ensures weeklyCheckins == [] && newCheckin == BlankDraft && !showCheckinForm
    {
      weeklyCheckins := [];
      newCheckin := BlankDraft;
      showCheckinForm := false;
    }

    method ShowForm()
      modifies this
      ensures showCheckinForm
      ensures weeklyCheckins == old(weeklyCheckins) && newCheckin == old(newCheckin)
    {
      showCheckinForm := true;
    }

    /** A mood button sets the draft's mood and nothing else. */
    method SelectMood(rating: int)
      requires Valid() && MoodInRange(rating)
      modifies this
      ensures Valid()
      ensures newCheckin == old(newCheckin).(mood := rating)
      ensures weeklyCheckins == old(weeklyCheckins) && showCheckinForm == old(showCheckinForm)
    {
      newCheckin := newCheckin.(mood := rating);
    }

    method ToggleSymptom(symptom: string, checked: bool)
      requires Valid()
      modifies this
      ensures Valid()
      ensures newCheckin == old(newCheckin).(symptoms := Toggle(old(newCheckin).symptoms, symptom, checked))
      ensures weeklyCheckins == old(weeklyCheckins) && showCheckinForm == old(showCheckinForm)
    {
      newCheckin := newCheckin.(symptoms := Toggle(newCheckin.symptoms, symptom, checked));
    }

    method ToggleCopingStrategy(strategy: string, checked: bool)
      requires Valid()
      modifies this
      ensures Valid()
      ensures newCheckin == old(newCheckin).(copingStrategies := Toggle(old(newCheckin).copingStrategies, strategy, checked))
      ensures weeklyCheckins == old(weeklyCheckins) && showCheckinForm == old(showCheckinForm)
    {
      newCheckin := newCheckin.(copingStrategies := Toggle(newCheckin.copingStrategies, strategy, checked));
    }

    method SetNotes(notes: string)
      requires Valid()
      modifies this
      ensures Valid()
      ensures newCheckin == old(newCheckin).(notes := notes)
      ensures weeklyCheckins == old(weeklyCheckins) && showCheckinForm == old(showCheckinForm)
    {
      newCheckin := newCheckin.(notes := notes);
    }

    /** Saves the draft as a check-in in front of the older ones, then blanks and hides
        the form. */
    method AddCheckin(id: string, now: int)
      requires Valid()
      modifies this
      ensures Valid()
      ensures var d := old(newCheckin);
        weeklyCheckins == [Checkin(id, now, d.mood, d.symptoms, d.copingStrategies, d.notes)] + old(weeklyCheckins)
      ensures newCheckin == BlankDraft && !showCheckinForm
    {
      var checkin := Checkin(id, now, newCheckin.mood, newCheckin.symptoms, newCheckin.copingStrategies, newCheckin.notes);
      weeklyCheckins := [checkin] + weeklyCheckins;
      newCheckin := BlankDraft;
      showCheckinForm := false;
    }

    /** The streak shown on the page. */
    function StreakDays(): (days: nat)
      reads this
      ensures days <= 7
      ensures days == 0 <==> weeklyCheckins == []
    {
      Streak(|weeklyCheckins|)
    }
  }
}
