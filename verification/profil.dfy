/**
  The profile screen: distinct exercises, total series, the date of the
  first session, the name editor, the training streak and the reset of all
  sessions. The calendar's start-of-day is the parameter `dayOf`, mapping a
  timestamp to a day number.
 */
module Profil {
  import opened Options
  import opened Seqs
  import opened Sorting
  import opened Text
  import opened Models
  import opened Aggregates
  import opened Statistiques
  import opened DataManager

  /** The exercises of some workouts, as the set the nested `forEach` fills. */
  function WorkoutExercices(ws: seq<Workout>): set<Exercice>
  {
    if |ws| == 0 then {} else {ws[0].exercice} + WorkoutExercices(ws[1..])
  }

  function ExerciceSet(ss: seq<Seance>): set<Exercice>
  {
    if |ss| == 0 then {} else WorkoutExercices(ss[0].workouts) + ExerciceSet(ss[1..])
  }

  lemma {:induction false} WorkoutExercicesMembers(ws: seq<Workout>)
    ensures WorkoutExercices(ws) == set e | e in MapSeq(ws, ExerciceOf)
  {
    if |ws| > 0 {
      WorkoutExercicesMembers(ws[1..]);
      assert ws == [ws[0]] + ws[1..];
      MapConcat([ws[0]], ws[1..], ExerciceOf);
      assert MapSeq(ws, ExerciceOf) == [ws[0].exercice] + MapSeq(ws[1..], ExerciceOf);
    }
  }

  lemma {:induction false} ExerciceSetMembers(ss: seq<Seance>)
    ensures ExerciceSet(ss) == set e | e in AllExercices(ss)
  {
    if |ss| > 0 {
      var ws := ss[0].workouts;
      ExerciceSetMembers(ss[1..]);
      WorkoutExercicesMembers(ws);
      assert AllWorkouts(ss) == ws + AllWorkouts(ss[1..]);
      MapConcat(ws, AllWorkouts(ss[1..]), ExerciceOf);
      assert AllExercices(ss) == MapSeq(ws, ExerciceOf) + AllExercices(ss[1..]);
    }
  }

  /** `totalExercices`: the size of the set of exercises performed. */
  function TotalExercices(ss: seq<Seance>): (r: nat)
    ensures r == |set e | e in AllExercices(ss)|
  {
    ExerciceSetMembers(ss);
    |ExerciceSet(ss)|
  }

  /** The set-based count of this screen and the ranking-based count of the
      statistics screen agree. */
  lemma TotalExercicesAgree(ss: seq<Seance>)
    ensures TotalExercices(ss) == TotalExercicesUniques(ss)
    ensures TotalExercices(ss) == |ExercicesStats(ss)|
  {
  }

  /** What `memberSince` displays: the date of the oldest session, which the
      screen formats as month and year, or "Nouveau membre". */
  datatype Membership = NewMember | MemberSince(date: int)

  function MemberSinceOf(ss: seq<Seance>): (r: Membership)
    ensures r.NewMember? <==> |ss| == 0
    ensures r.MemberSince? ==> exists i :: 0 <= i < |ss| && ss[i].date == r.date
    ensures r.MemberSince? ==> forall i :: 0 <= i < |ss| ==> r.date <= ss[i].date
  {
    if |ss| == 0 then NewMember
    else
      var sorted := SortAsc(ss, DateOf);
      assert sorted[0] in multiset(ss);
      forall i | 0 <= i < |ss| ensures sorted[0].date <= ss[i].date {
        assert ss[i] in multiset(sorted);
        var j :| 0 <= j < |sorted| && sorted[j] == ss[i];
        assert Negate(DateOf)(sorted[0]) >= Negate(DateOf)(sorted[j]);
      }
      MemberSince(sorted[0].date)
  }

  /** The "Enregistrer" button: the name is stored as typed, and only when
      it holds something besides spaces and tabs. */
  function SaveName(u: User, tempName: string): (r: User)
    ensures r.id == u.id
    ensures Trim(tempName) != [] ==> r.name == tempName
    ensures Trim(tempName) == [] ==> r == u
  {
    if !AllWhitespace(tempName) then u.(name := tempName) else u
  }

  /** A saved name never trims to nothing, and saving twice changes nothing
      more. */
  lemma SaveNameStable(u: User, tempName: string)
    requires Trim(u.name) != []
    ensures Trim(SaveName(u, tempName).name) != []
    ensures SaveName(SaveName(u, tempName), tempName) == SaveName(u, tempName)
  {
  }

  /** Some session falls on day `d`. */
  ghost predicate TrainedOn(ss: seq<Seance>, dayOf: int -> int, d: int)
  {
    exists i :: 0 <= i < |ss| && dayOf(ss[i].date) == d
  }

  /** The start-of-day of each session, in list order. */
  function DaysOf(ss: seq<Seance>, dayOf: int -> int): (r: seq<int>)
    ensures |r| == |ss|
    ensures forall i :: 0 <= i < |ss| ==> r[i] == dayOf(ss[i].date)
  {
    seq(|ss|, i requires 0 <= i < |ss| => dayOf(ss[i].date))
  }

  /** The start-of-day of every session, newest first: one day per session,
      repeated days included. */
  function SortedDays(ss: seq<Seance>, dayOf: int -> int): (r: seq<int>)
    ensures SortedDesc(r, IntValue)
    ensures multiset(r) == multiset(DaysOf(ss, dayOf))
    ensures forall d :: d in r <==> TrainedOn(ss, dayOf, d)
  {
    var days := DaysOf(ss, dayOf);
    var r := SortDesc(days, IntValue);
    forall d ensures d in r <==> TrainedOn(ss, dayOf, d) {
      assert d in multiset(r) <==> d in multiset(days);
      if TrainedOn(ss, dayOf, d) {
        var i :| 0 <= i < |ss| && dayOf(ss[i].date) == d;
        assert days[i] == d;
      }
    }
    r
  }

  /** `calculateStreak()` on day numbers: the days of the sessions, newest
      first, are walked while they do not fall before the day looked for;
      the streak is the number of consecutive days, ending today, with a
      session. */
  method CalculateStreak(ss: seq<Seance>, dayOf: int -> int, today: int) returns (r: Option<nat>)
    ensures r.None? <==> !TrainedOn(ss, dayOf, today)
    ensures r.Some? ==> r.value >= 1
    ensures r.Some? ==> forall d :: today - r.value < d <= today ==> TrainedOn(ss, dayOf, d)
    ensures r.Some? ==> !TrainedOn(ss, dayOf, today - r.value)
  {
    if |ss| == 0 {
      return None;
    }
    var sorted := SortedDays(ss, dayOf);
    var streak: nat := 0;
    var current := today;
    var i := 0;
    while i < |sorted| && sorted[i] >= current
      invariant 0 <= i <= |sorted|
      invariant current == today - streak
      invariant forall d :: current < d <= today ==> d in sorted
      invariant forall j :: 0 <= j < i ==> sorted[j] > current
    {
      if sorted[i] == current {
        streak := streak + 1;
        current := current - 1;
      }
      i := i + 1;
    }
    StopsAtGap(sorted, i, current);
    r := if streak > 0 then Some(streak) else None;
  }

  /** Where the walk stops, the day looked for is missing from the list:
      the days before the stop are later, the days after it earlier. */
  lemma StopsAtGap(sorted: seq<int>, i: nat, current: int)
    requires SortedDesc(sorted, IntValue)
    requires i <= |sorted|
    requires i == |sorted| || sorted[i] < current
    requires forall j :: 0 <= j < i ==> sorted[j] > current
    ensures current !in sorted
  {
    forall j | i <= j < |sorted| ensures sorted[j] < current {
      assert IntValue(sorted[i]) >= IntValue(sorted[j]);
    }
  }

  /** `resetAllData()`: every session goes, the user stays. */
  function ResetAllData(st: State): (r: State)
    ensures r.user == st.user
    ensures |r.seances| == 0
  {
    st.(seances := [])
  }

  /** After a reset the profile and statistics show their empty states. */
  lemma ResetClearsProfile(st: State)
    ensures var ss := ResetAllData(st).seances;
      && TotalExercices(ss) == 0
      && TotalSeries(ss) == 0
      && MemberSinceOf(ss) == NewMember
      && ExercicesStats(ss) == []
  {
  }
}
