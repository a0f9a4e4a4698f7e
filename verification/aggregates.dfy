/**
  Aggregations shared by several screens: nested counts of workouts,
  series and repetition entries, the flattened traversal order
  (session by session, workout by workout) that the statistics follow,
  the date windows the screens filter on, and the newest session.
 */
module Aggregates {
  import opened Options
  import opened Seqs
  import opened Sorting
  import opened Models

  function SeriesCount(w: Workout): int { |w.series| }

  function WorkoutsIn(s: Seance): int { |s.workouts| }

  function RepCount(se: Serie): int { |se.repetitions| }

  function ExerciceOf(w: Workout): Exercice { w.exercice }

  /** Every series of `ws`, workout by workout. */
  function SeriesOf(ws: seq<Workout>): seq<Serie>
  {
    if |ws| == 0 then [] else ws[0].series + SeriesOf(ws[1..])
  }

  /** Every workout of `ss`, session by session: the order in which the
      statistics screens visit workouts. */
  function AllWorkouts(ss: seq<Seance>): seq<Workout>
  {
    if |ss| == 0 then [] else ss[0].workouts + AllWorkouts(ss[1..])
  }

  function AllSeries(ss: seq<Seance>): seq<Serie>
  {
    SeriesOf(AllWorkouts(ss))
  }

  function AllExercices(ss: seq<Seance>): seq<Exercice>
  {
    MapSeq(AllWorkouts(ss), ExerciceOf)
  }

  lemma {:induction false} SeriesOfLength(ws: seq<Workout>)
    ensures |SeriesOf(ws)| == SumOf(ws, SeriesCount)
  {
    if |ws| > 0 {
      SeriesOfLength(ws[1..]);
    }
  }

  lemma {:induction false} SeriesOfConcat(a: seq<Workout>, b: seq<Workout>)
    ensures SeriesOf(a + b) == SeriesOf(a) + SeriesOf(b)
  {
    if |a| == 0 {
      assert a + b == b;
    } else {
      assert (a + b)[1..] == a[1..] + b;
      SeriesOfConcat(a[1..], b);
    }
  }

  lemma {:induction false} AllWorkoutsConcat(a: seq<Seance>, b: seq<Seance>)
    ensures AllWorkouts(a + b) == AllWorkouts(a) + AllWorkouts(b)
  {
    if |a| == 0 {
      assert a + b == b;
    } else {
      assert (a + b)[1..] == a[1..] + b;
      AllWorkoutsConcat(a[1..], b);
    }
  }

  /** The card's `totalSeries`: series summed over the session's workouts. */
  function SeanceSeries(s: Seance): (r: int)
    ensures r == |SeriesOf(s.workouts)|
  {
    SeriesOfLength(s.workouts);
    SumOf(s.workouts, SeriesCount)
  }

  /** The card's `totalReps`: the number of repetition ENTRIES, not their
      values, summed over every series of every workout. */
  function SeanceReps(s: Seance): (r: int)
    ensures r == SumOf(SeriesOf(s.workouts), RepCount)
    ensures r >= 0
  {
    RepEntriesFlatten(s.workouts);
    SumOfNonNegative(SeriesOf(s.workouts), RepCount);
    SumOf(s.workouts, RepEntries)
  }

  function RepEntries(w: Workout): int
  {
    SumOf(w.series, RepCount)
  }

  lemma {:induction false} RepEntriesFlatten(ws: seq<Workout>)
    ensures SumOf(ws, RepEntries) == SumOf(SeriesOf(ws), RepCount)
  {
    if |ws| > 0 {
      RepEntriesFlatten(ws[1..]);
      SumOfConcat(ws[0].series, SeriesOf(ws[1..]), RepCount);
    }
  }

  /** When every series holds exactly one repetition entry, as the workout
      editor produces, the card's repetition count equals its series count. */
  lemma SingleEntrySeries(s: Seance)
    requires forall i :: 0 <= i < |SeriesOf(s.workouts)| ==> |SeriesOf(s.workouts)[i].repetitions| == 1
    ensures SeanceReps(s) == SeanceSeries(s)
  {
    var all := SeriesOf(s.workouts);
    SumOfCountsOnes(all);
  }

  lemma {:induction false} SumOfCountsOnes(all: seq<Serie>)
    requires forall i :: 0 <= i < |all| ==> |all[i].repetitions| == 1
    ensures SumOf(all, RepCount) == |all|
  {
    if |all| > 0 {
      SumOfCountsOnes(all[1..]);
    }
  }

  /** The repetitions performed in a session: `totalReps` summed over every
      series of every workout. This is what the "Reps" figure of the session
      card and of the session editor evidently means to show. */
  function SeanceRepTotal(s: Seance): (r: int)
    ensures r == SumOf(SeriesOf(s.workouts), TotalReps)
  {
    WorkoutRepsFlatten(s.workouts);
    SumOf(s.workouts, WorkoutReps)
  }

  lemma {:induction false} WorkoutRepsFlatten(ws: seq<Workout>)
    ensures SumOf(ws, WorkoutReps) == SumOf(SeriesOf(ws), TotalReps)
  {
    if |ws| > 0 {
      WorkoutRepsFlatten(ws[1..]);
      SumOfConcat(ws[0].series, SeriesOf(ws[1..]), TotalReps);
    }
  }

  /** The "Reps" figure as written counts repetition entries: a session of
      one series of ten repetitions shows 1 where 10 were performed. */
  lemma RepsFigureCountsEntries()
    ensures var s := Seance(0, 0, [Workout(0, DeveloppeCouche, [Serie(0, [10], [20])])], []);
      SeanceReps(s) == 1 && SeanceRepTotal(s) == 10
  {
    var se := Serie(0, [10], [20]);
    var w := Workout(0, DeveloppeCouche, [se]);
    assert SeriesOf([w]) == [se] by {
      assert SeriesOf([w][1..]) == [];
    }
    assert TotalReps(se) == 10;
  }

  /** `totalSeries` of the statistics and profile screens: the number of
      series over all sessions; 0 without sessions. */
  function TotalSeries(ss: seq<Seance>): (r: int)
    ensures r == |AllSeries(ss)|
    ensures |ss| == 0 ==> r == 0
  {
    TotalSeriesFlatten(ss);
    SumOf(ss, SeanceSeries)
  }

  lemma {:induction false} TotalSeriesFlatten(ss: seq<Seance>)
    ensures SumOf(ss, SeanceSeries) == |AllSeries(ss)|
  {
    if |ss| > 0 {
      TotalSeriesFlatten(ss[1..]);
      SeriesOfConcat(ss[0].workouts, AllWorkouts(ss[1..]));
    }
  }

  /** The number of workouts over all sessions. */
  function WorkoutCount(ss: seq<Seance>): (r: int)
    ensures r == |AllWorkouts(ss)|
  {
    WorkoutCountFlatten(ss);
    SumOf(ss, WorkoutsIn)
  }

  lemma {:induction false} WorkoutCountFlatten(ss: seq<Seance>)
    ensures SumOf(ss, WorkoutsIn) == |AllWorkouts(ss)|
  {
    if |ss| > 0 {
      WorkoutCountFlatten(ss[1..]);
    }
  }

  /** Sessions with `lo <= date <= hi`. */
  function Between(lo: int, hi: int): Seance -> bool
  {
    (s: Seance) => lo <= s.date <= hi
  }

  /** Sessions with `lo <= date`. */
  function Since(lo: int): Seance -> bool
  {
    (s: Seance) => lo <= s.date
  }

  /** Sessions with `date < hi`. */
  function Before(hi: int): Seance -> bool
  {
    (s: Seance) => s.date < hi
  }

  /** Sessions with `lo <= date < hi`. */
  function From(lo: int, hi: int): Seance -> bool
  {
    (s: Seance) => lo <= s.date < hi
  }

  /** HomeView's `lastSeance`: the first session once sorted newest first. */
  function Newest(ss: seq<Seance>): (r: Option<Seance>)
    ensures r.None? <==> |ss| == 0
    ensures r.Some? ==> r.value in ss
    ensures r.Some? ==> forall i :: 0 <= i < |ss| ==> ss[i].date <= r.value.date
  {
    if |ss| == 0 then None
    else
      var sorted := SortDesc(ss, DateOf);
      assert sorted[0] in multiset(ss);
      assert forall i :: 0 <= i < |ss| ==> ss[i].date <= sorted[0].date by {
        forall i | 0 <= i < |ss| ensures ss[i].date <= sorted[0].date {
          assert ss[i] in multiset(sorted);
          var j :| 0 <= j < |sorted| && sorted[j] == ss[i];
          assert DateOf(sorted[0]) >= DateOf(sorted[j]);
        }
      }
      Some(sorted[0])
  }

  lemma SinceCount(ss: seq<Seance>, lo: int)
    ensures |Filter(ss, Since(lo))| == |set i | 0 <= i < |ss| && lo <= ss[i].date|
  {
    FilterCountsIndices(ss, Since(lo));
    assert IndexSet(ss, Since(lo)) == set i | 0 <= i < |ss| && lo <= ss[i].date;
  }

  lemma FromCount(ss: seq<Seance>, lo: int, hi: int)
    ensures |Filter(ss, From(lo, hi))| == |set i | 0 <= i < |ss| && lo <= ss[i].date < hi|
  {
    FilterCountsIndices(ss, From(lo, hi));
    assert IndexSet(ss, From(lo, hi)) == set i | 0 <= i < |ss| && lo <= ss[i].date < hi;
  }

  lemma BetweenCount(ss: seq<Seance>, lo: int, hi: int)
    ensures |Filter(ss, Between(lo, hi))| == |set i | 0 <= i < |ss| && lo <= ss[i].date <= hi|
  {
    FilterCountsIndices(ss, Between(lo, hi));
    assert IndexSet(ss, Between(lo, hi)) == set i | 0 <= i < |ss| && lo <= ss[i].date <= hi;
  }
}
