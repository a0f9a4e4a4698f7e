/**
  The workout editor: an exercise picker and a list of series, each edited
  through a single repetition field and a single weight field. "Ajouter"
  appends the workout to the session being built. Fresh identifiers (Swift
  `UUID()`) are parameters.
 */
module AddWorkout {
  import opened Seqs
  import opened Models
  import opened Aggregates

  /** The editor's state: the picked exercise and the series typed so far. */
  datatype Editor = Editor(selected: Exercice, series: seq<Serie>)

  const DefaultReps: int := 10
  const DefaultPoids: int := 20

  /** The series the editor starts with and appends: 10 repetitions at 20 kg. */
  function DefaultSerie(id: Id): (r: Serie)
    ensures r.id == id && r.repetitions == [10] && r.poids == [20]
    ensures TotalReps(r) == 10
  {
    Serie(id, [DefaultReps], [DefaultPoids])
  }

  /** The editor as the sheet opens: "Développé Couché" and one series. */
  function InitialEditor(id: Id): (r: Editor)
    ensures r.selected == DeveloppeCouche
    ensures |r.series| == 1 && r.series[0].repetitions == [10] && r.series[0].poids == [20]
  {
    Editor(DeveloppeCouche, [DefaultSerie(id)])
  }

  /** `list.first ?? 0`. */
  function FirstOrZero(xs: seq<int>): (r: int)
    ensures |xs| == 0 ==> r == 0
    ensures |xs| > 0 ==> r == xs[0]
  {
    if |xs| == 0 then 0 else xs[0]
  }

  /** What the repetition field shows for a series. */
  function RepsOf(se: Serie): (r: int)
    ensures |se.repetitions| == 0 ==> r == 0
    ensures |se.repetitions| > 0 ==> r == se.repetitions[0]
  {
    FirstOrZero(se.repetitions)
  }

  /** What the weight field shows for a series. */
  function PoidsOf(se: Serie): (r: int)
    ensures |se.poids| == 0 ==> r == 0
    ensures |se.poids| > 0 ==> r == se.poids[0]
  {
    FirstOrZero(se.poids)
  }

  /** Typing in the repetition field of series `index`. */
  function SetReps(series: seq<Serie>, index: nat, v: int): (r: seq<Serie>)
    requires index < |series|
    ensures |r| == |series|
    ensures r[index].repetitions == [v]
    ensures r[index].id == series[index].id && r[index].poids == series[index].poids
    ensures forall j :: 0 <= j < |series| && j != index ==> r[j] == series[j]
  {
    series[index := series[index].(repetitions := [v])]
  }

  /** Typing in the weight field of series `index`. */
  function SetPoids(series: seq<Serie>, index: nat, v: int): (r: seq<Serie>)
    requires index < |series|
    ensures |r| == |series|
    ensures r[index].poids == [v]
    ensures r[index].id == series[index].id && r[index].repetitions == series[index].repetitions
    ensures forall j :: 0 <= j < |series| && j != index ==> r[j] == series[j]
  {
    series[index := series[index].(poids := [v])]
  }

  /** A field shows what was typed into it, the series then counts exactly
      those repetitions, and typing what it shows changes nothing once the
      list is a single value. */
  lemma SetThenGet(series: seq<Serie>, index: nat, v: int)
    requires index < |series|
    ensures RepsOf(SetReps(series, index, v)[index]) == v
    ensures PoidsOf(SetPoids(series, index, v)[index]) == v
    ensures TotalReps(SetReps(series, index, v)[index]) == v
    ensures |series[index].repetitions| == 1 ==> SetReps(series, index, RepsOf(series[index])) == series
    ensures |series[index].poids| == 1 ==> SetPoids(series, index, PoidsOf(series[index])) == series
  {
    if |series[index].repetitions| == 1 {
      assert series[index].repetitions == [series[index].repetitions[0]];
    }
    if |series[index].poids| == 1 {
      assert series[index].poids == [series[index].poids[0]];
    }
  }

  /** Setting either field keeps every series' list a single value when it
      already was one: the editor's invariant. */
  predicate Singletons(series: seq<Serie>)
  {
    forall j :: 0 <= j < |series| ==> |series[j].repetitions| == 1 && |series[j].poids| == 1
  }

  lemma EditsKeepSingletons(series: seq<Serie>, index: nat, v: int, id: Id)
    requires Singletons(series)
    requires index < |series|
    ensures Singletons(SetReps(series, index, v))
    ensures Singletons(SetPoids(series, index, v))
    ensures Singletons(AppendSerie(series, id))
    ensures Singletons(InitialEditor(id).series)
  {
  }

  /** "Ajouter une série". */
  function AppendSerie(series: seq<Serie>, id: Id): (r: seq<Serie>)
    ensures |r| == |series| + 1
    ensures r[..|series|] == series
    ensures r[|series|] == DefaultSerie(id)
  {
    series + [DefaultSerie(id)]
  }

  /** The indices below `n` that are not in `offsets`, in increasing order. */
  function KeptIndices(n: nat, offsets: set<nat>): (r: seq<nat>)
    ensures forall i :: i in r <==> 0 <= i < n && i !in offsets
    ensures forall j :: 0 <= j < |r| ==> r[j] < n
    ensures forall j, k :: 0 <= j < k < |r| ==> r[j] < r[k]
  {
    if n == 0 then []
    else KeptIndices(n - 1, offsets) + (if n - 1 in offsets then [] else [n - 1])
  }

  /** `remove(atOffsets:)`: drops the series at the swiped offsets, which
      the list only ever passes in range; the others keep their order. */
  function RemoveOffsets(series: seq<Serie>, offsets: set<nat>): (r: seq<Serie>)
    requires forall o :: o in offsets ==> o < |series|
    ensures |r| + |offsets| == |series|
    ensures |r| == |KeptIndices(|series|, offsets)|
    ensures forall j :: 0 <= j < |r| ==> r[j] == series[KeptIndices(|series|, offsets)[j]]
    ensures forall x :: x in r <==> exists i :: 0 <= i < |series| && i !in offsets && series[i] == x
  {
    var kept := KeptIndices(|series|, offsets);
    RemoveOffsetsCount(|series|, offsets);
    var r := seq(|kept|, j requires 0 <= j < |kept| => series[kept[j]]);
    KeptMembers(series, offsets, r);
    r
  }

  /** A sequence picking the series at the kept indices holds exactly the
      series at positions not swiped. */
  lemma KeptMembers(series: seq<Serie>, offsets: set<nat>, r: seq<Serie>)
    requires |r| == |KeptIndices(|series|, offsets)|
    requires forall j :: 0 <= j < |r| ==> r[j] == series[KeptIndices(|series|, offsets)[j]]
    ensures forall x :: x in r <==> exists i :: 0 <= i < |series| && i !in offsets && series[i] == x
  {
    var kept := KeptIndices(|series|, offsets);
    forall x ensures x in r <==> exists i :: 0 <= i < |series| && i !in offsets && series[i] == x {
      if x in r {
        var j :| 0 <= j < |r| && r[j] == x;
        assert kept[j] in kept;
      }
      if exists i :: 0 <= i < |series| && i !in offsets && series[i] == x {
        var i :| 0 <= i < |series| && i !in offsets && series[i] == x;
        assert i in kept;
        var j :| 0 <= j < |kept| && kept[j] == i;
        assert r[j] == x;
      }
    }
  }

  function Below(offsets: set<nat>, n: nat): set<nat>
  {
    set o | o in offsets && o < n
  }

  /** Only the offsets below `n` matter to the indices kept below `n`. */
  lemma {:induction false} KeptIndicesAgree(n: nat, a: set<nat>, b: set<nat>)
    requires forall o :: o < n ==> (o in a <==> o in b)
    ensures KeptIndices(n, a) == KeptIndices(n, b)
  {
    if n > 0 {
      KeptIndicesAgree(n - 1, a, b);
    }
  }

  lemma KeptIndicesBelow(n: nat, offsets: set<nat>)
    ensures KeptIndices(n, Below(offsets, n)) == KeptIndices(n, offsets)
  {
    KeptIndicesAgree(n, Below(offsets, n), offsets);
  }

  /** Deletion removes exactly as many series as offsets it was given. */
  lemma {:induction false} RemoveOffsetsCount(n: nat, offsets: set<nat>)
    requires forall o :: o in offsets ==> o < n
    ensures |KeptIndices(n, offsets)| + |offsets| == n
  {
    if n == 0 {
      assert forall o :: o !in offsets;
      assert offsets == {};
    } else {
      var below := Below(offsets, n - 1);
      RemoveOffsetsCount(n - 1, below);
      KeptIndicesAgree(n - 1, below, offsets);
      assert |KeptIndices(n, offsets)| == |KeptIndices(n - 1, below)| + (if n - 1 in offsets then 0 else 1);
      TopOffset(offsets, n);
    }
  }

  /** Offsets below `n` are those below `n - 1`, plus `n - 1` when swiped. */
  lemma TopOffset(offsets: set<nat>, n: nat)
    requires n > 0
    requires forall o :: o in offsets ==> o < n
    ensures |offsets| == |Below(offsets, n - 1)| + (if n - 1 in offsets then 1 else 0)
  {
    var below := Below(offsets, n - 1);
    if n - 1 in offsets {
      assert offsets == below + {n - 1};
    } else {
      assert offsets == below;
    }
  }

  /** "Ajouter": the workout built from the editor goes to the end of the
      session; nothing else in the session changes. */
  function AddWorkoutTo(s: Seance, e: Editor, id: Id): (r: Seance)
    ensures r.id == s.id && r.date == s.date && r.seanceName == s.seanceName
    ensures |r.workouts| == |s.workouts| + 1
    ensures r.workouts[..|s.workouts|] == s.workouts
    ensures r.workouts[|s.workouts|] == Workout(id, e.selected, e.series)
  {
    s.(workouts := s.workouts + [Workout(id, e.selected, e.series)])
  }

  /** Adding a workout adds its series to the session card's count. */
  lemma AddWorkoutSeries(s: Seance, e: Editor, id: Id)
    ensures SeanceSeries(AddWorkoutTo(s, e, id)) == SeanceSeries(s) + |e.series|
  {
    SeriesOfConcat(s.workouts, [Workout(id, e.selected, e.series)]);
    assert SeriesOf([Workout(id, e.selected, e.series)]) == e.series;
  }

  /** Adding a workout adds its repetitions to the session's repetition
      total. */
  lemma AddWorkoutReps(s: Seance, e: Editor, id: Id)
    ensures SeanceRepTotal(AddWorkoutTo(s, e, id)) == SeanceRepTotal(s) + SumOf(e.series, TotalReps)
  {
    SeriesOfConcat(s.workouts, [Workout(id, e.selected, e.series)]);
    assert SeriesOf([Workout(id, e.selected, e.series)]) == e.series;
    SumOfConcat(SeriesOf(s.workouts), e.series, TotalReps);
  }
}
