/**
  The persisted records of the application: a training session (`Seance`)
  holds workouts, a workout holds the series performed for one exercise,
  and a series holds repetition counts and weights. Identifiers (Swift
  `UUID`s) are naturals, dates are integer timestamps and weights (Swift
  `Double`s) are integers.
 */
module Models {
  import opened Seqs

  type Id = nat

  /** One movement of the fixed catalogue, known by its display string. */
  datatype Exercice = Exercice(rawValue: string)

  /** The exercise an empty workout editor starts with. */
  const DeveloppeCouche: Exercice := Exercice("Développé Couché")

  datatype Serie = Serie(id: Id, repetitions: seq<int>, poids: seq<int>)

  datatype Workout = Workout(id: Id, exercice: Exercice, series: seq<Serie>)

  datatype Seance = Seance(id: Id, date: int, workouts: seq<Workout>, seanceName: string)

  datatype User = User(id: Id, name: string)

  function IntValue(x: int): int { x }

  function DateOf(s: Seance): int { s.date }

  /** `Serie(id:)` with its default arguments: nothing recorded yet. */
  function NewSerie(id: Id): (r: Serie)
    ensures r.id == id
    ensures TotalReps(r) == 0 && MoyennePoids(r) == 0.0
    ensures |r.repetitions| == 0 && |r.poids| == 0
  {
    Serie(id, [], [])
  }

  /** `totalReps`: the sum of the repetition counts. */
  function TotalReps(s: Serie): (r: int)
    ensures |s.repetitions| == 0 ==> r == 0
    ensures |s.repetitions| == 1 ==> r == s.repetitions[0]
  {
    assert |s.repetitions| == 1 ==> SumOf(s.repetitions[1..], IntValue) == 0;
    SumOf(s.repetitions, IntValue)
  }

  /** Recording one more repetition entry adds exactly its value to the
      total, as the `reduce(0, +)` accumulates. */
  lemma TotalRepsAppend(s: Serie, v: int)
    ensures TotalReps(s.(repetitions := s.repetitions + [v])) == TotalReps(s) + v
  {
    SumOfConcat(s.repetitions, [v], IntValue);
    assert SumOf([v], IntValue) == v by {
      assert [v][1..] == [];
    }
  }

  /** `moyennePoids`: the mean weight, 0 when no weight was recorded. The
      mean is exact here; the source computes it in floating point. */
  function MoyennePoids(s: Serie): (r: real)
    ensures |s.poids| == 0 ==> r == 0.0
    ensures |s.poids| > 0 ==> r * (|s.poids| as real) == SumOf(s.poids, IntValue) as real
  {
    if |s.poids| == 0 then 0.0
    else SumOf(s.poids, IntValue) as real / (|s.poids| as real)
  }

  /** The repetitions of a workout, summed series by series. */
  function WorkoutReps(w: Workout): int
  {
    SumOf(w.series, TotalReps)
  }

  /** `totalWorkoutRep()`: the accumulating loop over the series. */
  method TotalWorkoutRep(w: Workout) returns (totalRep: int)
    ensures totalRep == WorkoutReps(w)
    ensures |w.series| == 0 ==> totalRep == 0
  {
    totalRep := 0;
    var i := 0;
    while i < |w.series|
      invariant 0 <= i <= |w.series|
      invariant totalRep == SumOf(w.series[..i], TotalReps)
    {
      SumOfConcat(w.series[..i], [w.series[i]], TotalReps);
      assert w.series[..i + 1] == w.series[..i] + [w.series[i]];
      totalRep := totalRep + TotalReps(w.series[i]);
      i := i + 1;
    }
    assert w.series[..i] == w.series;
  }

  /** Appending a series adds exactly its repetitions to the workout total. */
  lemma WorkoutRepsAppend(w: Workout, s: Serie)
    ensures WorkoutReps(w.(series := w.series + [s])) == WorkoutReps(w) + TotalReps(s)
  {
    SumOfConcat(w.series, [s], TotalReps);
  }

  /** `totalWorkoutSerie()`: the number of series. */
  function TotalWorkoutSerie(w: Workout): (r: nat)
    ensures r == |w.series|
  {
    |w.series|
  }
}
