/**
  The statistics screen: the exercise frequency ranking, distinct and total
  counts, the average number of series per session, the two trend badges,
  the personal record and the weight progression of one exercise.
 */
module Statistiques {
  import opened Options
  import opened Seqs
  import opened Sorting
  import opened Text
  import opened Models
  import opened Aggregates

  /** One row of the ranking: an exercise and its number of workouts. */
  type Stat = (Exercice, nat)

  function CountOf(p: Stat): int { p.1 }

  function KeyIs(e: Exercice): Stat -> bool
  {
    (p: Stat) => p.0 == e
  }

  ghost predicate DistinctKeys(t: seq<Stat>)
  {
    forall i, j :: 0 <= i < j < |t| ==> t[i].0 != t[j].0
  }

  ghost function KeySet(t: seq<Stat>): set<Exercice>
  {
    set i | 0 <= i < |t| :: t[i].0
  }

  /** `t` counts the exercises of `xs`: one row per distinct exercise, each
      row holding the exercise's number of occurrences. */
  ghost predicate Tallies(t: seq<Stat>, xs: seq<Exercice>)
  {
    && DistinctKeys(t)
    && KeySet(t) == (set x | x in xs)
    && (forall i :: 0 <= i < |t| ==> t[i].1 == multiset(xs)[t[i].0])
    && SumOf(t, CountOf) == |xs|
  }

  /** `counts[e, default: 0] += 1`, with rows kept in first-seen order. */
  function Bump(t: seq<Stat>, e: Exercice): (r: seq<Stat>)
    ensures (forall i :: 0 <= i < |t| ==> t[i].0 != e) ==> r == t + [(e, 1)]
    ensures forall i :: 0 <= i < |t| && t[i].0 == e && (forall j :: 0 <= j < i ==> t[j].0 != e)
                     ==> r == t[i := (e, t[i].1 + 1)]
  {
    match FirstIndex(t, KeyIs(e))
    case Some(i) => t[i := (e, t[i].1 + 1)]
    case None => t + [(e, 1)]
  }

  lemma BumpTallies(t: seq<Stat>, xs: seq<Exercice>, e: Exercice)
    requires Tallies(t, xs)
    ensures Tallies(Bump(t, e), xs + [e])
  {
    match FirstIndex(t, KeyIs(e))
    case Some(i) => BumpExistingTallies(t, xs, e, i);
    case None => BumpNewTallies(t, xs, e);
  }

  /** Counting a seen exercise raises its row by one and leaves the rest. */
  lemma BumpExistingTallies(t: seq<Stat>, xs: seq<Exercice>, e: Exercice, i: nat)
    requires Tallies(t, xs)
    requires i < |t| && t[i].0 == e
    ensures Tallies(t[i := (e, t[i].1 + 1)], xs + [e])
  {
    var xs' := xs + [e];
    assert multiset(xs') == multiset(xs) + multiset{e};
    assert (set x | x in xs') == (set x | x in xs) + {e};
    var u := t[i := (e, t[i].1 + 1)];
    assert forall j :: 0 <= j < |u| ==> u[j].0 == t[j].0;
    assert KeySet(u) == KeySet(t);
    assert e in KeySet(t);
    SumOfUpdate(t, i, (e, t[i].1 + 1), CountOf);
  }

  /** Counting an unseen exercise appends a row with count one. */
  lemma BumpNewTallies(t: seq<Stat>, xs: seq<Exercice>, e: Exercice)
    requires Tallies(t, xs)
    requires forall i :: 0 <= i < |t| ==> t[i].0 != e
    ensures Tallies(t + [(e, 1)], xs + [e])
  {
    var xs' := xs + [e];
    assert multiset(xs') == multiset(xs) + multiset{e};
    assert (set x | x in xs') == (set x | x in xs) + {e};
    var u := t + [(e, 1)];
    assert e !in KeySet(t);
    assert multiset(xs)[e] == 0;
    assert forall j :: 0 <= j < |t| ==> u[j] == t[j];
    assert u[|t|] == (e, 1);
    assert KeySet(u) == KeySet(t) + {e};
    SumOfConcat(t, [(e, 1)], CountOf);
    assert SumOf([(e, 1)], CountOf) == 1 by { assert [(e, 1)][1..] == []; }
  }

  /** The counting pass of `exercicesStats`, before sorting. */
  function Tally(xs: seq<Exercice>): (r: seq<Stat>)
    ensures Tallies(r, xs)
  {
    if |xs| == 0 then
      assert (set x | x in xs) == {};
      []
    else
      var n := |xs| - 1;
      assert xs == xs[..n] + [xs[n]];
      BumpTallies(Tally(xs[..n]), xs[..n], xs[n]);
      Bump(Tally(xs[..n]), xs[n])
  }

  lemma {:induction false} DistinctKeysCard(t: seq<Stat>)
    requires DistinctKeys(t)
    ensures |KeySet(t)| == |t|
  {
    if |t| > 0 {
      var n := |t| - 1;
      DistinctKeysCard(t[..n]);
      assert KeySet(t) == KeySet(t[..n]) + {t[n].0};
      assert t[n].0 !in KeySet(t[..n]);
    }
  }

  /** A permutation of a tally is a tally: rows are determined by their
      keys, so no key can appear twice after reordering. */
  lemma TalliesPermutation(t: seq<Stat>, r: seq<Stat>, xs: seq<Exercice>)
    requires Tallies(t, xs)
    requires multiset(r) == multiset(t)
    ensures DistinctKeys(r)
    ensures KeySet(r) == KeySet(t)
    ensures forall i :: 0 <= i < |r| ==> r[i].1 == multiset(xs)[r[i].0]
  {
    assert forall i :: 0 <= i < |r| ==> r[i] in multiset(t);
    assert forall i :: 0 <= i < |t| ==> t[i] in multiset(r);
    forall i | 0 <= i < |r| ensures r[i].1 == multiset(xs)[r[i].0] {
      var j :| 0 <= j < |t| && t[j] == r[i];
    }
    forall e | e in KeySet(r) ensures e in KeySet(t) {
      var i :| 0 <= i < |r| && r[i].0 == e;
      var j :| 0 <= j < |t| && t[j] == r[i];
    }
    forall e | e in KeySet(t) ensures e in KeySet(r) {
      var i :| 0 <= i < |t| && t[i].0 == e;
      var j :| 0 <= j < |r| && r[j] == t[i];
    }
    assert NoDup(t);
    NoDupPermutation(t, r);
  }

  /** `exercicesStats`: each exercise once, with its number of workouts,
      most frequent first. */
  function ExercicesStats(ss: seq<Seance>): (r: seq<Stat>)
    ensures SortedDesc(r, CountOf)
    ensures DistinctKeys(r)
    ensures KeySet(r) == (set e | e in AllExercices(ss))
    ensures forall i :: 0 <= i < |r| ==> r[i].1 == multiset(AllExercices(ss))[r[i].0]
    ensures SumOf(r, CountOf) == WorkoutCount(ss)
    ensures |r| == |set e | e in AllExercices(ss)|
  {
    var xs := AllExercices(ss);
    var t := Tally(xs);
    var r := SortDesc(t, CountOf);
    TalliesPermutation(t, r, xs);
    SumOfSortDesc(t, CountOf, CountOf);
    DistinctKeysCard(r);
    r
  }

  /** `totalExercicesUniques`: the number of distinct exercises performed. */
  function TotalExercicesUniques(ss: seq<Seance>): (r: nat)
    ensures r == |set e | e in AllExercices(ss)|
    ensures r <= WorkoutCount(ss)
  {
    var xs := AllExercices(ss);
    DistinctCardBound(xs);
    |ExercicesStats(ss)|
  }

  lemma {:induction false} DistinctCardBound<T>(xs: seq<T>)
    ensures |set x | x in xs| <= |xs|
  {
    if |xs| > 0 {
      var n := |xs| - 1;
      DistinctCardBound(xs[..n]);
      assert (set x | x in xs) == (set x | x in xs[..n]) + {xs[n]};
    }
  }

  /** `moyenneSeriesParSeance`: series per session, rounded down; 0 when
      there is no session. */
  function MoyenneSeriesParSeance(ss: seq<Seance>): (r: int)
    ensures |ss| == 0 ==> r == 0
    ensures |ss| > 0 ==> r >= 0 && r * |ss| <= TotalSeries(ss) < (r + 1) * |ss|
  {
    if |ss| > 0 then
      DivBounds(TotalSeries(ss), |ss|);
      TotalSeries(ss) / |ss|
    else 0
  }

  /** `StatCard.TrendType`: the badge and its label. */
  datatype Trend = Up(text: string) | Down(text: string) | Neutral(text: string)

  /** Swift's `Int(x)` of a quotient: division truncating toward zero. */
  function TruncDiv(a: int, b: int): (q: int)
    requires b > 0
    ensures a >= 0 ==> q >= 0 && q * b <= a < (q + 1) * b
    ensures a < 0 ==> q <= 0 && (q - 1) * b < a <= q * b
  {
    if a >= 0 then
      DivBounds(a, b);
      a / b
    else
      DivBounds(-a, b);
      var q := -((-a) / b);
      assert q * b == -(((-a) / b) * b);
      assert (q - 1) * b == q * b - b;
      q
  }

  lemma DivBounds(n: nat, b: int)
    requires b > 0
    ensures n / b >= 0 && (n / b) * b <= n < (n / b + 1) * b
  {
    var q, r := n / b, n % b;
    assert n == q * b + r && 0 <= r < b;
    assert (q + 1) * b == q * b + b;
  }

  /** The month-over-month change in whole percent, truncated toward zero. */
  function PercentChange(cur: nat, prev: nat): (p: int)
    requires prev > 0
    ensures p > 0 ==> cur > prev
    ensures p < 0 ==> cur < prev
    ensures cur >= prev ==> p * prev <= (cur - prev) * 100 < (p + 1) * prev
    ensures cur < prev ==> (p - 1) * prev < (cur - prev) * 100 <= p * prev
  {
    TruncDiv((cur - prev) * 100, prev)
  }

  /** The badge for `cur` sessions this month against `prev` last month. */
  function MonthTrend(cur: nat, prev: nat): (r: Option<Trend>)
    ensures r.None? <==> prev == 0
    ensures r.Some? ==> (r.value.Up? <==> cur > prev) && (r.value.Down? <==> cur < prev)
    ensures r.Some? && r.value.Up? ==> r.value.text == "+" + IntToString(PercentChange(cur, prev)) + "%"
    ensures r.Some? && r.value.Down? ==> r.value.text == IntToString(PercentChange(cur, prev)) + "%"
    ensures r.Some? && r.value.Neutral? ==> r.value.text == "0%"
  {
    if prev == 0 then None
    else if cur > prev then Some(Up("+" + IntToString(PercentChange(cur, prev)) + "%"))
    else if cur < prev then Some(Down(IntToString(PercentChange(cur, prev)) + "%"))
    else Some(Neutral("0%"))
  }

  /** Worked cases: 4 then 6 sessions is "+50%"; 200 then 201 is "up" with
      a truncated "+0%"; 4 then 3 is "-25%"; no session last month gives no
      badge. */
  lemma MonthTrendExamples()
    ensures MonthTrend(6, 4) == Some(Up("+50%"))
    ensures MonthTrend(201, 200) == Some(Up("+0%"))
    ensures MonthTrend(3, 4) == Some(Down("-25%"))
    ensures MonthTrend(5, 0) == None
  {
    assert DigitChar(0) == '0' && DigitChar(2) == '2' && DigitChar(5) == '5';
    assert PercentChange(6, 4) == 50;
    assert NatToString(5) == "5";
    assert NatToString(50) == NatToString(5) + [DigitChar(0)] == "50";
    assert IntToString(50) == "50";
    assert "+" + "50" + "%" == "+50%";
    assert PercentChange(201, 200) == 0;
    assert IntToString(0) == "0";
    assert "+" + "0" + "%" == "+0%";
    assert PercentChange(3, 4) == -25;
    assert NatToString(2) == "2";
    assert NatToString(25) == NatToString(2) + [DigitChar(5)] == "25";
    assert IntToString(-25) == "-" + NatToString(25) == "-25";
    assert "-25" + "%" == "-25%";
  }

  /** `seancesTrend`: sessions since the start of this month (`monthStart`)
      against sessions in `[lastMonthStart, monthStart)`. */
  function SeancesTrend(ss: seq<Seance>, monthStart: int, lastMonthStart: int): (r: Option<Trend>)
    ensures r.None? <==> forall i :: 0 <= i < |ss| ==> !(lastMonthStart <= ss[i].date < monthStart)
    ensures r == MonthTrend(|set i | 0 <= i < |ss| && monthStart <= ss[i].date|,
                            |set i | 0 <= i < |ss| && lastMonthStart <= ss[i].date < monthStart|)
  {
    var cur := Filter(ss, Since(monthStart));
    var prev := Filter(ss, From(lastMonthStart, monthStart));
    SinceCount(ss, monthStart);
    FromCount(ss, lastMonthStart, monthStart);
    FilterEmpty(ss, From(lastMonthStart, monthStart));
    MonthTrend(|cur|, |prev|)
  }

  /** `seriesTrend`: the newest session's series against the average, once
      there are at least two sessions. */
  function SeriesTrend(ss: seq<Seance>): (r: Option<Trend>)
    ensures r.None? <==> |ss| <= 1
    ensures r.Some? ==> (r.value.Up? <==> SeanceSeries(Newest(ss).value) > MoyenneSeriesParSeance(ss))
    ensures r.Some? ==> (r.value.Down? <==> SeanceSeries(Newest(ss).value) < MoyenneSeriesParSeance(ss))
    ensures r.Some? && r.value.Neutral? ==> r.value.text == "Moy."
    ensures r.Some? ==> r.value == SeriesBadge(SeanceSeries(Newest(ss).value), MoyenneSeriesParSeance(ss))
  {
    if |ss| <= 1 then None
    else Some(SeriesBadge(SeanceSeries(Newest(ss).value), MoyenneSeriesParSeance(ss)))
  }

  /** The series badge for `n` series against an average of `avg`: the
      signed difference, or "Moy." when they are equal. */
  function SeriesBadge(n: int, avg: int): (t: Trend)
    ensures t.Up? <==> n > avg
    ensures t.Down? <==> n < avg
    ensures t.Neutral? ==> t.text == "Moy."
  {
    if n > avg then Up("+" + IntToString(n - avg))
    else if n < avg then Down(IntToString(n - avg))
    else Neutral("Moy.")
  }

  /** `s` is a decimal rendering of `v`, with a leading '-' when negative. */
  ghost predicate ReadsAs(s: string, v: int)
  {
    && |s| > 0
    && (s[0] == '-' ==> IsDigits(s[1..]))
    && (s[0] != '-' ==> IsDigits(s))
    && ParseInt(s) == v
  }

  /** The series badge's label reads back as the signed difference. */
  lemma SeriesBadgeReadsBack(n: int, avg: int)
    ensures var t := SeriesBadge(n, avg);
      && (t.Up? ==> |t.text| > 1 && t.text[0] == '+' && t.text[1] != '-' && ReadsAs(t.text[1..], n - avg))
      && (t.Down? ==> t.text[0] == '-' && ReadsAs(t.text, n - avg))
  {
    IntToStringRoundTrip(n - avg);
    if n > avg {
      assert SeriesBadge(n, avg).text[1..] == IntToString(n - avg);
    }
  }

  /** `xs.max()`. */
  function MaxOf(xs: seq<int>): (r: Option<int>)
    ensures r.None? <==> |xs| == 0
    ensures r.Some? ==> r.value in xs
    ensures r.Some? ==> forall i :: 0 <= i < |xs| ==> xs[i] <= r.value
  {
    if |xs| == 0 then None
    else
      match MaxOf(xs[1..])
      case None => Some(xs[0])
      case Some(m) => Some(if xs[0] >= m then xs[0] else m)
  }

  /** Every weight of the given series, series by series. */
  function Weights(series: seq<Serie>): seq<int>
  {
    if |series| == 0 then [] else series[0].poids + Weights(series[1..])
  }

  /** `series.compactMap { $0.poids.max() }`. */
  function SerieMaxima(series: seq<Serie>): (r: seq<int>)
    ensures |r| <= |series|
    ensures forall i :: 0 <= i < |series| && |series[i].poids| > 0 ==> MaxOf(series[i].poids).value in r
    ensures forall k :: 0 <= k < |r| ==> exists i :: 0 <= i < |series| && MaxOf(series[i].poids) == Some(r[k])
  {
    if |series| == 0 then []
    else
      (match MaxOf(series[0].poids) case None => [] case Some(m) => [m]) + SerieMaxima(series[1..])
  }

  function Larger(a: Option<int>, b: Option<int>): Option<int>
  {
    match (a, b)
    case (None, _) => b
    case (_, None) => a
    case (Some(x), Some(y)) => Some(if x >= y then x else y)
  }

  lemma {:induction false} MaxOfConcat(a: seq<int>, b: seq<int>)
    ensures MaxOf(a + b) == Larger(MaxOf(a), MaxOf(b))
  {
    if |a| == 0 {
      assert a + b == b;
    } else {
      assert (a + b)[1..] == a[1..] + b;
      MaxOfConcat(a[1..], b);
    }
  }

  lemma {:induction false} SerieMaximaMax(series: seq<Serie>)
    ensures MaxOf(SerieMaxima(series)) == MaxOf(Weights(series))
  {
    if |series| > 0 {
      var head := match MaxOf(series[0].poids) case None => [] case Some(m) => [m];
      SerieMaximaMax(series[1..]);
      MaxOfConcat(head, SerieMaxima(series[1..]));
      MaxOfConcat(series[0].poids, Weights(series[1..]));
      assert MaxOf(head) == MaxOf(series[0].poids);
    }
  }

  /** The heaviest weight of a workout: the largest of its series' maxima,
      which is the largest weight recorded in any of its series. */
  function WorkoutMax(w: Workout): (r: Option<int>)
    ensures r == MaxOf(Weights(w.series))
  {
    SerieMaximaMax(w.series);
    MaxOf(SerieMaxima(w.series))
  }

  /** No weight of `w` exceeds `p`. */
  ghost predicate AtMost(w: Workout, p: int)
  {
    forall k :: 0 <= k < |Weights(w.series)| ==> Weights(w.series)[k] <= p
  }

  lemma AtMostMax(w: Workout, p: int)
    ensures AtMost(w, p) <==> (WorkoutMax(w).None? || WorkoutMax(w).value <= p)
  {
  }

  /** Does the workout beat (or equal) weight `p`? */
  predicate Reaches(w: Workout, p: int)
  {
    WorkoutMax(w).Some? && WorkoutMax(w).value >= p
  }

  datatype Record = Record(exercice: string, poids: int)

  /** `ws[i]` is the first workout whose heaviest weight reaches the
      record's, and it holds exactly that weight and the record's exercise. */
  ghost predicate FirstToReach(ws: seq<Workout>, i: int, rec: Record)
  {
    && 0 <= i < |ws|
    && WorkoutMax(ws[i]) == Some(rec.poids)
    && ws[i].exercice.rawValue == rec.exercice
    && forall j :: 0 <= j < i ==> !Reaches(ws[j], rec.poids)
  }

  /** No workout of `ws` holds a positive weight. */
  ghost predicate NoPositiveWeight(ws: seq<Workout>)
  {
    forall i :: 0 <= i < |ws| ==> AtMost(ws[i], 0)
  }

  /** `m` is absent or at most `p`. */
  predicate CappedBy(m: Option<int>, p: int)
  {
    m.None? || m.value <= p
  }

  /** The strict-improvement scan of `recordPoids` over the workouts'
      heaviest weights: the running maximum starts at 0 and moves only on a
      strictly larger value, so the first position to reach the maximum
      wins. */
  method FirstMaximum(ms: seq<Option<int>>) returns (best: int, top: int)
    ensures top >= 0
    ensures forall j :: 0 <= j < |ms| ==> CappedBy(ms[j], top)
    ensures top > 0 ==> 0 <= best < |ms| && ms[best] == Some(top)
    ensures top > 0 ==> forall j :: 0 <= j < best ==> CappedBy(ms[j], top - 1)
  {
    top, best := 0, -1;
    var i := 0;
    while i < |ms|
      invariant 0 <= i <= |ms|
      invariant top >= 0
      invariant forall j :: 0 <= j < i ==> CappedBy(ms[j], top)
      invariant top > 0 ==> 0 <= best < i && ms[best] == Some(top)
      invariant top > 0 ==> forall j :: 0 <= j < best ==> CappedBy(ms[j], top - 1)
    {
      if ms[i].Some? && ms[i].value > top {
        top, best := ms[i].value, i;
      }
      i := i + 1;
    }
  }

  /** `recordPoids`: the heaviest weight over all workouts, with the exercise
      of the first workout to reach it; none unless some weight is positive. */
  method RecordPoids(ss: seq<Seance>) returns (r: Option<Record>)
    ensures r.None? <==> NoPositiveWeight(AllWorkouts(ss))
    ensures r.Some? ==> r.value.poids > 0
    ensures r.Some? ==> forall i :: 0 <= i < |AllWorkouts(ss)| ==> AtMost(AllWorkouts(ss)[i], r.value.poids)
    ensures r.Some? ==> exists i :: FirstToReach(AllWorkouts(ss), i, r.value)
  {
    var ws := AllWorkouts(ss);
    var maxima := MapSeq(ws, WorkoutMax);
    var best, maxPoids := FirstMaximum(maxima);
    RecordFacts(ws, maxima, best, maxPoids);
    if maxPoids > 0 {
      r := Some(Record(ws[best].exercice.rawValue, maxPoids));
      assert FirstToReach(ws, best, r.value);
    } else {
      r := None;
    }
  }

  /** What the scan's result says about the workouts themselves. */
  lemma RecordFacts(ws: seq<Workout>, maxima: seq<Option<int>>, best: int, p: int)
    requires maxima == MapSeq(ws, WorkoutMax)
    requires p >= 0
    requires forall j :: 0 <= j < |maxima| ==> CappedBy(maxima[j], p)
    requires p > 0 ==> 0 <= best < |maxima| && maxima[best] == Some(p)
    requires p > 0 ==> forall j :: 0 <= j < best ==> CappedBy(maxima[j], p - 1)
    ensures forall j :: 0 <= j < |ws| ==> AtMost(ws[j], p)
    ensures p > 0 <==> !NoPositiveWeight(ws)
    ensures p > 0 ==> forall j :: 0 <= j < best ==> !Reaches(ws[j], p)
  {
    forall j | 0 <= j < |ws| ensures AtMost(ws[j], p) && (AtMost(ws[j], 0) <==> CappedBy(maxima[j], 0)) {
      AtMostMax(ws[j], p);
      AtMostMax(ws[j], 0);
    }
    if p > 0 {
      assert !AtMost(ws[best], 0);
    }
  }

  /** A point of the progression chart. */
  datatype Point = Point(date: int, poids: int)

  function PointDate(p: Point): int { p.date }

  function IsExercice(e: Exercice): Workout -> bool
  {
    (w: Workout) => w.exercice == e
  }

  /** The heaviest weight of the session's first workout of `e`, or 0. */
  function SessionBest(s: Seance, e: Exercice): (r: int)
    ensures (forall i :: 0 <= i < |s.workouts| ==> s.workouts[i].exercice != e) ==> r == 0
    ensures forall i :: 0 <= i < |s.workouts| && s.workouts[i].exercice == e
                          && (forall j :: 0 <= j < i ==> s.workouts[j].exercice != e)
                     ==> r == WorkoutMax(s.workouts[i]).GetOr(0)
  {
    var ws := s.workouts;
    assert forall i :: 0 <= i < |ws| ==> (IsExercice(e)(ws[i]) <==> ws[i].exercice == e);
    assert forall i :: 0 <= i < |ws| && ws[i].exercice == e && (forall j :: 0 <= j < i ==> ws[j].exercice != e)
                  ==> FirstIndex(ws, IsExercice(e)) == Some(i) by {
      forall i | 0 <= i < |ws| && ws[i].exercice == e && (forall j :: 0 <= j < i ==> ws[j].exercice != e) {
        FirstIndexIs(ws, IsExercice(e), i);
      }
    }
    match FirstIndex(s.workouts, IsExercice(e))
    case None => 0
    case Some(i) => WorkoutMax(s.workouts[i]).GetOr(0)
  }

  function Charted(e: Exercice): Seance -> bool
  {
    (s: Seance) => SessionBest(s, e) > 0
  }

  function PointOf(e: Exercice): Seance -> Point
  {
    (s: Seance) => Point(s.date, SessionBest(s, e))
  }

  /** `progressionExercice`: one point per session whose first workout of
      `e` has a positive weight, oldest first. */
  function ProgressionExercice(ss: seq<Seance>, e: Exercice): (r: seq<Point>)
    ensures forall i, j :: 0 <= i < j < |r| ==> r[i].date <= r[j].date
    ensures forall i :: 0 <= i < |r| ==> r[i].poids > 0
    ensures |r| == |set i | 0 <= i < |ss| && SessionBest(ss[i], e) > 0|
    ensures multiset(r) == multiset(MapSeq(Filter(ss, Charted(e)), PointOf(e)))
  {
    var sorted := SortAsc(ss, DateOf);
    var kept := Filter(sorted, Charted(e));
    FilterPermutation(sorted, ss, Charted(e));
    MapPermutation(kept, Filter(ss, Charted(e)), PointOf(e));
    ChartedCount(ss, e);
    SortedPoints(sorted, e);
    MapSeq(kept, PointOf(e))
  }

  lemma ChartedCount(ss: seq<Seance>, e: Exercice)
    ensures |Filter(ss, Charted(e))| == |set i | 0 <= i < |ss| && SessionBest(ss[i], e) > 0|
  {
    FilterCountsIndices(ss, Charted(e));
    assert IndexSet(ss, Charted(e)) == set i | 0 <= i < |ss| && SessionBest(ss[i], e) > 0;
  }

  lemma SortedPoints(sorted: seq<Seance>, e: Exercice)
    requires SortedAsc(sorted, DateOf)
    ensures var r := MapSeq(Filter(sorted, Charted(e)), PointOf(e));
      forall i, j :: 0 <= i < j < |r| ==> r[i].date <= r[j].date
  {
    var kept := Filter(sorted, Charted(e));
    FilterKeepsSortedAsc(sorted, DateOf, Charted(e));
    var r := MapSeq(kept, PointOf(e));
    forall i, j | 0 <= i < j < |r| ensures r[i].date <= r[j].date {
      assert DateOf(kept[i]) <= DateOf(kept[j]);
    }
  }
}
