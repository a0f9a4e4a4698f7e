/**
  The home screen: session counts for the current week and month, the top
  three exercises, the workouts of the week, the greeting and the relative
  date label. `now` and the period starts come from the calendar and are
  parameters here.
 */
module Home {
  import opened Seqs
  import opened Sorting
  import opened Text
  import opened Models
  import opened Aggregates
  import opened Statistiques

  /** `seancesThisWeek` (with the week's start) and `seancesThisMonth` (with
      the month's start): sessions dated from `start` up to `now`. */
  function SeancesInPeriod(ss: seq<Seance>, start: int, now: int): (r: nat)
    ensures r == |set i | 0 <= i < |ss| && start <= ss[i].date <= now|
    ensures r <= |ss|
  {
    BetweenCount(ss, start, now);
    |Filter(ss, Between(start, now))|
  }

  /** An earlier period start never counts fewer sessions. */
  lemma SeancesInPeriodMonotone(ss: seq<Seance>, start: int, start': int, now: int)
    requires start <= start'
    ensures SeancesInPeriod(ss, start', now) <= SeancesInPeriod(ss, start, now)
  {
    var narrow := set i | 0 <= i < |ss| && start' <= ss[i].date <= now;
    var wide := set i | 0 <= i < |ss| && start <= ss[i].date <= now;
    assert narrow <= wide;
    SubsetCard(narrow, wide);
  }

  lemma SubsetCard<T>(a: set<T>, b: set<T>)
    requires a <= b
    ensures |a| <= |b|
  {
    assert b == a + (b - a);
  }

  function Min(a: int, b: int): int { if a <= b then a else b }

  /** `topExercices`: the three most frequent exercises of the ranking. */
  function TopExercices(ss: seq<Seance>): (r: seq<Stat>)
    ensures |r| == Min(3, TotalExercicesUniques(ss))
    ensures SortedDesc(r, CountOf)
    ensures DistinctKeys(r)
    ensures forall i :: 0 <= i < |r| ==> r[i].1 == multiset(AllExercices(ss))[r[i].0]
    ensures forall i, e :: 0 <= i < |r| && e !in KeySet(r) ==> multiset(AllExercices(ss))[e] <= r[i].1
    ensures SumOf(r, CountOf) <= WorkoutCount(ss)
  {
    var stats := ExercicesStats(ss);
    var k := Min(3, |stats|);
    RankingPrefix(stats, k, AllExercices(ss));
    PrefixCountBound(stats, k);
    stats[..k]
  }

  /** A prefix of a ranking is itself a ranking, and no exercise left out of
      it outnumbers a row kept in it. */
  lemma RankingPrefix(stats: seq<Stat>, k: nat, xs: seq<Exercice>)
    requires k <= |stats|
    requires SortedDesc(stats, CountOf) && DistinctKeys(stats)
    requires KeySet(stats) == (set e | e in xs)
    requires forall i :: 0 <= i < |stats| ==> stats[i].1 == multiset(xs)[stats[i].0]
    ensures SortedDesc(stats[..k], CountOf) && DistinctKeys(stats[..k])
    ensures forall i :: 0 <= i < k ==> stats[..k][i].1 == multiset(xs)[stats[..k][i].0]
    ensures forall i, e :: 0 <= i < k && e !in KeySet(stats[..k]) ==> multiset(xs)[e] <= stats[..k][i].1
  {
    var r := stats[..k];
    forall i, e | 0 <= i < k && e !in KeySet(r) ensures multiset(xs)[e] <= r[i].1 {
      if e in xs {
        assert e in KeySet(stats);
        var j :| 0 <= j < |stats| && stats[j].0 == e;
        assert forall m :: 0 <= m < k ==> stats[m].0 == r[m].0 && r[m].0 in KeySet(r);
        assert CountOf(stats[i]) >= CountOf(stats[j]);
      }
    }
  }

  /** The rows kept count no more workouts than the whole ranking. */
  lemma PrefixCountBound(stats: seq<Stat>, k: nat)
    requires k <= |stats|
    ensures SumOf(stats[..k], CountOf) <= SumOf(stats, CountOf)
  {
    assert stats == stats[..k] + stats[k..];
    SumOfConcat(stats[..k], stats[k..], CountOf);
    SumOfNonNegative(stats[k..], CountOf);
  }

  /** `totalWorkoutsThisWeek`: the workouts of the sessions that
      `SeancesInPeriod` counts. */
  function TotalWorkoutsInPeriod(ss: seq<Seance>, start: int, now: int): (r: int)
    ensures r == |AllWorkouts(Filter(ss, Between(start, now)))|
    ensures r <= WorkoutCount(ss)
  {
    var kept := Filter(ss, Between(start, now));
    WorkoutCountOfFilter(ss, Between(start, now));
    SumOf(kept, WorkoutsIn)
  }

  lemma {:induction false} WorkoutCountOfFilter(ss: seq<Seance>, p: Seance -> bool)
    ensures WorkoutCount(Filter(ss, p)) <= WorkoutCount(ss)
  {
    if |ss| > 0 {
      WorkoutCountOfFilter(ss[1..], p);
      var rest := Filter(ss[1..], p);
      if p(ss[0]) {
        assert Filter(ss, p) == [ss[0]] + rest;
        assert ([ss[0]] + rest)[1..] == rest;
      } else {
        assert Filter(ss, p) == rest;
      }
    }
  }

  /** When every session holds a workout, as saving demands, the week's
      workouts are at least as many as its sessions. */
  lemma WorkoutsCoverSessions(ss: seq<Seance>, start: int, now: int)
    requires forall i :: 0 <= i < |ss| ==> |ss[i].workouts| > 0
    ensures TotalWorkoutsInPeriod(ss, start, now) >= SeancesInPeriod(ss, start, now)
  {
    var kept := Filter(ss, Between(start, now));
    forall i | 0 <= i < |kept| ensures |kept[i].workouts| > 0 {
      assert kept[i] in multiset(kept);
    }
    AtLeastOneEach(kept);
  }

  lemma {:induction false} AtLeastOneEach(ss: seq<Seance>)
    requires forall i :: 0 <= i < |ss| ==> |ss[i].workouts| > 0
    ensures SumOf(ss, WorkoutsIn) >= |ss|
  {
    if |ss| > 0 {
      AtLeastOneEach(ss[1..]);
    }
  }

  /** `greetingText` for the current hour. */
  function GreetingText(hour: int): (r: string)
    ensures 0 <= hour < 12 ==> r == "Bonjour"
    ensures 12 <= hour < 18 ==> r == "Bon après-midi"
    ensures !(0 <= hour < 18) ==> r == "Bonsoir"
  {
    if 0 <= hour < 12 then "Bonjour"
    else if 12 <= hour < 18 then "Bon après-midi"
    else "Bonsoir"
  }

  /** The `[.day, .hour, .minute]` components from a date to now. */
  datatype Elapsed = Elapsed(day: int, hour: int, minute: int)

  /** `timeAgoDisplay()`: the largest positive component decides the label. */
  function TimeAgoDisplay(c: Elapsed): (r: string)
    ensures c.day == 1 ==> r == "Hier"
    ensures c.day > 1 ==> r == "Il y a " + IntToString(c.day) + "j"
    ensures c.day <= 0 && c.hour > 0 ==> r == "Il y a " + IntToString(c.hour) + "h"
    ensures c.day <= 0 && c.hour <= 0 && c.minute > 0 ==> r == "Il y a " + IntToString(c.minute) + "m"
    ensures c.day <= 0 && c.hour <= 0 && c.minute <= 0 ==> r == "À l'instant"
  {
    if c.day > 0 then (if c.day == 1 then "Hier" else "Il y a " + IntToString(c.day) + "j")
    else if c.hour > 0 then "Il y a " + IntToString(c.hour) + "h"
    else if c.minute > 0 then "Il y a " + IntToString(c.minute) + "m"
    else "À l'instant"
  }

  /** The number in a "Il y a …" label reads back as the component shown. */
  lemma TimeAgoNumberReadsBack(c: Elapsed)
    requires c.day > 1
    ensures var r := TimeAgoDisplay(c);
      IsDigits(r[7..|r| - 1]) && ParseNat(r[7..|r| - 1]) == c.day
  {
    var r := TimeAgoDisplay(c);
    assert r[7..|r| - 1] == NatToString(c.day);
    NatToStringRoundTrip(c.day);
  }
}
