/**
  The session list screen: the searched and period-filtered sessions, newest
  first, their grouping by month, and the workout preview of a card. The
  localized, case-insensitive text match is the parameter `matches`
  (haystack, needle), the date formatting is `formatDate` and the month key
  ("MMMM yyyy" in French) is `monthKey`.
 */
module SeancesList {
  import opened Options
  import opened Seqs
  import opened Sorting
  import opened Models
  import opened Aggregates

  /** The period chips above the list. */
  datatype FilterType = All | ThisWeek | ThisMonth | Older

  /** The period test of each chip, with the week and month starts as
      computed from the calendar. */
  function InPeriod(f: FilterType, weekStart: int, monthStart: int): Seance -> bool
  {
    match f
    case All => (s: Seance) => true
    case ThisWeek => Since(weekStart)
    case ThisMonth => Since(monthStart)
    case Older => Before(monthStart)
  }

  /** A session matches a non-empty search when its formatted date or the
      name of one of its exercises matches. */
  function SearchHit(searchText: string, matches: (string, string) -> bool, formatDate: int -> string): Seance -> bool
  {
    (s: Seance) =>
      matches(formatDate(s.date), searchText)
      || exists w :: w in s.workouts && matches(w.exercice.rawValue, searchText)
  }

  /** A session is listed when it passes the search (an empty search passes
      everything) and the period. */
  ghost predicate Listed(s: Seance, searchText: string, f: FilterType, weekStart: int, monthStart: int,
                         matches: (string, string) -> bool, formatDate: int -> string)
  {
    && (searchText == [] || SearchHit(searchText, matches, formatDate)(s))
    && InPeriod(f, weekStart, monthStart)(s)
  }

  /** The search step of `filteredSeances`: the sessions newest first, kept
      when the search is empty or hits them. */
  function Searched(ss: seq<Seance>, searchText: string,
                    matches: (string, string) -> bool, formatDate: int -> string): (r: seq<Seance>)
    ensures SortedDesc(r, DateOf)
    ensures forall x :: multiset(r)[x] ==
                       if searchText == [] || SearchHit(searchText, matches, formatDate)(x) then multiset(ss)[x] else 0
  {
    var sorted := SortDesc(ss, DateOf);
    if searchText == [] then sorted
    else
      FilterKeepsSortedDesc(sorted, DateOf, SearchHit(searchText, matches, formatDate));
      Filter(sorted, SearchHit(searchText, matches, formatDate))
  }

  /** `filteredSeances`: sort newest first, then the search, then the period. */
  function FilteredSeances(ss: seq<Seance>, searchText: string, f: FilterType, weekStart: int, monthStart: int,
                           matches: (string, string) -> bool, formatDate: int -> string): (r: seq<Seance>)
    ensures SortedDesc(r, DateOf)
    ensures forall x :: multiset(r)[x] ==
                       if Listed(x, searchText, f, weekStart, monthStart, matches, formatDate) then multiset(ss)[x] else 0
    ensures multiset(r) <= multiset(ss)
  {
    var searched := Searched(ss, searchText, matches, formatDate);
    FilterKeepsSortedDesc(searched, DateOf, InPeriod(f, weekStart, monthStart));
    Filter(searched, InPeriod(f, weekStart, monthStart))
  }

  /** With an empty search and the "Toutes" chip every session is listed. */
  lemma ListAll(ss: seq<Seance>, weekStart: int, monthStart: int,
                matches: (string, string) -> bool, formatDate: int -> string)
    ensures multiset(FilteredSeances(ss, [], All, weekStart, monthStart, matches, formatDate)) == multiset(ss)
  {
  }

  /** "Ce mois" and "Plus anciennes" split the searched list between them. */
  lemma MonthOlderPartition(ss: seq<Seance>, searchText: string, weekStart: int, monthStart: int,
                            matches: (string, string) -> bool, formatDate: int -> string)
    ensures multiset(FilteredSeances(ss, searchText, ThisMonth, weekStart, monthStart, matches, formatDate))
          + multiset(FilteredSeances(ss, searchText, Older, weekStart, monthStart, matches, formatDate))
         == multiset(FilteredSeances(ss, searchText, All, weekStart, monthStart, matches, formatDate))
    ensures |FilteredSeances(ss, searchText, ThisMonth, weekStart, monthStart, matches, formatDate)|
          + |FilteredSeances(ss, searchText, Older, weekStart, monthStart, matches, formatDate)|
         == |FilteredSeances(ss, searchText, All, weekStart, monthStart, matches, formatDate)|
  {
    var searched := Searched(ss, searchText, matches, formatDate);
    assert InPeriod(ThisMonth, weekStart, monthStart) == Since(monthStart);
    assert InPeriod(Older, weekStart, monthStart) == Before(monthStart);
    FilterSplit(searched, InPeriod(All, weekStart, monthStart), Since(monthStart), Before(monthStart));
  }

  /** The week's sessions are among those the "Toutes" chip lists. */
  lemma ThisWeekWithinAll(ss: seq<Seance>, searchText: string, weekStart: int, monthStart: int,
                          matches: (string, string) -> bool, formatDate: int -> string)
    ensures multiset(FilteredSeances(ss, searchText, ThisWeek, weekStart, monthStart, matches, formatDate))
         <= multiset(FilteredSeances(ss, searchText, All, weekStart, monthStart, matches, formatDate))
  {
  }

  function HasMonth(monthKey: int -> string, k: string): Seance -> bool
  {
    (s: Seance) => monthKey(s.date) == k
  }

  function MonthKeys(s: seq<Seance>, monthKey: int -> string): set<string>
  {
    set x | x in s :: monthKey(x.date)
  }

  /** `groupedSeances`: the sessions of each month, in list order. */
  function GroupedSeances(s: seq<Seance>, monthKey: int -> string): (g: map<string, seq<Seance>>)
    ensures g.Keys == MonthKeys(s, monthKey)
    ensures forall k, x :: k in g ==> multiset(g[k])[x] == if monthKey(x.date) == k then multiset(s)[x] else 0
    ensures SortedDesc(s, DateOf) ==> forall k :: k in g ==> SortedDesc(g[k], DateOf)
  {
    map k | k in MonthKeys(s, monthKey) :: MonthGroup(s, monthKey, k)
  }

  /** The sessions of month `k`, in list order. */
  function MonthGroup(s: seq<Seance>, monthKey: int -> string, k: string): (r: seq<Seance>)
    ensures forall x :: multiset(r)[x] == if monthKey(x.date) == k then multiset(s)[x] else 0
    ensures SortedDesc(s, DateOf) ==> SortedDesc(r, DateOf)
    ensures r == Filter(s, HasMonth(monthKey, k))
  {
    assert SortedDesc(s, DateOf) ==> SortedDesc(Filter(s, HasMonth(monthKey, k)), DateOf) by {
      if SortedDesc(s, DateOf) {
        FilterKeepsSortedDesc(s, DateOf, HasMonth(monthKey, k));
      }
    }
    Filter(s, HasMonth(monthKey, k))
  }

  /** Every session sits in the group of its month; every group is
      non-empty and holds only sessions of its month. */
  lemma GroupsShape(s: seq<Seance>, monthKey: int -> string)
    ensures var g := GroupedSeances(s, monthKey);
      && (forall i :: 0 <= i < |s| ==> monthKey(s[i].date) in g && s[i] in g[monthKey(s[i].date)])
      && (forall k :: k in g ==> |g[k]| > 0)
      && (forall k, i :: k in g && 0 <= i < |g[k]| ==> monthKey(g[k][i].date) == k)
  {
    var g: map<string, seq<Seance>> := GroupedSeances(s, monthKey);
    forall i | 0 <= i < |s| ensures monthKey(s[i].date) in g && s[i] in g[monthKey(s[i].date)] {
      assert s[i] in multiset(s);
      assert monthKey(s[i].date) in MonthKeys(s, monthKey);
      assert multiset(g[monthKey(s[i].date)])[s[i]] > 0;
    }
    forall k | k in g ensures |g[k]| > 0 {
      var x :| x in s && monthKey(x.date) == k;
      assert multiset(g[k])[x] > 0;
    }
    forall k: string, i: int | k in g && 0 <= i < |g[k]| ensures monthKey(g[k][i].date) == k {
      assert g[k][i] in multiset(g[k]);
    }
  }

  lemma InOwnMonth(s: seq<Seance>, monthKey: int -> string, x: Seance)
    requires x in s
    ensures monthKey(x.date) in MonthKeys(s, monthKey)
    ensures x in Filter(s, HasMonth(monthKey, monthKey(x.date)))
  {
    assert x in multiset(s);
    assert multiset(Filter(s, HasMonth(monthKey, monthKey(x.date))))[x] > 0;
  }

  /** A session lies in the group of its own month and in no other. */
  lemma GroupOfSession(s: seq<Seance>, monthKey: int -> string, x: Seance, k: string)
    requires x in s
    requires k in MonthKeys(s, monthKey)
    ensures k in GroupedSeances(s, monthKey)
    ensures x in GroupedSeances(s, monthKey)[k] <==> k == monthKey(x.date)
  {
    var g := GroupedSeances(s, monthKey);
    assert x in multiset(s);
    assert x in g[k] <==> multiset(g[k])[x] > 0;
  }

  function GroupSize(g: map<string, seq<Seance>>): string -> int
  {
    (k: string) => if k in g then |g[k]| else 0
  }

  function FilterSize(s: seq<Seance>, monthKey: int -> string): string -> int
  {
    (k: string) => |Filter(s, HasMonth(monthKey, k))|
  }

  /** Listing each month once, the group sizes add up to the number of
      sessions grouped. */
  lemma GroupSizesSum(s: seq<Seance>, monthKey: int -> string, ks: seq<string>)
    requires NoDup(ks)
    requires forall k :: k in ks <==> k in MonthKeys(s, monthKey)
    ensures SumOf(ks, GroupSize(GroupedSeances(s, monthKey))) == |s|
  {
    var g := GroupedSeances(s, monthKey);
    forall i | 0 <= i < |ks| ensures GroupSize(g)(ks[i]) == FilterSize(s, monthKey)(ks[i]) {
      assert ks[i] in g;
      assert multiset(g[ks[i]]) == multiset(Filter(s, HasMonth(monthKey, ks[i])));
    }
    SumOfMonotone(ks, GroupSize(g), FilterSize(s, monthKey));
    SumOfMonotone(ks, FilterSize(s, monthKey), GroupSize(g));
    FilterSizesSum(s, monthKey, ks);
    forall i | 0 <= i < |s| ensures InMonths(monthKey, ks)(s[i]) {
      InOwnMonth(s, monthKey, s[i]);
    }
    FilterAll(s, InMonths(monthKey, ks));
  }

  function InMonths(monthKey: int -> string, ks: seq<string>): Seance -> bool
  {
    (s: Seance) => monthKey(s.date) in ks
  }

  /** Summing the sizes of the months of `ks`, each listed once, counts the
      sessions that fall in one of those months. */
  lemma {:induction false} FilterSizesSum(s: seq<Seance>, monthKey: int -> string, ks: seq<string>)
    requires NoDup(ks)
    ensures SumOf(ks, FilterSize(s, monthKey)) == |Filter(s, InMonths(monthKey, ks))|
  {
    if |ks| == 0 {
      FilterEmpty(s, InMonths(monthKey, ks));
    } else {
      assert NoDup(ks[1..]);
      FilterSizesSum(s, monthKey, ks[1..]);
      MonthsSplit(s, monthKey, ks);
    }
  }

  lemma MonthsSplit(s: seq<Seance>, monthKey: int -> string, ks: seq<string>)
    requires NoDup(ks) && |ks| > 0
    ensures |Filter(s, InMonths(monthKey, ks))|
         == |Filter(s, HasMonth(monthKey, ks[0]))| + |Filter(s, InMonths(monthKey, ks[1..]))|
  {
    assert ks[0] !in ks[1..] by {
      forall j | 0 <= j < |ks[1..]| ensures ks[1..][j] != ks[0] {
        assert ks[1..][j] == ks[j + 1];
      }
    }
    assert forall k :: k in ks <==> k == ks[0] || k in ks[1..] by {
      assert ks == [ks[0]] + ks[1..];
    }
    FilterSplit(s, InMonths(monthKey, ks), HasMonth(monthKey, ks[0]), InMonths(monthKey, ks[1..]));
  }

  /** The exercise chips of a card: the first three workouts, then "+n" for
      the rest. */
  datatype Preview = Preview(shown: seq<Workout>, overflow: Option<nat>)

  function PreviewOf(ws: seq<Workout>): (r: Preview)
    ensures |r.shown| == if |ws| < 3 then |ws| else 3
    ensures r.shown + ws[|r.shown|..] == ws
    ensures r.overflow.Some? <==> |ws| > 3
    ensures r.overflow.Some? ==> r.overflow.value == |ws| - 3
  {
    if |ws| > 3 then Preview(ws[..3], Some(|ws| - 3)) else Preview(ws, None)
  }

  /** The chips shown and the overflow count account for every workout. */
  lemma PreviewAccountsAll(ws: seq<Workout>)
    ensures |PreviewOf(ws).shown| + PreviewOf(ws).overflow.GetOr(0) == |ws|
  {
  }
}
