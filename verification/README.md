# Performed — a Dafny model of the workout log

Performed is an iOS workout log. A user records training sessions
(`Seance`): each holds a date, a name and a list of workouts (`Workout`).
A workout is one exercise (`Exercice`) with the series (`Serie`) performed
for it, and each series holds repetition counts and weights. The
`DataManager` store keeps the user and the sessions and persists them.
The sessions are sorted newest first on load; additions are prepended
without re-sorting, so a session dated earlier than the head breaks that
order until the next load. The screens derive figures from the stored list:

- the home screen: sessions this week and this month, the three most
  frequent exercises, the workouts of the week, a greeting and the "time
  ago" label;
- the statistics screen: the exercise ranking, the averages, the two trend
  badges, the weight record and the progression chart;
- the profile screen: distinct exercises, member-since date, the name
  editor, the training streak and the reset;
- the session list: search, period chips, grouping by month and the card
  preview.

The two editors build sessions: the session sheet (save guard, workout
deletion, save) and the workout sheet (series fields, adding and removing
series, adding the workout).

The model is functional. The store's operations take and return the list
of sessions, and every screen figure is a function of that list. The
calendar is a parameter wherever the source asks it for something: the
start of the week, month and last month, the start of a day, the hour,
the month label and the date text. So is the current time. The same holds
for the localized text match of the search field and for fresh
identifiers (`UUID()`). Dates are integer timestamps, identifiers are
naturals and weights are integers.

Modules, in dependency order:

- `Options`, `Seqs`, `Sorting`: `Option`, sums, filtering and mapping
  with their multiset characterisations, and a sort by an integer key.
- `Text`: trimming of `.whitespaces` and the decimal rendering of
  integers, with its parser.
- `Models`: the records and `Serie`/`Workout` members.
- `Aggregates`: nested counts shared by several screens.
- `DataManager`: the store.
- `Statistiques`, `Home`, `Profil`, `SeancesList`: the screens.
- `AddWorkout`, `AddSeance`: the editors.

Several screens define the same computation more than once; each is
modelled once:

- `progressionExercice` appears in `HomeView.swift` and
  `StatistiquesView.swift`;
- `totalSeries` over all sessions appears in `ProfilView.swift` and
  `StatistiquesView.swift`;
- the card counts `totalSeries` and `totalReps` appear in
  `SeancesListView.swift` and `AddSeanceView.swift`;
- `totalWorkouts` of the list is `WorkoutCount`.

## Model

| member | source | states |
|---|---|---|
| Models.NewSerie | Performed/models/Serie.swift:15-19 | a series built with the default arguments has no repetitions and no weights, so its total is 0 and its mean weight 0 |
| Models.TotalReps | Performed/models/Serie.swift:21-23 | the repetition total is 0 for no entry and is the entry itself for a single entry |
| Models.TotalRepsAppend | Performed/models/Serie.swift:21-23 | one more entry adds exactly its value to the total |
| Models.MoyennePoids | Performed/models/Serie.swift:25-28 | the mean weight is 0 without weights; otherwise mean times count equals the sum of the weights |
| Models.TotalWorkoutRep | Performed/models/Workout.swift:16-24 | the accumulating loop returns the sum of the series' repetition totals, 0 for no series |
| Models.WorkoutRepsAppend | Performed/models/Workout.swift:16-24 | appending a series adds exactly its repetitions to the workout total |
| Models.TotalWorkoutSerie | Performed/models/Workout.swift:26-28 | the series count of a workout is the length of its series list |
| Sorting.SortDesc | Performed/Data/DataManager.swift:47 | the sorted list is a permutation of the input, ordered by non-increasing key |
| Sorting.SortAsc | Performed/views/ProfilView.swift:40 | the sorted list is a permutation of the input, ordered by non-decreasing key |
| Text.Trim | Performed/views/AddSeanceView.swift:308 | trimming is empty exactly when the text is all whitespace; otherwise it is the text without its leading and trailing whitespace runs, and it neither starts nor ends with whitespace |
| Text.TrimIdempotent | Performed/views/AddSeanceView.swift:308 | trimming a trimmed text changes nothing |
| Text.IntToStringRoundTrip | Performed/views/StatistiquesView.swift:62-64 | the decimal text interpolated for an integer parses back to that integer |
| DataManager.LoadSeances | Performed/Data/DataManager.swift:44-50 | nothing decoded gives the empty list; decoded sessions come back as a permutation sorted newest first |
| DataManager.Init | Performed/Data/DataManager.swift:19-22 | the stored user is kept, or a fresh one named "User" with the fresh identifier is made; the sessions are those loaded |
| DataManager.AddSeance | Performed/Data/DataManager.swift:52-55 | the new session is at the head and the previous list follows unchanged |
| DataManager.UpdateSeance | Performed/Data/DataManager.swift:57-62 | only the first session with the same identifier is replaced, and nothing changes when there is none |
| DataManager.DeleteSeance | Performed/Data/DataManager.swift:64-67 | no session with the identifier remains, every other session keeps its multiplicity, and nothing changes when none matches |
| DataManager.DeleteSeanceConcat | Performed/Data/DataManager.swift:64-67 | deleting from a concatenation deletes from each part, so the order of the kept sessions is preserved |
| DataManager.AddBreaksOrder | Performed/Data/DataManager.swift:52-55 | prepending keeps no order: adding a session older than the head of a newest-first list leaves it unsorted |
| DataManager.DeleteAfterAdd | Performed/Data/DataManager.swift:52-67 | deleting a session just added leaves what deleting it from the old list leaves |
| DataManager.UpdateAfterAdd | Performed/Data/DataManager.swift:52-62 | updating the session just added is the same as adding the updated one |
| DataManager.DeleteAfterUpdate | Performed/Data/DataManager.swift:57-67 | an update does not change what a later deletion of that identifier leaves |
| Aggregates.SeanceSeries | Performed/views/SeancesListView.swift:396-398 | the card's series count is the number of series over all the session's workouts |
| Aggregates.SeanceReps | Performed/views/SeancesListView.swift:400-404 | the card's "Reps" figure, as written, is the number of repetition entries over all series, and is never negative |
| Aggregates.SingleEntrySeries | Performed/views/AddSeanceView.swift:27-35 | when every series has one entry, as the editor builds them, the "Reps" figure equals the series count |
| Aggregates.SeanceRepTotal | Performed/views/AddSeanceView.swift:31-35 | the corrected figure sums the repetition values of every series |
| Aggregates.RepsFigureCountsEntries | Performed/views/SeancesListView.swift:400-404 | one series of ten repetitions shows "Reps" 1, while the corrected figure is 10 |
| Aggregates.TotalSeries | Performed/views/StatistiquesView.swift:32-36 | the series over all sessions is the length of the flattened series list, 0 without sessions |
| Aggregates.WorkoutCount | Performed/views/SeancesListView.swift:93-95 | the workout total is the length of the flattened workout list |
| Aggregates.Newest | Performed/views/HomeView.swift:41-43 | there is a newest session exactly when the list is not empty; it is in the list and no session is later |
| Statistiques.Tally | Performed/views/StatistiquesView.swift:18-24 | the counting pass gives one row per distinct exercise, each with its number of workouts, and the counts add up to the number of workouts |
| Statistiques.Bump | Performed/views/StatistiquesView.swift:22 | an exercise not yet counted gets a new last row with count 1; otherwise its first row's count goes up by one and no other row changes |
| Statistiques.BumpTallies | Performed/views/StatistiquesView.swift:22 | incrementing the count of one more workout's exercise keeps the rows a tally of the longer list |
| Statistiques.TalliesPermutation | Performed/views/StatistiquesView.swift:25 | reordering a tally keeps keys distinct, keeps the key set and keeps each count right |
| Statistiques.ExercicesStats | Performed/views/StatistiquesView.swift:18-26 | the ranking holds each exercise performed exactly once with its number of workouts, most frequent first; its counts sum to the number of workouts and its length is the number of distinct exercises |
| Statistiques.TotalExercicesUniques | Performed/views/StatistiquesView.swift:28-30 | the distinct-exercise count is the size of the set of exercises performed, never above the number of workouts |
| Statistiques.MoyenneSeriesParSeance | Performed/views/StatistiquesView.swift:38-40 | the average is 0 without sessions; otherwise it is the integer quotient of total series by session count, rounded down |
| Statistiques.TruncDiv | Performed/views/StatistiquesView.swift:59-64 | `Int(x)` of a quotient truncates toward zero, for both signs of the numerator |
| Statistiques.PercentChange | Performed/views/StatistiquesView.swift:59 | the change is positive only on growth and negative only on decline, and it is the truncated percentage of the difference |
| Statistiques.MonthTrend | Performed/views/StatistiquesView.swift:57-67 | there is no badge without sessions last month; the badge is up exactly on growth and down exactly on decline, labelled with the signed truncated percentage, or "0%" |
| Statistiques.MonthTrendExamples | Performed/views/StatistiquesView.swift:57-67 | 4 then 6 sessions is "+50%", 200 then 201 is up with "+0%", 4 then 3 is "-25%", and no session last month gives no badge |
| Statistiques.SeancesTrend | Performed/views/StatistiquesView.swift:43-68 | the badge compares the number of sessions since the month start with the number in the previous month, and is absent exactly when the previous month has none |
| Statistiques.SeriesTrend | Performed/views/StatistiquesView.swift:70-83 | there is no badge with fewer than two sessions; it is up exactly when the newest session has more series than the average, down exactly when it has fewer, and reads "Moy." otherwise; the badge is the one computed from the newest session's series and the average |
| Statistiques.SeriesBadge | Performed/views/StatistiquesView.swift:76-82 | the badge is up or down by the sign of the difference, and reads "Moy." when equal |
| Statistiques.SeriesBadgeReadsBack | Performed/views/StatistiquesView.swift:76-82 | an up label is '+' followed by the difference in decimal; a down label is the negative difference in decimal |
| Statistiques.SerieMaxima | Performed/views/StatistiquesView.swift:91 | `compactMap { $0.poids.max() }` holds the maximum of every series with weights and nothing but such maxima, never more values than series |
| Statistiques.MaxOf | Performed/views/StatistiquesView.swift:91 | `max()` is absent exactly for an empty list; otherwise it is an element and no element exceeds it |
| Statistiques.MaxOfConcat | Performed/views/StatistiquesView.swift:91 | the maximum of a concatenation is the larger of the two maxima |
| Statistiques.WorkoutMax | Performed/views/StatistiquesView.swift:91 | the largest of the series' maxima is the largest weight recorded in any series of the workout |
| Statistiques.AtMostMax | Performed/views/StatistiquesView.swift:91-92 | no weight of a workout exceeds p exactly when its maximum is absent or at most p |
| Statistiques.FirstMaximum | Performed/views/StatistiquesView.swift:86-97 | the strict-improvement scan from 0 ends with a non-negative top that bounds every value; a positive top sits at the first position that reaches it |
| Statistiques.RecordPoids | Performed/views/StatistiquesView.swift:85-100 | there is no record exactly when no workout holds a positive weight; otherwise the record weight is positive, no workout exceeds it, and the exercise is that of the first workout reaching it |
| Statistiques.RecordFacts | Performed/views/StatistiquesView.swift:85-100 | the scan's bounds on the workouts' maxima carry over to every weight of the workouts |
| Statistiques.SessionBest | Performed/views/StatistiquesView.swift:108-111 | 0 when no workout of the session is of the exercise; otherwise the maximum weight of the first such workout, or 0 when it has no weight |
| Statistiques.ProgressionExercice | Performed/views/StatistiquesView.swift:102-120 | one point for each session whose first workout of the exercise has a positive maximum, dated oldest first, each weight positive |
| Statistiques.ChartedCount | Performed/views/StatistiquesView.swift:113-116 | the sessions charted are counted by the set of positions whose best weight is positive |
| Statistiques.SortedPoints | Performed/views/StatistiquesView.swift:105-117 | filtering and mapping an oldest-first list keeps the points in date order |
| Home.SeancesInPeriod | Performed/views/HomeView.swift:21-39 | the week's and month's counts are the number of sessions dated from the period start up to now |
| Home.SeancesInPeriodMonotone | Performed/views/HomeView.swift:21-39 | an earlier period start never counts fewer sessions, so the month count is at least the week count whenever the month starts first |
| Home.TopExercices | Performed/views/HomeView.swift:45-53 | at most three distinct rows from the ranking, most frequent first, with correct counts; no exercise left out has more workouts than a row kept |
| Home.RankingPrefix | Performed/views/HomeView.swift:52 | a prefix of the ranking is a ranking, and nothing left out outnumbers a kept row |
| Home.PrefixCountBound | Performed/views/HomeView.swift:52 | the rows kept count no more workouts than the whole ranking |
| Home.TotalWorkoutsInPeriod | Performed/views/HomeView.swift:55-63 | the week's workouts are those of the sessions in the period, never more than all workouts |
| Home.WorkoutCountOfFilter | Performed/views/HomeView.swift:55-63 | keeping some of the sessions never raises the workout total |
| Home.WorkoutsCoverSessions | Performed/views/HomeView.swift:55-63 | when every session holds a workout, the week's workouts are at least the week's sessions |
| Home.GreetingText | Performed/views/HomeView.swift:384-395 | "Bonjour" from 0 to 11 h, "Bon après-midi" from 12 to 17 h, "Bonsoir" otherwise |
| Home.TimeAgoDisplay | Performed/views/HomeView.swift:455-471 | the largest positive component among days, hours and minutes picks the label; one day reads "Hier" and nothing positive reads "À l'instant" |
| Home.TimeAgoNumberReadsBack | Performed/views/HomeView.swift:461-462 | the number in a days label parses back to the number of days |
| Profil.ExerciceSetMembers | Performed/views/ProfilView.swift:23-31 | the set filled by the nested loops is the set of exercises performed |
| Profil.TotalExercices | Performed/views/ProfilView.swift:23-31 | the profile's count is the size of the set of exercises performed |
| Profil.TotalExercicesAgree | Performed/views/ProfilView.swift:23-31 | the profile's set count equals the statistics screen's ranking count |
| Profil.MemberSinceOf | Performed/views/ProfilView.swift:39-47 | "Nouveau membre" exactly without sessions; otherwise the date of a session no later than any other |
| Profil.SaveName | Performed/views/ProfilView.swift:321-328 | the name is replaced as typed when it holds a non-whitespace character; otherwise the user is unchanged; the identifier never changes |
| Profil.SaveNameStable | Performed/views/ProfilView.swift:321-328 | a name that is not blank stays not blank after saving, and saving the same text twice equals saving it once |
| Profil.DaysOf | Performed/views/ProfilView.swift:400-401 | one start-of-day per session, in list order |
| Profil.SortedDays | Performed/views/ProfilView.swift:400-402 | the days list is newest first and is a permutation of the sessions' start-of-days, one per session with repeats kept; so a day is in it exactly when a session falls on it |
| Profil.CalculateStreak | Performed/views/ProfilView.swift:396-417 | no streak exactly when there is no session today; otherwise every day of the streak, ending today, has a session and the day before it has none |
| Profil.StopsAtGap | Performed/views/ProfilView.swift:407-414 | where the walk over the sorted days stops, the day looked for has no session |
| Profil.ResetAllData | Performed/views/ProfilView.swift:419-422 | every session goes and the user stays |
| Profil.ResetClearsProfile | Performed/views/ProfilView.swift:419-422 | after a reset, the exercise and series counts are 0, the member line reads "Nouveau membre" and the ranking is empty |
| SeancesList.Searched | Performed/views/SeancesListView.swift:40-48 | newest first; an empty search keeps every session, otherwise exactly those whose date text or an exercise name matches, with their multiplicities |
| SeancesList.FilteredSeances | Performed/views/SeancesListView.swift:36-66 | newest first, and a session appears, as often as stored, exactly when it passes the search and the chip's period |
| SeancesList.ListAll | Performed/views/SeancesListView.swift:51-53 | with no search and "Toutes", every session is listed |
| SeancesList.MonthOlderPartition | Performed/views/SeancesListView.swift:57-62 | "Ce mois" and "Plus anciennes" split the "Toutes" list between them |
| SeancesList.ThisWeekWithinAll | Performed/views/SeancesListView.swift:54-56 | the week's list is part of the "Toutes" list |
| SeancesList.GroupedSeances | Performed/views/SeancesListView.swift:68-77 | one group per month label present, each holding exactly the sessions of that month with their multiplicities; when the list is newest first, so is every group |
| SeancesList.MonthGroup | Performed/views/SeancesListView.swift:74-76 | one month's group is the filtered list: the sessions of that month with their multiplicities, in list order, so newest first when the list is |
| SeancesList.GroupsShape | Performed/views/SeancesListView.swift:68-77 | every session sits in its month's group, no group is empty, and a group holds only sessions of its month |
| SeancesList.GroupOfSession | Performed/views/SeancesListView.swift:74-76 | a session is in a group exactly when the group is its month's |
| SeancesList.GroupSizesSum | Performed/views/SeancesListView.swift:68-77 | the group sizes add up to the number of sessions grouped |
| SeancesList.PreviewOf | Performed/views/SeancesListView.swift:463-477 | the card shows the first three workouts, or all when fewer, and "+n" exactly when more, n being the rest |
| SeancesList.PreviewAccountsAll | Performed/views/SeancesListView.swift:463-477 | the chips shown and the overflow count add up to the number of workouts |
| AddSeance.CanSave | Performed/views/AddSeanceView.swift:23-25 | saving is enabled exactly with a workout and a name that does not trim to nothing |
| AddSeance.DeleteWorkoutById | Performed/views/AddSeanceView.swift:105-114 | the first workout carrying the identifier is removed; nothing changes when none does |
| AddSeance.DeleteWorkoutAt | Performed/views/AddSeanceView.swift:94-104 | an index in range removes exactly that workout and keeps the others in order; an index out of range changes nothing |
| AddSeance.DeleteByIdIsDeleteAtFirst | Performed/views/AddSeanceView.swift:94-114 | the two deletions agree on the first workout carrying an identifier |
| AddSeance.DeleteUndoesAddWorkout | Performed/views/AddSeanceView.swift:105-114 | deleting a workout just added under a fresh identifier gives back the previous workouts |
| AddSeance.SaveSeance | Performed/views/AddSeanceView.swift:307-312 | the session goes to the head of the store with its name trimmed and everything else kept |
| AddSeance.SavedSeanceWellFormed | Performed/views/AddSeanceView.swift:307-312 | a session saved through the guard has a workout and a name that is neither blank nor padded |
| AddWorkout.InitialEditor | Performed/views/AddWorkoutView.swift:13-14 | the sheet opens on "Développé Couché" with one series of 10 repetitions at 20 |
| AddWorkout.DefaultSerie | Performed/views/AddWorkoutView.swift:56-58 | an added series holds 10 repetitions at 20 |
| AddWorkout.FirstOrZero | Performed/views/AddWorkoutView.swift:36 | a field shows the first value, or 0 for an empty list |
| AddWorkout.RepsOf | Performed/views/AddWorkoutView.swift:36 | the repetitions field shows the first repetition value, or 0 when there is none |
| AddWorkout.PoidsOf | Performed/views/AddWorkoutView.swift:44 | the weight field shows the first weight, or 0 when there is none |
| AddWorkout.SetReps | Performed/views/AddWorkoutView.swift:35-38 | typing replaces that series' repetitions by the one value and leaves everything else alone |
| AddWorkout.SetPoids | Performed/views/AddWorkoutView.swift:43-46 | typing replaces that series' weights by the one value and leaves everything else alone |
| AddWorkout.SetThenGet | Performed/views/AddWorkoutView.swift:35-46 | a field shows what was typed; typing what a single-valued field shows changes nothing |
| AddWorkout.EditsKeepSingletons | Performed/views/AddWorkoutView.swift:13-58 | the initial series, the edits and the added series all keep one repetition and one weight per series |
| AddWorkout.AppendSerie | Performed/views/AddWorkoutView.swift:56-58 | the series list grows by one default series at the end |
| AddWorkout.KeptIndices | Performed/views/AddWorkoutView.swift:52-54 | the positions kept are exactly those in range and not swiped, in increasing order |
| AddWorkout.RemoveOffsets | Performed/views/AddWorkoutView.swift:52-54 | removing swiped offsets keeps the other series in order, one fewer per offset |
| AddWorkout.RemoveOffsetsCount | Performed/views/AddWorkoutView.swift:52-54 | as many series go as there are offsets |
| AddWorkout.KeptMembers | Performed/views/AddWorkoutView.swift:52-54 | the series remaining are exactly those at positions not swiped |
| AddWorkout.AddWorkoutTo | Performed/views/AddWorkoutView.swift:69-73 | the workout built from the editor goes at the end of the session and nothing else changes |
| AddWorkout.AddWorkoutSeries | Performed/views/AddSeanceView.swift:27-29 | adding a workout adds its series to the editor's series count |
| AddWorkout.AddWorkoutReps | Performed/views/AddSeanceView.swift:31-35 | adding a workout adds its repetitions to the corrected repetition total |

## Left out

- Persistence: `UserDefaults` and JSON encoding are reduced to an optional decoded value; `saveUser` and `saveSeances` are the identity on the model.
- Calendar and formatting: week, month and day starts, the hour, the day/hour/minute components, `formatted()` and the "MMMM yyyy" month label are parameters, because they depend on the device's calendar, time zone and locale.
- The search's `localizedCaseInsensitiveContains` is the parameter `matches`: locale-aware case folding is outside the model.
- Weights: Swift `Double`s are integers here, so records, maxima and chart points are integers.
- Models.MoyennePoids: an exact rational mean of integer weights; the source divides `Double`s with rounding.
- Statistiques.PercentChange: computed on integers, truncated toward zero; the source computes in `Double`, which can land just below an integer before truncation (for example a 0.29 ratio times 100), so a label may differ by one.
- Statistiques.ExercicesStats: ties in the count keep an order fixed by first appearance and the insertion sort; the source sorts a `Dictionary`, whose iteration order is unspecified, with an unstable sort.
- Home.TopExercices: ties at the third place inherit the ranking's tie order, as above.
- Home.TimeAgoDisplay: the optional components are taken as present integers; `Calendar` always returns the three components asked for.
- `sortedGroups` in `SeancesListView.swift`: orders month labels by parsing them back into dates with a formatter, which is locale behaviour.
- `totalSeances` of the home, statistics and profile screens: it is the length of the list.
- `daysSinceFirstSession`, `calculateTotalWeight` and `avgWeight` of the other cards: floating-point display values outside the named core.
- The default `seanceName` (`date.formatted()`) and `duree` of `Seance.swift`: locale formatting.
- Integer overflow: Swift `Int` arithmetic traps on overflow in `reduce(0, +)` (`Serie.swift:22`), `totalRep +=` (`Workout.swift:20`), `counts += 1` and the nested reduces (`StatistiquesView.swift:22`, `33-35`) and the conversion `Int(percentChange)` (`StatistiquesView.swift:62`, `64`); the model's integers are unbounded, so these figures never fail here.
- Views, layout, animations, ads, `@MainActor` isolation and navigation state are not part of this model.

## Findings

| source | as written | input that shows it | evidently intended | confidence | as-written member | corrected member |
|---|---|---|---|---|---|---|
| Performed/views/SeancesListView.swift:400-404 and Performed/views/AddSeanceView.swift:31-35 | the "Reps" figure sums `repetitions.count`, the number of repetition entries per series | one workout with one series of 10 repetitions at 20: the figure shows 1 | the repetitions performed, summing each series' `totalReps`: 10 | medium, not executed | Aggregates.RepsFigureCountsEntries | Aggregates.SeanceRepTotal |
