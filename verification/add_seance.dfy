/**
  The session editor: the save guard, the two ways of deleting a workout
  (the confirmation alert, by identifier, and the edit sheet, by position)
  and saving, which trims the name and hands the session to the store.
 */
module AddSeance {
  import opened Seqs
  import opened Text
  import opened Models
  import opened DataManager
  import opened AddWorkout

  /** `canSave`: at least one workout and a name that is not blank. */
  function CanSave(workouts: seq<Workout>, seanceName: string): (r: bool)
    ensures r <==> |workouts| > 0 && Trim(seanceName) != []
  {
    |workouts| > 0 && !AllWhitespace(seanceName)
  }

  function WorkoutHasId(id: Id): Workout -> bool
  {
    (w: Workout) => w.id == id
  }

  /** The alert's "Supprimer": removes the first workout carrying `id`. */
  function DeleteWorkoutById(ws: seq<Workout>, id: Id): (r: seq<Workout>)
    ensures (forall i :: 0 <= i < |ws| ==> ws[i].id != id) ==> r == ws
    ensures forall i :: 0 <= i < |ws| && ws[i].id == id && (forall j :: 0 <= j < i ==> ws[j].id != id)
                     ==> r == ws[..i] + ws[i + 1..]
    ensures |r| == |ws| || |r| == |ws| - 1
  {
    match FirstIndex(ws, WorkoutHasId(id))
    case None => ws
    case Some(i) =>
      assert RemoveAt(ws, i) == ws[..i] + ws[i + 1..];
      RemoveAt(ws, i)
  }

  /** The sheet's delete button: removes the workout at `index` when the
      index is still in range, and otherwise does nothing. */
  function DeleteWorkoutAt(ws: seq<Workout>, index: nat): (r: seq<Workout>)
    ensures index < |ws| ==> |r| == |ws| - 1 && multiset(r) == multiset(ws) - multiset{ws[index]}
    ensures index < |ws| ==> r[..index] == ws[..index] && r[index..] == ws[index + 1..]
    ensures index >= |ws| ==> r == ws
  {
    if index < |ws| then RemoveAt(ws, index) else ws
  }

  /** Both deletions agree on the first workout carrying an identifier. */
  lemma DeleteByIdIsDeleteAtFirst(ws: seq<Workout>, i: nat)
    requires i < |ws|
    requires forall j :: 0 <= j < i ==> ws[j].id != ws[i].id
    ensures DeleteWorkoutById(ws, ws[i].id) == DeleteWorkoutAt(ws, i)
  {
  }

  /** Deleting a workout just added with the editor, under a fresh
      identifier, gives back the session's workouts. */
  lemma DeleteUndoesAddWorkout(s: Seance, e: Editor, id: Id)
    requires forall i :: 0 <= i < |s.workouts| ==> s.workouts[i].id != id
    ensures DeleteWorkoutById(AddWorkoutTo(s, e, id).workouts, id) == s.workouts
  {
    var ws := AddWorkoutTo(s, e, id).workouts;
    var n := |s.workouts|;
    assert ws[n].id == id;
    assert forall j :: 0 <= j < n ==> ws[j].id != id;
    assert ws[..n] == s.workouts;
  }

  /** `saveSeance()`: the name is stored trimmed and the session goes to
      the head of the store. */
  function SaveSeance(store: seq<Seance>, newSeance: Seance, seanceName: string): (r: seq<Seance>)
    ensures |r| == |store| + 1 && r[1..] == store
    ensures r[0].seanceName == Trim(seanceName)
    ensures r[0].id == newSeance.id && r[0].date == newSeance.date && r[0].workouts == newSeance.workouts
  {
    AddSeance(store, newSeance.(seanceName := Trim(seanceName)))
  }

  /** A session saved through the guard has workouts and a name that is
      neither blank nor padded. */
  lemma SavedSeanceWellFormed(store: seq<Seance>, newSeance: Seance, seanceName: string)
    requires CanSave(newSeance.workouts, seanceName)
    ensures var saved := SaveSeance(store, newSeance, seanceName)[0];
      && |saved.workouts| > 0
      && saved.seanceName != []
      && Trim(saved.seanceName) == saved.seanceName
  {
    TrimIdempotent(seanceName);
  }
}
