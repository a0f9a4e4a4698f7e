/**
  The in-memory store: the user profile and the ordered list of sessions,
  with the list operations the screens call. Persistence is reduced to what
  decoding yields: `None` stands for a missing or undecodable slot.
 */
module DataManager {
  import opened Options
  import opened Seqs
  import opened Sorting
  import opened Models

  datatype State = State(user: User, seances: seq<Seance>)

  const DefaultUserName: string := "User"

  function HasId(id: Id): Seance -> bool
  {
    (s: Seance) => s.id == id
  }

  function OtherId(id: Id): Seance -> bool
  {
    (s: Seance) => s.id != id
  }

  /** `loadSeances()`: the decoded sessions, newest first; nothing decoded
      gives the empty list. */
  function LoadSeances(stored: Option<seq<Seance>>): (r: seq<Seance>)
    ensures stored.None? ==> r == []
    ensures stored.Some? ==> multiset(r) == multiset(stored.value)
    ensures SortedDesc(r, DateOf)
  {
    match stored
    case None => []
    case Some(ss) => SortDesc(ss, DateOf)
  }

  /** `init()`: the stored user, or a fresh one named "User"; the sessions
      as `loadSeances()` returns them. `freshId` is the new `UUID()`. */
  function Init(storedUser: Option<User>, storedSeances: Option<seq<Seance>>, freshId: Id): (r: State)
    ensures storedUser.Some? ==> r.user == storedUser.value
    ensures storedUser.None? ==> r.user.name == "User" && r.user.id == freshId
    ensures r.seances == LoadSeances(storedSeances)
  {
    State(storedUser.GetOr(User(freshId, DefaultUserName)), LoadSeances(storedSeances))
  }

  /** `addSeance`: inserts at the front, without re-sorting. */
  function AddSeance(ss: seq<Seance>, s: Seance): (r: seq<Seance>)
    ensures |r| == |ss| + 1
    ensures r[0] == s && r[1..] == ss
  {
    [s] + ss
  }

  /** `updateSeance`: replaces the first session carrying the same id. */
  function UpdateSeance(ss: seq<Seance>, s: Seance): (r: seq<Seance>)
    ensures |r| == |ss|
    ensures (forall i :: 0 <= i < |ss| ==> ss[i].id != s.id) ==> r == ss
    ensures forall i :: 0 <= i < |ss| && ss[i].id == s.id && (forall j :: 0 <= j < i ==> ss[j].id != s.id)
                     ==> r[i] == s && forall j :: 0 <= j < |ss| && j != i ==> r[j] == ss[j]
  {
    match FirstIndex(ss, HasId(s.id))
    case None => ss
    case Some(i) => ss[i := s]
  }

  /** `deleteSeance`: removes every session carrying the same id. */
  function DeleteSeance(ss: seq<Seance>, s: Seance): (r: seq<Seance>)
    ensures forall i :: 0 <= i < |r| ==> r[i].id != s.id
    ensures forall x: Seance :: x.id != s.id ==> multiset(r)[x] == multiset(ss)[x]
    ensures (forall i :: 0 <= i < |ss| ==> ss[i].id != s.id) ==> r == ss
  {
    assert (forall i :: 0 <= i < |ss| ==> ss[i].id != s.id) ==> Filter(ss, OtherId(s.id)) == ss by {
      if forall i :: 0 <= i < |ss| ==> ss[i].id != s.id {
        FilterAll(ss, OtherId(s.id));
      }
    }
    Filter(ss, OtherId(s.id))
  }

  /** Deletion keeps the relative order of the sessions it keeps: deleting
      from a concatenation deletes from each part. */
  lemma DeleteSeanceConcat(a: seq<Seance>, b: seq<Seance>, s: Seance)
    ensures DeleteSeance(a + b, s) == DeleteSeance(a, s) + DeleteSeance(b, s)
  {
    FilterConcat(a, b, OtherId(s.id));
  }

  /** Adding does not keep the list sorted: a back-dated session lands
      at the head, ahead of a later one. */
  lemma AddBreaksOrder()
    ensures var ss := [Seance(1, 10, [], [])];
      SortedDesc(ss, DateOf) && !SortedDesc(AddSeance(ss, Seance(2, 5, [], [])), DateOf)
  {
    var r := AddSeance([Seance(1, 10, [], [])], Seance(2, 5, [], []));
    assert DateOf(r[0]) < DateOf(r[1]);
  }

  /** Deleting a session just added undoes the addition's effect on that id. */
  lemma DeleteAfterAdd(ss: seq<Seance>, s: Seance)
    ensures DeleteSeance(AddSeance(ss, s), s) == DeleteSeance(ss, s)
  {
    DeleteSeanceConcat([s], ss, s);
    assert AddSeance(ss, s) == [s] + ss;
    assert DeleteSeance([s], s) == [];
  }

  /** Updating the session just added replaces it at the head. */
  lemma UpdateAfterAdd(ss: seq<Seance>, s: Seance, s': Seance)
    requires s'.id == s.id
    ensures UpdateSeance(AddSeance(ss, s), s') == AddSeance(ss, s')
  {
  }

  /** An update never changes which sessions a later deletion of that id
      leaves behind. */
  lemma DeleteAfterUpdate(ss: seq<Seance>, s: Seance)
    ensures DeleteSeance(UpdateSeance(ss, s), s) == DeleteSeance(ss, s)
  {
    match FirstIndex(ss, HasId(s.id))
    case None =>
    case Some(i) =>
      var u := ss[i := s];
      assert ss == ss[..i] + [ss[i]] + ss[i + 1..];
      assert u == ss[..i] + [s] + ss[i + 1..];
      DeleteSeanceConcat(ss[..i] + [ss[i]], ss[i + 1..], s);
      DeleteSeanceConcat(ss[..i], [ss[i]], s);
      DeleteSeanceConcat(ss[..i] + [s], ss[i + 1..], s);
      DeleteSeanceConcat(ss[..i], [s], s);
      assert DeleteSeance([ss[i]], s) == [] == DeleteSeance([s], s);
  }
}
