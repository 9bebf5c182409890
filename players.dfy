/**
 * The records of the client-side player store and the pure list transformations
 * behind its three mutating handlers: append a draft under a new id, merge a patch
 * onto the records with a given id, and filter out the records with a given id.
 */
module Players {
  import opened Wrappers

  /** A stored record. The form fields stay strings, as the input elements deliver them. */
  datatype Player = Player(id: int, name: string, age: string, level: string, address: string)

  /** The add form's draft: the four form fields and no id yet. */
  datatype Draft = Draft(name: string, age: string, level: string, address: string)

  /** The four form fields, named after the inputs' `name` attributes. */
  datatype Field = Name | Age | Level | Address

  /** A partial record for an object spread: a `None` field keeps the old value. */
  datatype Patch = Patch(id: Option<int>, name: Option<string>, age: Option<string>,
                         level: Option<string>, address: Option<string>)

  /** The draft the add form starts from and is reset to. */
  const EmptyDraft := Draft("", "", "", "")

  /** The patch that changes nothing. */
  const NoChange := Patch(None, None, None, None, None)

  // ---------------------------------------------------------------------------
  // Form fields

  function DraftField(d: Draft, f: Field): string
  {
    match f
    case Name => d.name
    case Age => d.age
    case Level => d.level
    case Address => d.address
  }

  /** `{ ...d, [f]: v }`: the draft with one field overwritten. */
  function WithDraftField(d: Draft, f: Field, v: string): Draft
  {
    match f
    case Name => d.(name := v)
    case Age => d.(age := v)
    case Level => d.(level := v)
    case Address => d.(address := v)
  }

  /** Writing a draft field sets that field and leaves the other three alone. */
  lemma WithDraftFieldReads(d: Draft, f: Field, v: string, g: Field)
    ensures DraftField(WithDraftField(d, f, v), g) == if g == f then v else DraftField(d, g)
  {
  }

  function PlayerField(p: Player, f: Field): string
  {
    match f
    case Name => p.name
    case Age => p.age
    case Level => p.level
    case Address => p.address
  }

  /** `{ ...p, [f]: v }` on a record: one form field overwritten, the id kept. */
  function WithPlayerField(p: Player, f: Field, v: string): Player
  {
    match f
    case Name => p.(name := v)
    case Age => p.(age := v)
    case Level => p.(level := v)
    case Address => p.(address := v)
  }

  /** Editing a record's form field sets that field, keeps the id and the other fields. */
  lemma WithPlayerFieldReads(p: Player, f: Field, v: string, g: Field)
    ensures WithPlayerField(p, f, v).id == p.id
    ensures PlayerField(WithPlayerField(p, f, v), g) == if g == f then v else PlayerField(p, g)
  {
  }

  // ---------------------------------------------------------------------------
  // Ids

  /** Ids strictly increase from the front of the list to its back. */
  predicate IdsIncreasing(s: seq<Player>)
  {
    forall i, j :: 0 <= i < j < |s| ==> s[i].id < s[j].id
  }

  /** No two records share an id. */
  predicate IdsUnique(s: seq<Player>)
  {
    forall i, j :: 0 <= i < |s| && 0 <= j < |s| && i != j ==> s[i].id != s[j].id
  }

  /** Some record carries `id`. */
  predicate HasId(s: seq<Player>, id: int)
  {
    exists i :: 0 <= i < |s| && s[i].id == id
  }

  lemma IncreasingIsUnique(s: seq<Player>)
    requires IdsIncreasing(s)
    ensures IdsUnique(s)
  {
  }

  // ---------------------------------------------------------------------------
  // Add

  /** `{ ...newPlayer, id }`: the draft's fields under the given id. */
  function WithId(d: Draft, id: int): Player
  {
    Player(id, d.name, d.age, d.level, d.address)
  }

  /** The id a new record gets: the LAST record's id plus one, or 1 for an empty list. */
  function NextId(players: seq<Player>): int
  {
    if |players| > 0 then players[|players| - 1].id + 1 else 1
  }

  /** `[...players, { ...newPlayer, id: newId }]` */
  function Appended(players: seq<Player>, d: Draft): seq<Player>
  {
    players + [WithId(d, NextId(players))]
  }

  /** Adding appends one record carrying the draft's fields and the next id, and keeps the old prefix. */
  lemma AppendedShape(players: seq<Player>, d: Draft)
    ensures |Appended(players, d)| == |players| + 1
    ensures Appended(players, d)[..|players|] == players
    ensures Appended(players, d)[|players|] == WithId(d, NextId(players))
    ensures |players| == 0 ==> NextId(players) == 1
    ensures |players| > 0 ==> NextId(players) == players[|players| - 1].id + 1
  {
  }

  /** On a list with increasing ids the next id exceeds every id in it, so it is new. */
  lemma NextIdFresh(players: seq<Player>)
    requires IdsIncreasing(players)
    ensures forall i :: 0 <= i < |players| ==> players[i].id < NextId(players)
    ensures !HasId(players, NextId(players))
  {
  }

  /** Adding keeps ids increasing, hence unique. */
  lemma AppendedKeepsIncreasing(players: seq<Player>, d: Draft)
    requires IdsIncreasing(players)
    ensures IdsIncreasing(Appended(players, d))
  {
    NextIdFresh(players);
    var r := Appended(players, d);
    forall i, j | 0 <= i < j < |r| ensures r[i].id < r[j].id {
      if j < |players| {
        assert r[i] == players[i] && r[j] == players[j];
      } else {
        assert r[i] == players[i];
      }
    }
  }

  /**
   * Because the id is taken from the last record and not the largest, a list whose
   * ids are unique but out of order gets a duplicate id on the next add.
   */
  lemma UnsortedListCollides(d: Draft)
    ensures var s := [Player(3, "a", "1", "1", "x"), Player(2, "b", "1", "1", "y")];
            IdsUnique(s) && NextId(s) == 3 && !IdsUnique(Appended(s, d))
  {
    var s := [Player(3, "a", "1", "1", "x"), Player(2, "b", "1", "1", "y")];
    var r := Appended(s, d);
    assert r[0].id == 3 && r[2].id == 3;
  }

  /** Three adds starting from an empty list give the ids 1, 2 and 3 in order. */
  lemma IdsFromEmpty(a: Draft, b: Draft, c: Draft)
    ensures var s := Appended(Appended(Appended([], a), b), c);
            |s| == 3 && s[0] == WithId(a, 1) && s[1] == WithId(b, 2) && s[2] == WithId(c, 3)
  {
  }

  // ---------------------------------------------------------------------------
  // Update

  /** `{ ...p, ...patch }` */
  function Merge(p: Player, patch: Patch): Player
  {
    Player(patch.id.GetOr(p.id), patch.name.GetOr(p.name), patch.age.GetOr(p.age),
           patch.level.GetOr(p.level), patch.address.GetOr(p.address))
  }

  /** A whole record used as a patch, as the edit form's Save button passes it. */
  function FullPatch(p: Player): Patch
  {
    Patch(Some(p.id), Some(p.name), Some(p.age), Some(p.level), Some(p.address))
  }

  /** A full patch replaces the record; the empty patch keeps it; merging twice is merging once. */
  lemma MergeLaws(p: Player, q: Player, patch: Patch)
    ensures Merge(p, FullPatch(q)) == q
    ensures Merge(p, NoChange) == p
    ensures Merge(Merge(p, patch), patch) == Merge(p, patch)
    ensures patch.id.None? ==> Merge(p, patch).id == p.id
  {
  }

  /** `players.map(p => p.id === id ? { ...p, ...patch } : p)` */
  function Updated(players: seq<Player>, id: int, patch: Patch): (r: seq<Player>)
    ensures |r| == |players|
    ensures forall i :: 0 <= i < |players| ==>
              r[i] == if players[i].id == id then Merge(players[i], patch) else players[i]
  {
    if players == [] then []
    else
      [if players[0].id == id then Merge(players[0], patch) else players[0]]
      + Updated(players[1..], id, patch)
  }

  /** Updating an id that no record carries gives back an equal list. */
  lemma UpdatedNoMatch(players: seq<Player>, id: int, patch: Patch)
    requires !HasId(players, id)
    ensures Updated(players, id, patch) == players
  {
    var r := Updated(players, id, patch);
    assert forall i :: 0 <= i < |players| ==> r[i] == players[i];
  }

  /** A patch without an id, or with the target id, keeps every record's id in place. */
  lemma UpdatedKeepsIds(players: seq<Player>, id: int, patch: Patch)
    requires patch.id.None? || patch.id == Some(id)
    ensures forall i :: 0 <= i < |players| ==> Updated(players, id, patch)[i].id == players[i].id
  {
  }

  /** Such an update keeps ids increasing, hence unique. */
  lemma UpdatedKeepsIncreasing(players: seq<Player>, id: int, patch: Patch)
    requires patch.id.None? || patch.id == Some(id)
    requires IdsIncreasing(players)
    ensures IdsIncreasing(Updated(players, id, patch))
  {
    UpdatedKeepsIds(players, id, patch);
  }

  /**
   * Any patch applied twice has the effect of applying it once: a record merged
   * the first time either still carries the id, and merging again changes nothing,
   * or the patch moved it to another id, out of reach of the second update.
   */
  lemma UpdatedIdempotent(players: seq<Player>, id: int, patch: Patch)
    ensures Updated(Updated(players, id, patch), id, patch) == Updated(players, id, patch)
  {
    var once := Updated(players, id, patch);
    var twice := Updated(once, id, patch);
    forall i | 0 <= i < |players| ensures twice[i] == once[i] {
      MergeLaws(players[i], players[i], patch);
    }
  }

  /** The edit form's save: every record with the edited record's id becomes that record. */
  lemma UpdatedWithFullRecord(players: seq<Player>, e: Player)
    ensures forall i :: 0 <= i < |players| ==>
              Updated(players, e.id, FullPatch(e))[i] == if players[i].id == e.id then e else players[i]
  {
    forall i | 0 <= i < |players| {
      MergeLaws(players[i], e, NoChange);
    }
  }

  // ---------------------------------------------------------------------------
  // Delete

  /** `a` occurs in `b` in order, possibly with gaps. */
  predicate IsSubsequence<T(==)>(a: seq<T>, b: seq<T>)
    decreases |b|
  {
    if a == [] then true
    else if b == [] then false
    else if a[0] == b[0] then IsSubsequence(a[1..], b[1..])
    else IsSubsequence(a, b[1..])
  }

  /** The number of records carrying `id`. */
  function CountId(s: seq<Player>, id: int): nat
  {
    if s == [] then 0 else (if s[0].id == id then 1 else 0) + CountId(s[1..], id)
  }

  /**
   * `players.filter(p => p.id !== id)`: the records with another id, in their
   * order; exactly the records carrying `id` are dropped.
   */
  function Removed(players: seq<Player>, id: int): (r: seq<Player>)
    ensures forall p :: p in r <==> p in players && p.id != id
    ensures IsSubsequence(r, players)
    ensures |r| + CountId(players, id) == |players|
  {
    if players == [] then []
    else if players[0].id == id then Removed(players[1..], id)
    else [players[0]] + Removed(players[1..], id)
  }

  /** Deleting an id that no record carries gives back an equal list. */
  lemma {:induction false} RemovedNoMatch(players: seq<Player>, id: int)
    requires !HasId(players, id)
    ensures Removed(players, id) == players
  {
    if players != [] {
      assert players[0].id != id;
      assert !HasId(players[1..], id) by {
        forall i | 0 <= i < |players[1..]| ensures players[1..][i].id != id {
          assert players[1..][i] == players[i + 1];
        }
      }
      RemovedNoMatch(players[1..], id);
      assert players == [players[0]] + players[1..];
    }
  }

  /** No record with the deleted id remains, and deleting twice equals deleting once. */
  lemma RemovedIdempotent(players: seq<Player>, id: int)
    ensures !HasId(Removed(players, id), id)
    ensures Removed(Removed(players, id), id) == Removed(players, id)
  {
    var r := Removed(players, id);
    assert !HasId(r, id) by {
      forall i | 0 <= i < |r| ensures r[i].id != id {
        assert r[i] in r;
      }
    }
    RemovedNoMatch(r, id);
  }

  /** Every id left after a delete is one the list had, so a lower bound on ids survives it. */
  lemma RemovedBounded(players: seq<Player>, id: int, lo: int)
    requires forall i :: 0 <= i < |players| ==> lo < players[i].id
    ensures forall i :: 0 <= i < |Removed(players, id)| ==> lo < Removed(players, id)[i].id
  {
    var r := Removed(players, id);
    forall i | 0 <= i < |r| ensures lo < r[i].id {
      assert r[i] in players;
    }
  }

  /** Deleting keeps ids increasing, hence unique. */
  lemma {:induction false} RemovedKeepsIncreasing(players: seq<Player>, id: int)
    requires IdsIncreasing(players)
    ensures IdsIncreasing(Removed(players, id))
  {
    if players != [] {
      var rest := players[1..];
      assert IdsIncreasing(rest) by {
        forall i, j | 0 <= i < j < |rest| ensures rest[i].id < rest[j].id {
          assert rest[i] == players[i + 1] && rest[j] == players[j + 1];
        }
      }
      RemovedKeepsIncreasing(rest, id);
      if players[0].id != id {
        var tail := Removed(rest, id);
        assert forall i :: 0 <= i < |rest| ==> players[0].id < rest[i].id by {
          forall i | 0 <= i < |rest| ensures players[0].id < rest[i].id {
            assert rest[i] == players[i + 1];
          }
        }
        RemovedBounded(rest, id, players[0].id);
        var r := [players[0]] + tail;
        assert Removed(players, id) == r;
        forall i, j | 0 <= i < j < |r| ensures r[i].id < r[j].id {
          assert r[j] == tail[j - 1];
          if i > 0 {
            assert r[i] == tail[i - 1];
          }
        }
      }
    }
  }

  /** Deleting from a concatenation deletes from each part. */
  lemma {:induction false} RemovedAppend(a: seq<Player>, b: seq<Player>, id: int)
    ensures Removed(a + b, id) == Removed(a, id) + Removed(b, id)
  {
    if a != [] {
      assert (a + b)[1..] == a[1..] + b;
      RemovedAppend(a[1..], b, id);
    } else {
      assert a + b == b;
    }
  }

  /** Deleting the id of a last record that no earlier record shares removes just that record. */
  lemma RemovedLast(front: seq<Player>, last: Player)
    requires !HasId(front, last.id)
    ensures Removed(front + [last], last.id) == front
  {
    RemovedAppend(front, [last], last.id);
    assert Removed([last], last.id) == [];
    RemovedNoMatch(front, last.id);
  }

  /** On a list with increasing ids, the last id occurs nowhere before the last record. */
  lemma LastIdNotInFront(players: seq<Player>)
    requires IdsIncreasing(players) && |players| > 0
    ensures !HasId(players[..|players| - 1], players[|players| - 1].id)
    ensures |players| > 1 ==> players[|players| - 2].id < players[|players| - 1].id
  {
    var front := players[..|players| - 1];
    forall i | 0 <= i < |front| ensures front[i].id != players[|players| - 1].id {
      assert front[i] == players[i];
    }
  }

  /**
   * On a list with increasing ids, deleting the last record and adding again
   * gives the new record an id no larger than the one just deleted, so ids are
   * reused: the next id is computed from the list as it is now.
   */
  lemma RemoveLastNextId(players: seq<Player>)
    requires IdsIncreasing(players) && |players| > 0
    ensures var last := players[|players| - 1];
            Removed(players, last.id) == players[..|players| - 1] &&
            ((|players| > 1 || last.id >= 1) ==> NextId(Removed(players, last.id)) <= last.id)
  {
    var n := |players|;
    var last := players[n - 1];
    var front := players[..n - 1];
    LastIdNotInFront(players);
    assert players == front + [last];
    RemovedLast(front, last);
  }

  /** With the ids 1, 2, 3, deleting 3 and adding again hands out 3 once more. */
  lemma DeleteLastReusesId(a: Draft, b: Draft, c: Draft, d: Draft)
    ensures var s := [WithId(a, 1), WithId(b, 2), WithId(c, 3)];
            NextId(Removed(s, 3)) == 3 && Appended(Removed(s, 3), d)[2].id == 3
  {
    var s := [WithId(a, 1), WithId(b, 2), WithId(c, 3)];
    RemoveLastNextId(s);
    assert s[..2] == [WithId(a, 1), WithId(b, 2)];
  }
}
