/**
 * The player store held by the wallet page component (meta/src/App.js): its state
 * variables are the fields of `PlayerStore`, its handlers are the methods. Each
 * handler runs as one atomic step, and a state setter is an assignment to the field
 * it sets. The `players` entry of the browser's local storage is the `snapshot`
 * field: `None` while nothing is stored, otherwise the stored list.
 */
module App {
  import opened Wrappers
  import opened Players
  import opened Validation

  /** The list a snapshot loads as: the stored list, or the empty list when nothing is stored. */
  function LoadPlayers(stored: Option<seq<Player>>): seq<Player>
  {
    if stored.Some? then stored.value else []
  }

  /** Loading what was saved gives back the saved list; an absent snapshot loads as empty. */
  lemma LoadAfterSave(list: seq<Player>)
    ensures LoadPlayers(Some(list)) == list
    ensures LoadPlayers(None) == []
  {
  }

  class PlayerStore {
    /** The browser's "is a positive number" reading of a non-empty form string. */
    const isPositiveNumber: string -> bool

    var players: seq<Player>
    var snapshot: Option<seq<Player>>
    var errors: map<Field, string>
    var newPlayer: Draft
    var editPlayer: Option<Player>
    var showModal: bool
    var showEditModal: bool

    /** The in-memory list is what the snapshot loads as. */
    predicate Mirrored()
      reads this
    {
      players == LoadPlayers(snapshot)
    }

    /** Mounting: the initial state values, then the effect that loads the list from the snapshot. */
    constructor (stored: Option<seq<Player>>, isPositiveNumber: string -> bool)
      ensures this.isPositiveNumber == isPositiveNumber
      ensures snapshot == stored && players == LoadPlayers(stored) && Mirrored()
      ensures errors == map[] && newPlayer == EmptyDraft && editPlayer == None
      ensures !showModal && !showEditModal
    {
      this.isPositiveNumber := isPositiveNumber;
      players := [];
      snapshot := stored;
      errors := map[];
      newPlayer := EmptyDraft;
      editPlayer := None;
      showModal := false;
      showEditModal := false;
      new;
      var initialPlayers := GetPlayersFromLocalStorage();
      players := initialPlayers;
    }

    /** Overwrites the snapshot with the whole list. */
    method SavePlayersToLocalStorage(playersData: seq<Player>)
      modifies this`snapshot
      ensures snapshot == Some(playersData)
      ensures LoadPlayers(snapshot) == playersData
    {
      snapshot := Some(playersData);
    }

    /** Reads the snapshot back: the stored list, or empty when nothing is stored. */
    method GetPlayersFromLocalStorage() returns (stored: seq<Player>)
      ensures stored == LoadPlayers(snapshot)
    {
      stored := LoadPlayers(snapshot);
    }

    /**
     * Merges the patch onto every record with the id, keeps the rest, saves the
     * whole list and closes the edit modal.
     */
    method UpdatePlayer(playerId: int, updatedData: Patch)
      modifies this`players, this`snapshot, this`editPlayer, this`showEditModal
      ensures players == Updated(old(players), playerId, updatedData)
      ensures snapshot == Some(players) && Mirrored()
      ensures editPlayer == None && !showEditModal
      ensures !HasId(old(players), playerId) ==> players == old(players)
      ensures (updatedData.id.None? || updatedData.id == Some(playerId)) && old(IdsIncreasing(players)) ==>
                IdsIncreasing(players)
    {
      ghost var before := players;
      var updatedPlayers := Updated(players, playerId, updatedData);
      players := updatedPlayers;
      SavePlayersToLocalStorage(updatedPlayers);
      CloseEditModal();
      if !HasId(before, playerId) {
        UpdatedNoMatch(before, playerId, updatedData);
      }
      if (updatedData.id.None? || updatedData.id == Some(playerId)) && IdsIncreasing(before) {
        UpdatedKeepsIncreasing(before, playerId, updatedData);
      }
    }

    method OpenEditModal(player: Player)
      modifies this`editPlayer, this`showEditModal
      ensures editPlayer == Some(player) && showEditModal
    {
      editPlayer := Some(player);
      showEditModal := true;
    }

    method CloseEditModal()
      modifies this`editPlayer, this`showEditModal
      ensures editPlayer == None && !showEditModal
    {
      editPlayer := None;
      showEditModal := false;
    }

    /**
     * Typing into the edit form: one form field of the record being edited changes.
     * The form is only on screen while a record is being edited.
     */
    method ChangeEditField(field: Field, value: string)
      requires editPlayer.Some?
      modifies this`editPlayer
      ensures editPlayer == Some(WithPlayerField(old(editPlayer).value, field, value))
      ensures editPlayer.value.id == old(editPlayer).value.id
    {
      editPlayer := Some(WithPlayerField(editPlayer.value, field, value));
    }

    /**
     * The edit form's Save button: updates the edited record's id with the whole
     * edited record as the patch. Every record with that id becomes the edited
     * record, and increasing ids stay increasing.
     */
    method SaveEdit()
      requires editPlayer.Some?
      modifies this`players, this`snapshot, this`editPlayer, this`showEditModal
      ensures players == Updated(old(players), old(editPlayer).value.id, FullPatch(old(editPlayer).value))
      ensures |players| == |old(players)|
      ensures forall i :: 0 <= i < |players| ==>
                players[i] == if old(players)[i].id == old(editPlayer).value.id
                              then old(editPlayer).value else old(players)[i]
      ensures snapshot == Some(players) && Mirrored()
      ensures editPlayer == None && !showEditModal
      ensures old(IdsIncreasing(players)) ==> IdsIncreasing(players)
    {
      var edited := editPlayer.value;
      UpdatedWithFullRecord(players, edited);
      UpdatePlayer(edited.id, FullPatch(edited));
    }

    /** Drops every record with the id, keeps the rest in order, and saves the whole list. */
    method DeletePlayer(playerId: int)
      modifies this`players, this`snapshot
      ensures players == Removed(old(players), playerId)
      ensures !HasId(players, playerId)
      ensures snapshot == Some(players) && Mirrored()
      ensures old(IdsIncreasing(players)) ==> IdsIncreasing(players)
    {
      ghost var before := players;
      var updatedPlayers := Removed(players, playerId);
      players := updatedPlayers;
      SavePlayersToLocalStorage(updatedPlayers);
      RemovedIdempotent(before, playerId);
      if IdsIncreasing(before) {
        RemovedKeepsIncreasing(before, playerId);
      }
    }

    /**
     * Collects one message per failing field of the draft, stores the collection
     * as the error map, and reports whether it is empty.
     */
    method ValidateInputs() returns (ok: bool)
      modifies this`errors
      ensures errors == DraftErrors(newPlayer, isPositiveNumber)
      ensures ok <==> DraftValid(newPlayer, isPositiveNumber)
    {
      var newErrors: map<Field, string> := map[];
      if newPlayer.name == "" {
        newErrors := newErrors[Name := NameRequired];
      }
      if newPlayer.age == "" || !isPositiveNumber(newPlayer.age) {
        newErrors := newErrors[Age := AgeRequired];
      }
      if newPlayer.level == "" || !isPositiveNumber(newPlayer.level) {
        newErrors := newErrors[Level := LevelRequired];
      }
      if newPlayer.address == "" {
        newErrors := newErrors[Address := AddressRequired];
      }
      DraftErrorsExactly(newPlayer, isPositiveNumber);
      assert newErrors == DraftErrors(newPlayer, isPositiveNumber);
      errors := newErrors;
      ok := |newErrors| == 0;
    }

    method OpenAddPlayerModal()
      modifies this`showModal
      ensures showModal
    {
      showModal := true;
    }

    /** Closes the add modal and resets the draft; the error map is left as it is. */
    method CloseAddPlayerModal()
      modifies this`showModal, this`newPlayer
      ensures !showModal && newPlayer == EmptyDraft
    {
      showModal := false;
      newPlayer := EmptyDraft;
    }

    /** Typing into the add form: the named draft field takes the typed value. */
    method HandleInputChange(name: Field, value: string)
      modifies this`newPlayer
      ensures newPlayer == WithDraftField(old(newPlayer), name, value)
      ensures DraftField(newPlayer, name) == value
      ensures forall g :: g != name ==> DraftField(newPlayer, g) == DraftField(old(newPlayer), g)
    {
      newPlayer := WithDraftField(newPlayer, name, value);
      forall g {
        WithDraftFieldReads(old(newPlayer), name, value, g);
      }
    }

    /**
     * Validates the draft. If it fails, only the error map changes. If it passes,
     * the draft is appended under the last record's id plus one (1 for an empty
     * list), the whole list is saved, the draft is reset and the add modal closes.
     */
    method AddPlayer()
      modifies this`errors, this`players, this`snapshot, this`showModal, this`newPlayer
      ensures errors == DraftErrors(old(newPlayer), isPositiveNumber)
      ensures DraftValid(old(newPlayer), isPositiveNumber) ==>
                && players == Appended(old(players), old(newPlayer))
                && |players| == |old(players)| + 1
                && players[..|old(players)|] == old(players)
                && players[|old(players)|] == WithId(old(newPlayer), NextId(old(players)))
                && snapshot == Some(players) && Mirrored()
                && newPlayer == EmptyDraft && !showModal
      ensures !DraftValid(old(newPlayer), isPositiveNumber) ==>
                && players == old(players) && snapshot == old(snapshot)
                && newPlayer == old(newPlayer) && showModal == old(showModal)
      ensures old(Mirrored()) ==> Mirrored()
      ensures old(IdsIncreasing(players)) ==> IdsIncreasing(players)
    {
      var ok := ValidateInputs();
      if ok {
        var newId := if |players| > 0 then players[|players| - 1].id + 1 else 1;
        var updatedPlayers := players + [WithId(newPlayer, newId)];
        AppendedShape(players, newPlayer);
        if IdsIncreasing(players) {
          AppendedKeepsIncreasing(players, newPlayer);
        }
        players := updatedPlayers;
        SavePlayersToLocalStorage(updatedPlayers);
        CloseAddPlayerModal();
      }
    }
  }
}
