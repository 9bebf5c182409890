# Player store of the wallet page

This project models the client-side player store kept by the wallet page component of `meta/src/App.js`. It also proves properties of that model.

The store holds a list of player records `{id, name, age, level, address}`. It changes the list through three handlers:

- **add** validates the add form's draft, gives it an id, appends it and resets the form;
- **update** merges a patch onto the records with a given id;
- **delete** filters out the records with a given id.

After each change the whole list is written to the browser's local storage, under the `players` entry. When the page mounts, the list is read back from there.

Layout:

- `wrappers.dfy`: `Option`.
- `players.dfy` (module `Players`): the record, draft and patch values, and the pure list transformations. These are `Appended` (add), `Updated` (the `map` with spread-merge) and `Removed` (the `filter`). Each comes with lemmas about ids, order and what is left unchanged.
- `validation.dfy` (module `Validation`): the field-keyed error map that validation builds, with its messages and lemmas.
- `app.dfy` (module `App`): class `PlayerStore`. Its fields are the component's state variables: `players`, `errors`, `newPlayer`, `editPlayer`, `showModal` and `showEditModal`. A `snapshot` field models the local storage entry. Each handler is a method that runs as one atomic step, and a state setter is an assignment to its field. The methods' `modifies` clauses name exactly the fields each handler sets.

Whether a non-empty form string counts as a positive number depends on JavaScript's coercion in `isNaN(s)` and `s <= 0`. The store therefore takes that test as a predicate `isPositiveNumber` given at construction. The model handles the `!s` emptiness test itself. So every property holds for any reading of "positive number", and an empty draft always fails on all four fields.

The new id is the id of the **last** record plus one, not the largest id plus one (`meta/src/App.js:141`). Two consequences are proved:

- a list with unique ids out of order gets a duplicate id on the next add (`UnsortedListCollides`);
- deleting the last record and adding again reuses ids (`RemoveLastNextId`, `DeleteLastReusesId`).

If the ids are strictly increasing, add, delete and the edit form's save all keep them so (`AddPlayer`, `DeletePlayer` and `SaveEdit` each ensure `old(IdsIncreasing(players)) ==> IdsIncreasing(players)`). So a store mounted on an absent snapshot, or on one whose ids increase, keeps its ids increasing and unique through these handlers. A store mounted on an unsorted snapshot does not: `[3, 2]` plus one add gives `[3, 2, 3]`.

## Model

| member | source | states |
|---|---|---|
| `Players.WithDraftField` | meta/src/App.js:136 | definition: `{...prev, [name]: value}`, the draft with the named field replaced by the typed value |
| `Players.WithPlayerField` | meta/src/App.js:329-360 | definition: `{...prev, name: value}` and its three siblings, the edited record with one form field replaced and the id kept |
| `Players.WithDraftFieldReads` | meta/src/App.js:134-137 | writing one draft field sets it to the typed value and leaves the other three fields as they were |
| `Players.WithPlayerFieldReads` | meta/src/App.js:327-360 | an edit-form keystroke sets one field of the edited record; the id and the other fields stay |
| `Players.IncreasingIsUnique` | meta/src/App.js:141-142 | strictly increasing ids are pairwise distinct |
| `Players.WithId` | meta/src/App.js:142 | definition: `{...newPlayer, id: newId}`, the draft's four fields under the given id |
| `Players.NextId` | meta/src/App.js:141 | definition: the last record's id plus one, or 1 for an empty list |
| `Players.Appended` | meta/src/App.js:142 | definition: `[...players, {...newPlayer, id: newId}]`, the old list followed by the draft under `NextId` |
| `Players.AppendedShape` | meta/src/App.js:141-142 | add gives the old list plus one record; the prefix is unchanged; the new record is the draft's fields with id = last id + 1, or 1 on an empty list |
| `Players.NextIdFresh` | meta/src/App.js:141 | on increasing ids the next id is larger than every existing id, so no record has it |
| `Players.AppendedKeepsIncreasing` | meta/src/App.js:141-142 | add keeps ids strictly increasing |
| `Players.UnsortedListCollides` | meta/src/App.js:141 | a list with unique ids [3, 2] gets id 3 again on add, so uniqueness is lost |
| `Players.IdsFromEmpty` | meta/src/App.js:141-142 | three adds from an empty list give ids 1, 2, 3 in that order, each with its draft's fields |
| `Players.Merge` | meta/src/App.js:31 | definition: `{...player, ...updatedData}`, each of the five keys from the patch where it has one, else from the record |
| `Players.FullPatch` | meta/src/App.js:373 | definition: the edited record as a patch carrying all five keys, as the Save button passes `editPlayer` |
| `Players.MergeLaws` | meta/src/App.js:31 | a full-record patch yields that record; the empty patch keeps the record; merging twice equals merging once; a patch without an id keeps the id |
| `Players.Updated` | meta/src/App.js:30-32 | same length and order; each record with the id becomes old merged with patch; every other record is unchanged |
| `Players.UpdatedNoMatch` | meta/src/App.js:30-32 | if no record has the id, the result equals the input list |
| `Players.UpdatedKeepsIds` | meta/src/App.js:31 | a patch with no id, or the target id, keeps every record's id at its position |
| `Players.UpdatedKeepsIncreasing` | meta/src/App.js:30-32 | such an update keeps ids strictly increasing |
| `Players.UpdatedIdempotent` | meta/src/App.js:30-32 | for every patch, updating twice equals updating once |
| `Players.UpdatedWithFullRecord` | meta/src/App.js:373 | saving an edited record replaces every record with its id by it and keeps the others |
| `Players.Removed` | meta/src/App.js:47 | a record is kept iff it was in the list with another id; the result is an in-order subsequence; its length is the old length minus the records that had the id |
| `Players.RemovedNoMatch` | meta/src/App.js:47 | deleting an id no record has gives back an equal list |
| `Players.RemovedIdempotent` | meta/src/App.js:46-49 | after a delete no record has the id, and deleting twice equals deleting once |
| `Players.RemovedKeepsIncreasing` | meta/src/App.js:47 | delete keeps ids strictly increasing |
| `Players.RemoveLastNextId` | meta/src/App.js:141 | on increasing ids, deleting the last record leaves exactly the front of the list, and the next id is then at most the deleted id, unless it was the only record and its id was below 1 |
| `Players.DeleteLastReusesId` | meta/src/App.js:141 | with ids 1, 2, 3, deleting 3 and adding again gives id 3 once more |
| `Validation.Message` | meta/src/App.js:79-86 | definition: the message stored under each failing field, "Name is required.", "Valid age is required.", "Valid level is required.", "Address is required." |
| `Validation.NumberOk` | meta/src/App.js:80-83 | definition: a numeric field passes when it is non-empty (`!s` false) and the injected positive-number test holds |
| `Validation.FieldOk` | meta/src/App.js:79-86 | definition: name and address pass when non-empty, age and level when `NumberOk` |
| `Validation.DraftErrors` | meta/src/App.js:78-86 | definition: the `newErrors` map, one entry per field whose check fails, holding that field's message |
| `Validation.DraftValid` | meta/src/App.js:89 | definition: `Object.keys(newErrors).length === 0`, the error map is empty |
| `Validation.DraftErrorsExactly` | meta/src/App.js:77-86 | name error iff name empty; address error iff address empty; age or level error iff the value is empty or not a positive number; each error is that field's message |
| `Validation.DraftValidIff` | meta/src/App.js:77-90 | the error map is empty iff all four field checks pass |
| `Validation.EmptyDraftFailsEverywhere` | meta/src/App.js:77-86 | the empty draft has an error on all four fields, whatever the number test says |
| `App.LoadPlayers` | meta/src/App.js:25-28 | definition: the stored list when an entry exists, else the empty list |
| `App.LoadAfterSave` | meta/src/App.js:22-28 | loading a saved list gives back that list; a missing entry loads as the empty list |
| `App.PlayerStore.constructor` | meta/src/App.js:52-56 | after mount: the list is the one the snapshot loads as; the draft is empty; no error, edit record or modal is present |
| `App.PlayerStore.SavePlayersToLocalStorage` | meta/src/App.js:22-24 | the snapshot becomes the whole given list and loads back as it; nothing else changes |
| `App.PlayerStore.GetPlayersFromLocalStorage` | meta/src/App.js:25-28 | returns what the snapshot loads as (`LoadPlayers`): the stored list, or the empty list when nothing is stored |
| `App.PlayerStore.UpdatePlayer` | meta/src/App.js:29-36 | the list becomes the merged list; snapshot == Some(players); edit modal closed and editPlayer cleared; no match leaves the list equal; an id-keeping patch keeps ids increasing |
| `App.PlayerStore.OpenEditModal` | meta/src/App.js:37-40 | the given record is being edited and the edit modal is shown; nothing else changes |
| `App.PlayerStore.CloseEditModal` | meta/src/App.js:41-44 | no record is being edited and the edit modal is hidden; nothing else changes |
| `App.PlayerStore.ChangeEditField` | meta/src/App.js:327-360 | one field of the edited record takes the typed value, and its id stays |
| `App.PlayerStore.SaveEdit` | meta/src/App.js:373 | every record with the edited id becomes the edited record, others stay, length kept; snapshot mirrors the list; modal closed; increasing ids stay increasing |
| `App.PlayerStore.DeletePlayer` | meta/src/App.js:46-50 | the list becomes the filtered list; no record with the id remains; snapshot == Some(players); increasing ids stay increasing |
| `App.PlayerStore.ValidateInputs` | meta/src/App.js:77-90 | the error map becomes the draft's field-keyed errors, and the result is true iff that map is empty; only the error map changes |
| `App.PlayerStore.OpenAddPlayerModal` | meta/src/App.js:125-127 | the add modal is shown; nothing else changes |
| `App.PlayerStore.CloseAddPlayerModal` | meta/src/App.js:129-132 | the add modal is hidden and the draft is all empty; the error map is left as it was |
| `App.PlayerStore.HandleInputChange` | meta/src/App.js:134-137 | the named draft field takes the typed value; the other draft fields and all other state are unchanged |
| `App.PlayerStore.AddPlayer` | meta/src/App.js:139-147 | errors set from the draft. On an invalid draft, list, snapshot, draft and modal are unchanged. On a valid one: one record appended with the next id, prefix kept, snapshot == Some(players), draft reset, modal closed. Increasing ids kept |

## Left out

- Wallet connection (`checkWalletConnection`, `connectWallet` and the `accountsChanged` listener, meta/src/App.js:58-75 and 91-123) is not modelled. These are asynchronous foreign calls into the browser wallet, an event subscription, and error strings shown in the UI.
- The JSX rendering and modal markup (meta/src/App.js:148-384) are not modelled. Two parts are kept: the edit form's field changes (`ChangeEditField`) and its Save button (`SaveEdit`). `ChangeEditField` and `SaveEdit` require a record to be under edit because the edit form reads `editPlayer.name` as it renders, so the form only exists while `editPlayer` is set.
- JSON serialisation is not modelled. The snapshot is the stored list itself. A stored text that fails to parse throws at mount; that exception is outside the model.
- JavaScript's number coercion is not modelled. `isNaN(s)` and `s <= 0` on form strings are the injected predicate `isPositiveNumber`; only the emptiness test `!s` is modelled directly.
- Ids are unbounded integers. The model does not capture double-precision rounding past 2^53. It also does not capture what `+ 1` and `===` do when a hand-edited snapshot holds ids that are not numbers, such as string concatenation.
- Patches carry only the five record keys. An object spread that adds other keys is not modelled. A draft field named other than the four inputs' names is not modelled either.
- React's asynchronous state updates and the handler closures' view of state are treated as one atomic step per handler. The `loading` flag and the unused `axios` import have no behaviour and are not modelled.
- `routes/players.js` is not modelled. Its Express handlers are thin wrappers over the database library's `findAll`, `create`, `findByPk`, `update` and `destroy`, whose behaviour is not visible here. Its only local logic is the not-found response.
- `server.js` (HTTP and CORS wiring, listening on port 3001) and `models/Player.js` (a declarative table schema) have no logic to model.
