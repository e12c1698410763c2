# Data Lasso store, modelled in Dafny

Data Lasso is a 3D visualisation tool: a user uploads tabular data, maps
attributes to axes, lasso-selects points and zooms into a selection, with
the option to zoom back out. All of its state lives in one store
(`src/store/index.js`), a Flux-style singleton that receives actions one at
a time from a dispatcher. Each action has a string `actionType`, and the
store's `dispatchCallback` switches on that string to a handler.

- `options-set` replaces the configuration.
- `file-uploaded` runs the data transform and resets the zoom history.
- `selection-started` and `selection-stopped` toggle the mode and the controls.
- `selection-made` sets each entry's `isSelected` flag.
- `axis-mappings-updated` replaces the mappings and recomputes the scales.
- `entry-hovered` sets the focused entry.
- `zoom-in` pushes a snapshot and narrows the entries to the selected ones.
- `zoom-out` pops the snapshot and restores it.

The project has five modules.

- `Domain` (domain.dfy): entries, snapshots, actions and the data-transform
  interface. Attributes, scales, mappings, options, raw uploads and entry
  values are opaque types.
- `Selection` (selection.dfy): the membership pass of `selection-made` and
  the filter pass of `zoom-in`, with lemmas that pin both down.
- `Transitions` (transitions.dfy): the store state as a value and each
  action as a function of the old state. Lemmas cover action sequences: the
  zoom round trip, nested zooms, zoom-out after a detour inside a zoom, the
  unique-id invariant and the flag/selection agreement invariant.
- `Store` (store.dfy): the store as a class, `DataModel`, with one field
  per piece of state and one method per handler. The `selection-made` and
  `zoom-in` passes are loops. Every method is proved to move the state
  exactly as the matching `Transitions` function says. Entries are values,
  so a snapshot keeps the entries as they were: this is the behaviour the
  round trip is meant to have.
- `AliasedStore` (aliased_store.dfy): the same zoom handlers under the
  source's reference semantics. Entries are objects shared by the live list
  and the snapshots, and the handlers write `isSelected` in place. This
  module shows the discrepancy recorded under "## Findings".

`datahelper.processInput` and `datahelper.getUpdatedScales` are fields of a
`Transform` value holding two arbitrary total functions, because their code
is not part of this model. The store keeps them as a constant.

In two places the model follows the code where one might expect otherwise.
- `file-uploaded` does not reset `selectedEntries`
  (src/store/index.js:85-90). The list from before the upload stays.
- `selection-made` stores the id list verbatim, including ids that match no
  entry (src/store/index.js:133-136). So the selection list may name ids
  that no entry has. `Transitions.NewSelection` states this.

Zoom-out with an empty history: `snapshots.pop()` yields `undefined` and
reading `.entries` from it throws before `this.set` runs
(src/store/index.js:180-183). The model therefore leaves the state
unchanged and reports `StackUnderflow`. An unrecognised `actionType` also
leaves the state unchanged and reports `Unrecognized`.

## Model

| member | source | states |
|---|---|---|
| `Selection.MarkSelection` | src/store/index.js:128-131 | the membership pass yields exactly one entry per entry it is given; `MarkSelectionSpec` pins down each of them |
| `Selection.MarkSelectionAt` | src/store/index.js:128-131 | entry i after the membership pass is entry i with its flag set to whether its id is in the list |
| `Selection.MarkSelectionSpec` | src/store/index.js:128-131 | the pass keeps the length, order, ids and values; each flag is true if and only if the id is in the list |
| `Selection.MarkSelectionLastWins` | src/store/index.js:126-137 | a second selection overrides the first entirely |
| `Selection.MarkSelectionIdempotent` | src/store/index.js:126-137 | selecting the same list twice gives the same flags as selecting it once |
| `Selection.MarkSelectionKeepsUniqueIds` | src/store/index.js:128-131 | selection keeps ids unique |
| `Selection.KeepSelected` | src/store/index.js:143-148 | the zoom filter never yields more entries than it is given; `KeepSelectedSpec` says which |
| `Selection.KeepSelectedSpec` | src/store/index.js:143-148 | the zoom filter yields exactly the selected entries, at strictly increasing positions, in original order, each with its flag cleared; every selected position is among them |
| `Selection.KeepSelectedClearsFlags` | src/store/index.js:143-148 | no entry kept by the zoom filter is flagged |
| `Selection.KeepSelectedKeepsUniqueIds` | src/store/index.js:143-148 | the zoom filter keeps ids unique |
| `Transitions.OptionsSet` | src/store/index.js:42-44 | the configuration becomes the action's; nothing else changes |
| `Transitions.FileUploaded` | src/store/index.js:83-91 | entries, attributes and scales come from processInput(raw, current options); the history is emptied; every other field is kept |
| `Transitions.SelectionStarted` | src/store/index.js:96-101 | mode is selection and controls are off, whatever the prior state; nothing else changes |
| `Transitions.SelectionStopped` | src/store/index.js:106-111 | mode is normal and controls are on, whatever the prior state; nothing else changes |
| `Transitions.NewMappings` | src/store/index.js:116-121 | mappings replaced; scales are getUpdatedScales over the current entries; entries and all else unchanged |
| `Transitions.NewSelection` | src/store/index.js:126-137 | entries keep length, order, ids and values; each flag is true if and only if its id is in the list; the list is stored verbatim; flags and list agree |
| `Transitions.Hovered` | src/store/index.js:66-68 | the focused entry becomes the action's (possibly none); nothing else changes |
| `Transitions.Capture` | src/store/index.js:170 | the snapshot holds exactly the five fields picked from the state: writing it back into the state it was taken from changes nothing |
| `Transitions.ZoomIn` | src/store/index.js:142-156 | pushes one snapshot of the pre-zoom five fields; entries become the cleared selected subsequence; the selection is empty; scales are recomputed over the new entries; mappings, attributes and the rest are unchanged |
| `Transitions.ZoomOut` | src/store/index.js:179-190 | fails exactly on an empty history; otherwise the history shrinks by one, the top snapshot's five fields are restored and nothing else changes |
| `Transitions.Dispatch` | src/store/index.js:40-78 | unrecognised exactly for types outside the nine cases; underflow exactly for zoom-out on an empty history; both leave the state unchanged; mode and controls after the selection toggles; only upload and zooms touch the history |
| `Transitions.ZoomRoundTrip` | src/store/index.js:142-190 | zoom-in grows the history by one; zoom-in then zoom-out gives back the whole prior state, flags included |
| `Transitions.NestedZooms` | src/store/index.js:142-190 | n zoom-ins grow the history by n; n zoom-outs after them give back the state from before |
| `Transitions.RunKeepsHistory` | src/store/index.js:40-137 | actions other than upload and the zooms never change the history |
| `Transitions.ZoomOutAfterDetour` | src/store/index.js:142-190 | after any actions inside a zoom other than upload and zooms, zoom-out restores the pre-zoom entries, mappings, scales, attributes, selection and history |
| `Transitions.IdsUniquePreserved` | src/store/index.js:40-190 | every action keeps entry ids unique, live and in every snapshot, provided an upload's transform output has unique ids |
| `Transitions.SelectionConsistentPreserved` | src/store/index.js:40-190 | every action except upload keeps flags in agreement with the selection list, live and in every snapshot |
| `Transitions.UploadSelectZoomScenario` | src/store/index.js:83-190 | upload three entries, select ids 1 and 3, zoom in: two unflagged entries and one snapshot; zoom out: the selected entries with their flags and an empty history |
| `Store.DataModel.constructor` | src/store/index.js:25-31 | the store starts from the initial state it is given |
| `Store.DataModel.DispatchCallback` | src/store/index.js:40-78 | new state and status are exactly those of Transitions.Dispatch |
| `Store.DataModel.OnFileUpload` | src/store/index.js:83-91 | new state is Transitions.FileUploaded of the old |
| `Store.DataModel.OnSelectionStart` | src/store/index.js:96-101 | new state is Transitions.SelectionStarted of the old |
| `Store.DataModel.OnSelectionStop` | src/store/index.js:106-111 | new state is Transitions.SelectionStopped of the old |
| `Store.DataModel.OnNewMappings` | src/store/index.js:116-121 | new state is Transitions.NewMappings of the old |
| `Store.DataModel.OnNewSelection` | src/store/index.js:126-137 | the membership loop yields Transitions.NewSelection of the old state |
| `Store.DataModel.OnZoomIn` | src/store/index.js:142-156 | the filter loop, the snapshot and the update yield Transitions.ZoomIn of the old state |
| `Store.DataModel.OnZoomOut` | src/store/index.js:161-163 | restores the top snapshot as Transitions.ZoomOut says, or reports underflow and changes nothing |
| `Store.DataModel.SaveDataSnapshot` | src/store/index.js:168-174 | appends a snapshot of the current five fields; nothing else changes |
| `Store.DataModel.RestoreLastDataSnapshot` | src/store/index.js:179-190 | pops and restores the top snapshot, or reports underflow with the state unchanged |
| `AliasedStore.KeepFlagged` | src/store/index.js:143-148 | the filter over entry objects never yields more objects than it is given |
| `AliasedStore.KeepFlaggedSpec` | src/store/index.js:143-148 | the filter over entry objects keeps exactly the flagged objects themselves, at strictly increasing positions, in original order; every flagged position is among them |
| `AliasedStore.KeepFlaggedDistinct` | src/store/index.js:143-148 | the objects the zoom filter keeps come from the list, none twice |
| `AliasedStore.ClearSelected` | src/store/index.js:143-148 | in-place filter: keeps the objects flagged at the start, in order, and leaves every object in the list unflagged |
| `AliasedStore.SharedDataModel.constructor` | src/store/index.js:25-31 | the store starts with the given entry objects and an empty history |
| `AliasedStore.SharedDataModel.OnNewSelection` | src/store/index.js:126-137 | the same objects stay, each flag written in place to whether its id is in the list; the list is stored |
| `AliasedStore.SharedDataModel.OnZoomIn` | src/store/index.js:142-156 | the snapshot holds the old objects; the new list holds those flagged before, in order; every old object ends unflagged |
| `AliasedStore.SharedDataModel.SaveDataSnapshot` | src/store/index.js:168-174 | appends a snapshot holding references to the current objects |
| `AliasedStore.SharedDataModel.OnZoomOut` | src/store/index.js:161-190 | restores the top snapshot's references and fields, or reports underflow with nothing changed; writes no flag |
| `AliasedStore.SharedDataModel.ZoomInThenOut` | src/store/index.js:142-190 | as written, zoom-in then zoom-out gives back the same objects and selection list, with every flag cleared |
| `AliasedStore.SelectFirstAndLastThenZoomIn` | src/store/index.js:126-174 | selecting ids 1 and 3 of three objects flags them; zoom-in then leaves all three unflagged, with the snapshot holding all three |
| `AliasedStore.LostFlagsScenario` | src/store/index.js:142-190 | flags true, false, true before zoom-in; false, false, false after zoom-out, while the list [1, 3] comes back |
| `AliasedStore.DetourScenario` | src/store/index.js:126-190 | a selection of id 1 inside the zoom writes through to the saved objects: after zoom-out the flags are true, false, false beside the list [1, 3] |

## Findings

| source | as written | input that shows it | evidently intended | confidence | as-written member | corrected member |
|---|---|---|---|---|---|---|
| src/store/index.js:142-190 | `onZoomIn` clears `isSelected` on the entry objects themselves (line 145) before `saveDataSnapshot` captures the entry list (line 170). The snapshot copies references, so it shares those objects. `onZoomOut` then restores objects whose flags are all false, next to the restored selection list. A selection made inside the zoom also writes through to the saved objects. | entries with ids 1, 2, 3; selection-made [1, 3]; zoom-in; zoom-out. The flags come back false, false, false; the selection list comes back [1, 3]. | zoom-out restores the entries as they were before zoom-in, flags included (true, false, true), so that flags and selection list agree again | medium; not executed | `AliasedStore.LostFlagsScenario` | `Transitions.ZoomRoundTrip` |

The corrected behaviour is the one modules `Transitions` and `Store` use.
There, a snapshot holds entry values, so `Transitions.ZoomRoundTrip`,
`Transitions.NestedZooms` and `Transitions.ZoomOutAfterDetour` restore the
flags. `Transitions.SelectionConsistentPreserved` shows that flags and
selection list keep agreeing across zoom-out. `AliasedStore.DetourScenario`
and `AliasedStore.SharedDataModel.ZoomInThenOut` show the same discrepancy
in two more forms.

## Left out

- Backbone's `Model` base (`set`, `get`, `toJSON`, change events): state is plain class fields, and change notifications are observer plumbing that is not modelled.
- The dispatcher and the `register` call (src/store/index.js:30): actions reach the store one at a time by method call. Serialisation and concurrency belong to the bus.
- src/index.js: DOM creation, React rendering, style injection, plugin construction, the `window` global and the 3D graph are UI glue with no state logic. It only dispatches `options-set`, which is modelled.
- `datahelper.processInput` and `datahelper.getUpdatedScales` are not part of this model. They are arbitrary pure functions, and the floating-point extents they compute are not modelled.
- `./initialState` is not part of this model. `Store.DataModel` takes the whole initial state as a parameter. `AliasedStore.SharedDataModel` takes the fields it holds and starts with an empty history, which behaves like an `undefined` one (line 169).
- lodash `_.transform` and `_.pick` are written out as the loops and the snapshot constructor.
- JavaScript `undefined`: an opaque value type also covers `undefined` for options, mappings, scales and attributes. A history that is still `undefined` behaves like an empty one: zoom-in treats it as `[]` (line 169), and zoom-out faults either way. Zoom-in on `undefined` entries before any upload (where `_.transform` yields an object) is not modelled, because entries are always a sequence here.
- Malformed payloads (for example a `selectedEntries` that is not an array) are not modelled. Each action carries well-typed payload fields.
- `Store.DataModel.OnZoomOut`: with an empty history the source throws a TypeError out of the dispatch callback. The model reports `StackUnderflow` and changes nothing, which is what the throw leaves behind; the exception itself is not modelled.
- `Transitions.IdsUniquePreserved`: the source never checks ids. The lemma assumes that an upload's transform output has unique ids, because that code is not part of this model.
- `Transitions.SelectionConsistentPreserved`: excludes `file-uploaded`. An upload takes its flags from the transform and keeps the old selection list, so the code gives no agreement guarantee there.
- `AliasedStore.SharedDataModel.OnNewSelection`: requires that no entry object appears twice in the list (the `Valid` invariant). The source does not check this, but entries carry unique ids, so no object appears twice. Without it the filter pass could skip a repeated object.
- `AliasedStore.SharedDataModel.OnZoomIn`: the same `Valid` requirement as `OnNewSelection`. Its scales function takes entry objects instead of entry values.
- `AliasedStore` models only the handlers that touch shared entry objects (selection-made, zoom-in, zoom-out). The other handlers never write to an entry and are modelled once, in `Store`.
- The hovered entry is not checked against the current entries, and neither is the source.
- `Transitions.Hovered`: the hovered entry is held as a value. In the source it may be one of the store's entry objects, and then the flag writes of selection-made and zoom-in (lines 129 and 145) reach it too. The store never reads it back.
