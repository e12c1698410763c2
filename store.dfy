/** The store object of src/store/index.js: one field per piece of state,
    one method per handler, each method updating the fields in place. Entries
    are values here, so a snapshot keeps the entries exactly as they were
    when it was taken (module AliasedStore models the source's shared entry
    objects instead). Every method is proved to move the state as the
    matching function of module Transitions says. */
module Store {
  import opened Domain
  import opened Selection
  import opened Transitions

  class DataModel {
    /** `datahelper`: the data transform the handlers call. */
    const transform: Transform

    var options: Options
    var entries: seq<Entry>
    var attributes: Attributes
    var scales: Scales
    var mappings: Mappings
    var selectedEntries: seq<Id>
    var mode: Mode
    var controls: bool
    var focused: Option<Entry>
    var snapshots: seq<Snapshot>

    /** The whole state as one value. */
    function State(): StoreState
      reads this
    {
      StoreState(options, entries, attributes, scales, mappings, selectedEntries,
                 mode, controls, focused, snapshots)
    }

    /** The store starts from the initial state it is given. */
    constructor (transform: Transform, initial: StoreState)
      ensures this.transform == transform && State() == initial
    {
      this.transform := transform;
      options, entries, attributes, scales := initial.options, initial.entries, initial.attributes, initial.scales;
      mappings, selectedEntries, mode, controls := initial.mappings, initial.selectedEntries, initial.mode, initial.controls;
      focused, snapshots := initial.focused, initial.snapshots;
    }

    /** Routes an action to its handler by its type; a type with no case
        changes nothing. */
    method DispatchCallback(action: Action) returns (status: Status)
      modifies this
      ensures Outcome(State(), status) == Dispatch(transform, old(State()), action)
    {
      status := Handled;
      if action.actionType == "options-set" {
        options := action.options;
      } else if action.actionType == "file-uploaded" {
        OnFileUpload(action.rawEntries);
      } else if action.actionType == "selection-started" {
        OnSelectionStart();
      } else if action.actionType == "selection-stopped" {
        OnSelectionStop();
      } else if action.actionType == "selection-made" {
        OnNewSelection(action.selectedEntries);
      } else if action.actionType == "axis-mappings-updated" {
        OnNewMappings(action.mappings);
      } else if action.actionType == "entry-hovered" {
        focused := action.entry;
      } else if action.actionType == "zoom-in" {
        OnZoomIn();
      } else if action.actionType == "zoom-out" {
        status := OnZoomOut();
      } else {
        status := Unrecognized;
      }
    }

    method OnFileUpload(raw: RawEntries)
      modifies this
      ensures State() == FileUploaded(transform, old(State()), raw)
    {
      var data := transform.processInput(raw, options);
      entries, attributes, scales, snapshots := data.entries, data.attributes, data.scales, [];
    }

    method OnSelectionStart()
      modifies this
      ensures State() == SelectionStarted(old(State()))
    {
      mode, controls := Mode.Selection, false;
    }

    method OnSelectionStop()
      modifies this
      ensures State() == SelectionStopped(old(State()))
    {
      mode, controls := Mode.Normal, true;
    }

    method OnNewMappings(newMappings: Mappings)
      modifies this
      ensures State() == NewMappings(transform, old(State()), newMappings)
    {
      mappings, scales := newMappings, transform.getUpdatedScales(entries, options);
    }

    /** The membership pass: each entry, in order, gets its flag from
        whether its id is in the list. */
    method OnNewSelection(ids: seq<Id>)
      modifies this
      ensures State() == NewSelection(old(State()), ids)
    {
      var result: seq<Entry> := [];
      var i := 0;
      while i < |entries|
        invariant 0 <= i <= |entries|
        invariant result == MarkSelection(entries[..i], ids)
      {
        var entry := entries[i];
        assert entries[..i + 1][..i] == entries[..i];
        result := result + [entry.(isSelected := entry.id in ids)];
        i := i + 1;
      }
      assert entries[..i] == entries;
      entries, selectedEntries := result, ids;
    }

    /** The filter pass keeps the selected entries with their flags cleared;
        the old state is saved before the new entries are set. */
    method OnZoomIn()
      modifies this
      ensures State() == ZoomIn(transform, old(State()))
    {
      var newEntries: seq<Entry> := [];
      var i := 0;
      while i < |entries|
        invariant 0 <= i <= |entries|
        invariant newEntries == KeepSelected(entries[..i])
      {
        var entry := entries[i];
        assert entries[..i + 1][..i] == entries[..i];
        if entry.isSelected {
          newEntries := newEntries + [entry.(isSelected := false)];
        }
        i := i + 1;
      }
      assert entries[..i] == entries;
      SaveDataSnapshot();
      entries, selectedEntries, scales := newEntries, [], transform.getUpdatedScales(newEntries, options);
    }

    method OnZoomOut() returns (status: Status)
      modifies this
      ensures status == (if old(snapshots) == [] then StackUnderflow else Handled)
      ensures State() == match ZoomOut(old(State())) case Some(r) => r case None => old(State())
    {
      status := RestoreLastDataSnapshot();
    }

    /** Pushes the five zoom-affected fields onto the history. */
    method SaveDataSnapshot()
      modifies this
      ensures snapshots == old(snapshots) + [Capture(old(State()))]
      ensures State().(snapshots := old(snapshots)) == old(State())
    {
      snapshots := snapshots + [Snapshot(entries, mappings, scales, attributes, selectedEntries)];
    }

    /** Pops the top snapshot and restores it; with an empty history the
        source's `pop()` yields nothing and reading it faults, so nothing is
        set. */
    method RestoreLastDataSnapshot() returns (status: Status)
      modifies this
      ensures status == (if old(snapshots) == [] then StackUnderflow else Handled)
      ensures State() == match ZoomOut(old(State())) case Some(r) => r case None => old(State())
    {
      if snapshots == [] {
        return StackUnderflow;
      }
      var last := snapshots[|snapshots| - 1];
      snapshots := snapshots[..|snapshots| - 1];
      entries, mappings, scales := last.entries, last.mappings, last.scales;
      attributes, selectedEntries := last.attributes, last.selectedEntries;
      status := Handled;
    }
  }
}
