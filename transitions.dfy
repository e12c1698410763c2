/** The store's state and what each action does to it, as functions from
    the old state to the new one (src/store/index.js:40-190). The class in
    module Store executes these step by step; the lemmas here state what
    sequences of actions do: the zoom round trip, the stack depth and the
    invariants the handlers keep. */
module Transitions {
  import opened Domain
  import opened Selection

  /** Every field the store holds: the Backbone attributes plus the plain
      `options` property. `snapshots` is the zoom history, last element on top. */
  datatype StoreState = StoreState(
    options: Options,
    entries: seq<Entry>,
    attributes: Attributes,
    scales: Scales,
    mappings: Mappings,
    selectedEntries: seq<Id>,
    mode: Mode,
    controls: bool,
    focused: Option<Entry>,
    snapshots: seq<Snapshot>)

  /** What `saveDataSnapshot` picks out of the state: writing the snapshot
      back into the state it was taken from changes nothing, so it holds
      exactly the five fields a zoom-out restores. */
  function Capture(s: StoreState): (c: Snapshot)
    ensures s.(entries := c.entries, mappings := c.mappings, scales := c.scales,
               attributes := c.attributes, selectedEntries := c.selectedEntries) == s
  {
    Snapshot(s.entries, s.mappings, s.scales, s.attributes, s.selectedEntries)
  }

  /** `options-set`: the configuration is replaced, nothing else changes. */
  function OptionsSet(s: StoreState, options: Options): (r: StoreState)
    ensures r.options == options
    ensures r.(options := s.options) == s
  {
    s.(options := options)
  }

  /** `file-uploaded`: entries, attributes and scales come from the data
      transform, run with the current configuration; the zoom history is
      emptied. The selection list, mappings, mode and focus are kept. */
  function FileUploaded(t: Transform, s: StoreState, raw: RawEntries): (r: StoreState)
    ensures r.entries == t.processInput(raw, s.options).entries
    ensures r.attributes == t.processInput(raw, s.options).attributes
    ensures r.scales == t.processInput(raw, s.options).scales
    ensures r.snapshots == []
    ensures r.(entries := s.entries, attributes := s.attributes, scales := s.scales, snapshots := s.snapshots) == s
  {
    var data := t.processInput(raw, s.options);
    s.(entries := data.entries, attributes := data.attributes, scales := data.scales, snapshots := [])
  }

  /** `selection-started`: selection mode on, other controls off. */
  function SelectionStarted(s: StoreState): (r: StoreState)
    ensures r.mode == Mode.Selection && !r.controls
    ensures r.(mode := s.mode, controls := s.controls) == s
  {
    s.(mode := Mode.Selection, controls := false)
  }

  /** `selection-stopped`: back to normal mode, controls on. */
  function SelectionStopped(s: StoreState): (r: StoreState)
    ensures r.mode == Mode.Normal && r.controls
    ensures r.(mode := s.mode, controls := s.controls) == s
  {
    s.(mode := Mode.Normal, controls := true)
  }

  /** `axis-mappings-updated`: new mappings, scales recomputed over the
      current entries; the entries themselves stay. */
  function NewMappings(t: Transform, s: StoreState, mappings: Mappings): (r: StoreState)
    ensures r.mappings == mappings
    ensures r.scales == t.getUpdatedScales(s.entries, s.options)
    ensures r.(mappings := s.mappings, scales := s.scales) == s
  {
    s.(mappings := mappings, scales := t.getUpdatedScales(s.entries, s.options))
  }

  /** `selection-made`: the entries keep their order, ids and values, each
      flag becomes membership of its id in the list, and the list is stored
      verbatim, ids that match no entry included. */
  function NewSelection(s: StoreState, ids: seq<Id>): (r: StoreState)
    ensures r.selectedEntries == ids
    ensures |r.entries| == |s.entries|
    ensures forall i :: 0 <= i < |s.entries| ==>
              r.entries[i].id == s.entries[i].id &&
              r.entries[i].data == s.entries[i].data &&
              (r.entries[i].isSelected <==> s.entries[i].id in ids)
    ensures FlagsAgree(r.entries, r.selectedEntries)
    ensures r.(entries := s.entries, selectedEntries := s.selectedEntries) == s
  {
    MarkSelectionSpec(s.entries, ids);
    s.(entries := MarkSelection(s.entries, ids), selectedEntries := ids)
  }

  /** `entry-hovered`: the focused entry is replaced (possibly by none). */
  function Hovered(s: StoreState, entry: Option<Entry>): (r: StoreState)
    ensures r.focused == entry
    ensures r.(focused := s.focused) == s
  {
    s.(focused := entry)
  }

  /** `zoom-in`: the pre-zoom entries, mappings, scales, attributes and
      selection are pushed as one snapshot; the entries become the selected
      ones, in order, with flags cleared; the selection is emptied; scales
      are recomputed over the new entries. Mappings, attributes and
      everything else stay. */
  function ZoomIn(t: Transform, s: StoreState): (r: StoreState)
    ensures r.snapshots == s.snapshots + [Capture(s)]
    ensures ClearedSubsequence(r.entries, s.entries, SelectedPositions(s.entries))
    ensures r.selectedEntries == []
    ensures r.scales == t.getUpdatedScales(r.entries, s.options)
    ensures r.(entries := s.entries, selectedEntries := s.selectedEntries, scales := s.scales,
               snapshots := s.snapshots) == s
  {
    KeepSelectedSpec(s.entries);
    var kept := KeepSelected(s.entries);
    s.(entries := kept, selectedEntries := [], scales := t.getUpdatedScales(kept, s.options),
       snapshots := s.snapshots + [Capture(s)])
  }

  /** `zoom-out`: the top snapshot is popped and its five fields restored
      verbatim. With no snapshot there is nothing to pop: the source throws
      before it sets anything. */
  function ZoomOut(s: StoreState): (r: Option<StoreState>)
    ensures r.None? <==> s.snapshots == []
    ensures r.Some? ==>
              |r.value.snapshots| == |s.snapshots| - 1 &&
              Capture(r.value) == s.snapshots[|s.snapshots| - 1] &&
              r.value.snapshots + [Capture(r.value)] == s.snapshots &&
              r.value.(entries := s.entries, mappings := s.mappings, scales := s.scales,
                       attributes := s.attributes, selectedEntries := s.selectedEntries,
                       snapshots := s.snapshots) == s
  {
    if s.snapshots == [] then None
    else
      var last := s.snapshots[|s.snapshots| - 1];
      Some(s.(entries := last.entries, mappings := last.mappings, scales := last.scales,
              attributes := last.attributes, selectedEntries := last.selectedEntries,
              snapshots := s.snapshots[..|s.snapshots| - 1]))
  }

  datatype Outcome = Outcome(state: StoreState, status: Status)

  /** Actions other than upload and the two zooms leave the history alone. */
  predicate KeepsHistory(a: Action)
  {
    a.actionType !in {"file-uploaded", "zoom-in", "zoom-out"}
  }

  /** The dispatch callback: the switch over the action type. A type with no
      case leaves the state as it is; so does a zoom-out with an empty
      history, where the source faults. */
  function Dispatch(t: Transform, s: StoreState, a: Action): (o: Outcome)
    ensures o.status == Unrecognized <==> a.actionType !in ActionTypes
    ensures o.status == StackUnderflow <==> a.actionType == "zoom-out" && s.snapshots == []
    ensures o.status != Handled ==> o.state == s
    ensures a.actionType == "selection-started" ==> o.state.mode == Mode.Selection && !o.state.controls
    ensures a.actionType == "selection-stopped" ==> o.state.mode == Mode.Normal && o.state.controls
    ensures KeepsHistory(a) ==> o.state.snapshots == s.snapshots
  {
    if a.actionType == "options-set" then Outcome(OptionsSet(s, a.options), Handled)
    else if a.actionType == "file-uploaded" then Outcome(FileUploaded(t, s, a.rawEntries), Handled)
    else if a.actionType == "selection-started" then Outcome(SelectionStarted(s), Handled)
    else if a.actionType == "selection-stopped" then Outcome(SelectionStopped(s), Handled)
    else if a.actionType == "selection-made" then Outcome(NewSelection(s, a.selectedEntries), Handled)
    else if a.actionType == "axis-mappings-updated" then Outcome(NewMappings(t, s, a.mappings), Handled)
    else if a.actionType == "entry-hovered" then Outcome(Hovered(s, a.entry), Handled)
    else if a.actionType == "zoom-in" then Outcome(ZoomIn(t, s), Handled)
    else if a.actionType == "zoom-out" then
      match ZoomOut(s)
      case Some(r) => Outcome(r, Handled)
      case None => Outcome(s, StackUnderflow)
    else Outcome(s, Unrecognized)
  }

  /** The state after the actions, delivered one at a time in order. */
  function Run(t: Transform, s: StoreState, actions: seq<Action>): (r: StoreState)
    decreases |actions|
  {
    if actions == [] then s else Run(t, Dispatch(t, s, actions[0]).state, actions[1..])
  }

  lemma {:induction false} RunAppend(t: Transform, s: StoreState, xs: seq<Action>, ys: seq<Action>)
    ensures Run(t, s, xs + ys) == Run(t, Run(t, s, xs), ys)
    decreases |xs|
  {
    if xs != [] {
      assert (xs + ys)[0] == xs[0] && (xs + ys)[1..] == xs[1..] + ys;
      RunAppend(t, Dispatch(t, s, xs[0]).state, xs[1..], ys);
    } else {
      assert xs + ys == ys;
    }
  }

  /** Zoom-in then zoom-out gives back the whole state: entries with their
      flags, mappings, scales, attributes, selection, and the history depth. */
  lemma ZoomRoundTrip(t: Transform, s: StoreState, zoomIn: Action, zoomOut: Action)
    requires zoomIn.actionType == "zoom-in" && zoomOut.actionType == "zoom-out"
    ensures |Run(t, s, [zoomIn]).snapshots| == |s.snapshots| + 1
    ensures Run(t, s, [zoomIn, zoomOut]) == s
  {
    var s1 := Dispatch(t, s, zoomIn).state;
    assert s1 == ZoomIn(t, s);
    assert Dispatch(t, s1, zoomOut).state == s;
    assert [zoomIn, zoomOut][1..] == [zoomOut];
    assert Run(t, s1, [zoomOut]) == Run(t, s, []);
  }

  function Repeat(a: Action, n: nat): (r: seq<Action>)
    ensures |r| == n && forall i :: 0 <= i < n ==> r[i] == a
  {
    if n == 0 then [] else [a] + Repeat(a, n - 1)
  }

  /** n zoom-ins grow the history by n; n zoom-outs after them give back
      the state from before the first one. */
  lemma {:induction false} NestedZooms(t: Transform, s: StoreState, zoomIn: Action, zoomOut: Action, n: nat)
    requires zoomIn.actionType == "zoom-in" && zoomOut.actionType == "zoom-out"
    ensures |Run(t, s, Repeat(zoomIn, n)).snapshots| == |s.snapshots| + n
    ensures Run(t, s, Repeat(zoomIn, n) + Repeat(zoomOut, n)) == s
    decreases n
  {
    if n > 0 {
      var s1 := Dispatch(t, s, zoomIn).state;
      assert s1 == ZoomIn(t, s);
      NestedZooms(t, s1, zoomIn, zoomOut, n - 1);
      assert Repeat(zoomIn, n) == [zoomIn] + Repeat(zoomIn, n - 1);
      var inner := Repeat(zoomIn, n - 1) + Repeat(zoomOut, n - 1);
      assert Repeat(zoomOut, n) == Repeat(zoomOut, n - 1) + [zoomOut];
      assert Repeat(zoomIn, n) + Repeat(zoomOut, n) == [zoomIn] + inner + [zoomOut];
      RunAppend(t, s, [zoomIn] + inner, [zoomOut]);
      RunAppend(t, s, [zoomIn], inner);
      assert Run(t, s, [zoomIn]) == s1;
      assert Run(t, s1, inner) == s1;
      assert Run(t, s1, [zoomOut]) == Dispatch(t, s1, zoomOut).state;
      assert Run(t, s, Repeat(zoomIn, n)) == Run(t, s1, Repeat(zoomIn, n - 1)) by {
        RunAppend(t, s, [zoomIn], Repeat(zoomIn, n - 1));
      }
    }
  }

  lemma {:induction false} RunKeepsHistory(t: Transform, s: StoreState, actions: seq<Action>)
    requires forall i :: 0 <= i < |actions| ==> KeepsHistory(actions[i])
    ensures Run(t, s, actions).snapshots == s.snapshots
    decreases |actions|
  {
    if actions != [] {
      RunKeepsHistory(t, Dispatch(t, s, actions[0]).state, actions[1..]);
    }
  }

  /** Whatever the user does inside a zoom (select, hover, remap, change
      mode), short of uploading or zooming again, zoom-out restores the
      entries, mappings, scales, attributes and selection from before the
      zoom-in, and the history depth. */
  lemma ZoomOutAfterDetour(t: Transform, s: StoreState, zoomIn: Action, detour: seq<Action>, zoomOut: Action)
    requires zoomIn.actionType == "zoom-in" && zoomOut.actionType == "zoom-out"
    requires forall i :: 0 <= i < |detour| ==> KeepsHistory(detour[i])
    ensures Capture(Run(t, s, [zoomIn] + detour + [zoomOut])) == Capture(s)
    ensures Run(t, s, [zoomIn] + detour + [zoomOut]).snapshots == s.snapshots
  {
    var s1 := Dispatch(t, s, zoomIn).state;
    RunAppend(t, s, [zoomIn] + detour, [zoomOut]);
    RunAppend(t, s, [zoomIn], detour);
    assert Run(t, s, [zoomIn]) == s1;
    RunKeepsHistory(t, s1, detour);
    var s2 := Run(t, s1, detour);
    assert Run(t, s2, [zoomOut]) == Dispatch(t, s2, zoomOut).state;
  }

  /** The id-uniqueness invariant of the entry collection, for the live
      entries and for every saved snapshot. */
  ghost predicate IdsUnique(s: StoreState)
  {
    UniqueIds(s.entries) &&
    forall k :: 0 <= k < |s.snapshots| ==> UniqueIds(s.snapshots[k].entries)
  }

  /** Every action keeps ids unique, provided an upload's transform output
      has unique ids. */
  lemma IdsUniquePreserved(t: Transform, s: StoreState, a: Action)
    requires IdsUnique(s)
    requires a.actionType == "file-uploaded" ==> UniqueIds(t.processInput(a.rawEntries, s.options).entries)
    ensures IdsUnique(Dispatch(t, s, a).state)
  {
  }

  /** The flags of the live entries, and of every snapshot's entries, agree
      with the selection list stored beside them. */
  ghost predicate SelectionConsistent(s: StoreState)
  {
    FlagsAgree(s.entries, s.selectedEntries) &&
    forall k :: 0 <= k < |s.snapshots| ==> FlagsAgree(s.snapshots[k].entries, s.snapshots[k].selectedEntries)
  }

  /** Every action except an upload keeps flags and selection list in
      agreement, zoom-out included. An upload takes its flags from the
      transform and keeps the old list, so it guarantees nothing. */
  lemma SelectionConsistentPreserved(t: Transform, s: StoreState, a: Action)
    requires SelectionConsistent(s)
    requires a.actionType != "file-uploaded"
    ensures SelectionConsistent(Dispatch(t, s, a).state)
  {
  }

  /** The upload, select, zoom-in, zoom-out walk-through: three uploaded
      entries, ids 1 and 3 selected, zoom-in keeps those two unflagged with
      one snapshot, zoom-out brings back all three with the flags of the
      selection and an empty history. */
  lemma UploadSelectZoomScenario(t: Transform, s: StoreState, upload: Action, select: Action,
                                 zoomIn: Action, zoomOut: Action, e1: Entry, e2: Entry, e3: Entry)
    requires upload.actionType == "file-uploaded" && select.actionType == "selection-made"
    requires zoomIn.actionType == "zoom-in" && zoomOut.actionType == "zoom-out"
    requires t.processInput(upload.rawEntries, s.options).entries == [e1, e2, e3]
    requires e1.id != e2.id && e2.id != e3.id && e1.id != e3.id
    requires select.selectedEntries == [e1.id, e3.id]
    ensures var s1 := Run(t, s, [upload]);
            s1.entries == [e1, e2, e3] && s1.snapshots == []
    ensures var s2 := Run(t, s, [upload, select]);
            s2.entries == [e1.(isSelected := true), e2.(isSelected := false), e3.(isSelected := true)]
    ensures var s3 := Run(t, s, [upload, select, zoomIn]);
            s3.entries == [e1.(isSelected := false), e3.(isSelected := false)] &&
            s3.selectedEntries == [] && |s3.snapshots| == 1
    ensures var s4 := Run(t, s, [upload, select, zoomIn, zoomOut]);
            s4.entries == Run(t, s, [upload, select]).entries && s4.snapshots == []
  {
    var s1 := Dispatch(t, s, upload).state;
    var s2 := Dispatch(t, s1, select).state;
    var s3 := Dispatch(t, s2, zoomIn).state;
    var s4 := Dispatch(t, s3, zoomOut).state;
    RunAppend(t, s, [upload], [select]);
    RunAppend(t, s, [upload, select], [zoomIn]);
    RunAppend(t, s, [upload, select, zoomIn], [zoomOut]);
    assert [upload] + [select] == [upload, select];
    assert [upload, select] + [zoomIn] == [upload, select, zoomIn];
    assert [upload, select, zoomIn] + [zoomOut] == [upload, select, zoomIn, zoomOut];
    assert Run(t, s, [upload]) == s1;
    assert Run(t, s1, [select]) == s2;
    assert Run(t, s2, [zoomIn]) == s3;
    assert Run(t, s3, [zoomOut]) == s4;
    MarkSelectionSpec(s1.entries, [e1.id, e3.id]);
    assert s2.entries == [e1.(isSelected := true), e2.(isSelected := false), e3.(isSelected := true)];
    KeepFirstAndLast(e1, e2, e3);
  }

  lemma KeepFirstAndLast(e1: Entry, e2: Entry, e3: Entry)
    ensures KeepSelected([e1.(isSelected := true), e2.(isSelected := false), e3.(isSelected := true)])
            == [e1.(isSelected := false), e3.(isSelected := false)]
  {
    var es := [e1.(isSelected := true), e2.(isSelected := false), e3.(isSelected := true)];
    assert es[..2][..1] == es[..1];
    assert KeepSelected(es[..1]) == [e1.(isSelected := false)] by {
      assert es[..1][..0] == [];
    }
    assert KeepSelected(es[..2]) == [e1.(isSelected := false)];
    assert es[..3][..2] == es[..2] && es[..3] == es;
  }
}
