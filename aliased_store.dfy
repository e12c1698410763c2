/** The zoom handlers as the source runs them under JavaScript's reference
    semantics. Entries are objects: `selection-made` and `zoom-in` write
    `entry.isSelected` on the very objects that the live entry list and every
    snapshot share (src/store/index.js:129, 145), and a snapshot's `_.pick`
    of a shallow `toJSON()` copies references, not entries
    (src/store/index.js:170). Zoom-in clears the flags before it takes the
    snapshot, so zoom-out brings back the old entry objects with every flag
    cleared while the old selection list comes back unchanged. Module Store
    models the intended behaviour, where the snapshot keeps the flags. */
module AliasedStore {
  import opened Domain

  /** An entry object: its id and values never change, its flag does. */
  class EntryObject {
    const id: Id
    const data: EntryData
    var isSelected: bool

    constructor (id: Id, data: EntryData, isSelected: bool)
      ensures this.id == id && this.data == data && this.isSelected == isSelected
    {
      this.id, this.data, this.isSelected := id, data, isSelected;
    }
  }

  /** A snapshot holding references to the entry objects of its time. */
  datatype SharedSnapshot = SharedSnapshot(
    entries: seq<EntryObject>,
    mappings: Mappings,
    scales: Scales,
    attributes: Attributes,
    selectedEntries: seq<Id>)

  /** No entry object occurs twice in the list. */
  predicate Distinct(es: seq<EntryObject>)
  {
    forall i, j :: 0 <= i < j < |es| ==> es[i] != es[j]
  }

  /** The flags the objects carry in the current heap. */
  ghost function Flags(es: seq<EntryObject>): (r: seq<bool>)
    reads es
    ensures |r| == |es| && forall i :: 0 <= i < |es| ==> r[i] == es[i].isSelected
    decreases |es|
  {
    if es == [] then [] else Flags(es[..|es| - 1]) + [es[|es| - 1].isSelected]
  }

  /** The objects whose flag was set, in order. */
  function KeepFlagged(es: seq<EntryObject>, flags: seq<bool>): (r: seq<EntryObject>)
    requires |flags| == |es|
    ensures |r| <= |es|
    decreases |es|
  {
    if es == [] then []
    else
      KeepFlagged(es[..|es| - 1], flags[..|es| - 1]) + (if flags[|es| - 1] then [es[|es| - 1]] else [])
  }

  /* `FlaggedPositions` and `FlaggedSubsequence` mirror `SelectedPositions` and
     `ClearedSubsequence` of module Selection for entry objects, whose flags
     live in the heap and are passed in as a sequence. */

  /** The positions of the set flags, in increasing order. */
  function FlaggedPositions(flags: seq<bool>): (p: seq<nat>)
    decreases |flags|
  {
    if flags == [] then []
    else FlaggedPositions(flags[..|flags| - 1]) + (if flags[|flags| - 1] then [|flags| - 1] else [])
  }

  /** `r` is the subsequence of `es` at the strictly increasing positions
      `p`, every one flagged, and `p` holds every flagged position. */
  ghost predicate FlaggedSubsequence(r: seq<EntryObject>, es: seq<EntryObject>, flags: seq<bool>, p: seq<nat>)
    requires |flags| == |es|
  {
    |p| == |r| &&
    (forall k :: 0 <= k < |p| ==> p[k] < |es| && flags[p[k]] && r[k] == es[p[k]]) &&
    (forall k1, k2 :: 0 <= k1 < k2 < |p| ==> p[k1] < p[k2]) &&
    (forall i :: 0 <= i < |es| && flags[i] ==> i in p)
  }

  /** The filter keeps exactly the flagged objects, in their original
      order: the same objects, not copies. */
  lemma {:induction false} KeepFlaggedSpec(es: seq<EntryObject>, flags: seq<bool>)
    requires |flags| == |es|
    ensures FlaggedSubsequence(KeepFlagged(es, flags), es, flags, FlaggedPositions(flags))
    decreases |es|
  {
    if es != [] {
      var n := |es| - 1;
      var init, fi := es[..n], flags[..n];
      KeepFlaggedSpec(init, fi);
      var p0, r0 := FlaggedPositions(fi), KeepFlagged(init, fi);
      var p, r := FlaggedPositions(flags), KeepFlagged(es, flags);
      assert p == p0 + (if flags[n] then [n] else []);
      assert r == r0 + (if flags[n] then [es[n]] else []);
      forall k | 0 <= k < |p|
        ensures p[k] < |es| && flags[p[k]] && r[k] == es[p[k]]
      {
        if k < |p0| {
          assert p[k] == p0[k] && r[k] == r0[k] && es[p0[k]] == init[p0[k]] && flags[p0[k]] == fi[p0[k]];
        }
      }
      forall k1, k2 | 0 <= k1 < k2 < |p|
        ensures p[k1] < p[k2]
      {
        if k2 < |p0| {
          assert p[k1] == p0[k1] && p[k2] == p0[k2];
        } else {
          assert p[k1] == p0[k1] && p0[k1] < |init|;
        }
      }
      forall i | 0 <= i < |es| && flags[i]
        ensures i in p
      {
        if i < n {
          assert fi[i] == flags[i];
          assert i in p0;
        } else {
          assert p[|p| - 1] == i;
        }
      }
    }
  }

  /** The kept objects are objects of the list, and none of them twice. */
  lemma {:induction false} KeepFlaggedDistinct(es: seq<EntryObject>, flags: seq<bool>)
    requires |flags| == |es| && Distinct(es)
    ensures forall x :: x in KeepFlagged(es, flags) ==> x in es
    ensures Distinct(KeepFlagged(es, flags))
    decreases |es|
  {
    if es != [] {
      var init, last := es[..|es| - 1], es[|es| - 1];
      var r0 := KeepFlagged(init, flags[..|es| - 1]);
      KeepFlaggedDistinct(init, flags[..|es| - 1]);
      assert last !in init by {
        forall i | 0 <= i < |init| ensures init[i] != last {
          assert init[i] == es[i];
        }
      }
      assert forall x :: x in init ==> x in es;
    }
  }

  /** The filter pass of zoom-in over entry objects: keeps each selected
      object, in order, clearing its flag on the spot. */
  method ClearSelected(es: seq<EntryObject>) returns (kept: seq<EntryObject>)
    requires Distinct(es)
    modifies es
    ensures kept == KeepFlagged(es, old(Flags(es)))
    ensures forall k :: 0 <= k < |es| ==> !es[k].isSelected
  {
    ghost var flags := Flags(es);
    kept := [];
    var i := 0;
    while i < |es|
      invariant 0 <= i <= |es|
      invariant kept == KeepFlagged(es[..i], flags[..i])
      invariant forall k :: 0 <= k < i ==> !es[k].isSelected
      invariant forall k :: i <= k < |es| ==> es[k].isSelected == flags[k]
    {
      var entry := es[i];
      assert es[..i + 1][..i] == es[..i] && flags[..i + 1][..i] == flags[..i];
      if entry.isSelected {
        entry.isSelected := false;
        kept := kept + [entry];
      }
      i := i + 1;
    }
    assert es[..i] == es && flags[..i] == flags;
  }

  class SharedDataModel {
    /** `datahelper.getUpdatedScales`, over the entry objects. */
    const getUpdatedScales: (seq<EntryObject>, Options) -> Scales
    var options: Options
    var entries: seq<EntryObject>
    var mappings: Mappings
    var scales: Scales
    var attributes: Attributes
    var selectedEntries: seq<Id>
    var snapshots: seq<SharedSnapshot>

    /** The live list and every saved list hold each object once. */
    ghost predicate Valid()
      reads this
    {
      Distinct(entries) &&
      forall k :: 0 <= k < |snapshots| ==> Distinct(snapshots[k].entries)
    }

    constructor (getUpdatedScales: (seq<EntryObject>, Options) -> Scales, options: Options,
                 entries: seq<EntryObject>, mappings: Mappings, scales: Scales,
                 attributes: Attributes, selectedEntries: seq<Id>)
      requires Distinct(entries)
      ensures Valid() && snapshots == []
      ensures this.getUpdatedScales == getUpdatedScales && this.options == options
      ensures this.entries == entries && this.mappings == mappings && this.scales == scales
      ensures this.attributes == attributes && this.selectedEntries == selectedEntries
    {
      this.getUpdatedScales, this.options := getUpdatedScales, options;
      this.entries, this.mappings, this.scales := entries, mappings, scales;
      this.attributes, this.selectedEntries, this.snapshots := attributes, selectedEntries, [];
    }

    /** `selection-made`: writes every live object's flag in place. An object
        that a snapshot also holds is changed there too. */
    method OnNewSelection(ids: seq<Id>)
      requires Valid()
      modifies this, entries
      ensures Valid()
      ensures entries == old(entries) && selectedEntries == ids
      ensures forall e :: e in entries ==> e.isSelected == (e.id in ids)
      ensures snapshots == old(snapshots) && mappings == old(mappings) && scales == old(scales)
      ensures attributes == old(attributes) && options == old(options)
    {
      var es := entries;
      var result: seq<EntryObject> := [];
      var i := 0;
      while i < |es|
        invariant 0 <= i <= |es|
        invariant result == es[..i]
        invariant forall k :: 0 <= k < i ==> es[k].isSelected == (es[k].id in ids)
        invariant forall k :: i <= k < |es| ==> es[k].isSelected == old(es[k].isSelected)
        modifies es
      {
        var entry := es[i];
        entry.isSelected := entry.id in ids;
        result := result + [entry];
        i := i + 1;
      }
      assert es[..i] == es;
      entries, selectedEntries := result, ids;
    }

    /** `zoom-in`: the filter pass clears the flag of each selected object
        it keeps, and only then is the snapshot taken, over the same
        objects. */
    method OnZoomIn()
      requires Valid()
      modifies this, entries
      ensures Valid()
      ensures snapshots == old(snapshots) + [SharedSnapshot(old(entries), old(mappings), old(scales),
                                                            old(attributes), old(selectedEntries))]
      ensures entries == KeepFlagged(old(entries), old(Flags(entries)))
      ensures forall e :: e in entries ==> e in old(entries)
      ensures forall e :: e in old(entries) ==> !e.isSelected
      ensures selectedEntries == [] && scales == getUpdatedScales(entries, options)
      ensures mappings == old(mappings) && attributes == old(attributes) && options == old(options)
    {
      var newEntries := ClearSelected(entries);
      KeepFlaggedDistinct(entries, old(Flags(entries)));
      SaveDataSnapshot();
      entries, selectedEntries, scales := newEntries, [], getUpdatedScales(newEntries, options);
    }

    method SaveDataSnapshot()
      requires Valid()
      modifies this
      ensures Valid()
      ensures snapshots == old(snapshots) + [SharedSnapshot(entries, mappings, scales, attributes, selectedEntries)]
      ensures entries == old(entries) && mappings == old(mappings) && scales == old(scales)
      ensures attributes == old(attributes) && selectedEntries == old(selectedEntries) && options == old(options)
    {
      snapshots := snapshots + [SharedSnapshot(entries, mappings, scales, attributes, selectedEntries)];
    }

    /** `zoom-out`: restores the references of the top snapshot; no flag is
        written, so the objects keep whatever flags they carry now. */
    method OnZoomOut() returns (status: Status)
      requires Valid()
      modifies this
      ensures Valid()
      ensures status == (if old(snapshots) == [] then StackUnderflow else Handled)
      ensures old(snapshots) == [] ==> unchanged(this)
      ensures old(snapshots) != [] ==>
                var last := old(snapshots)[|old(snapshots)| - 1];
                snapshots == old(snapshots)[..|old(snapshots)| - 1] &&
                entries == last.entries && mappings == last.mappings && scales == last.scales &&
                attributes == last.attributes && selectedEntries == last.selectedEntries &&
                options == old(options)
    {
      if snapshots == [] {
        return StackUnderflow;
      }
      var last := snapshots[|snapshots| - 1];
      snapshots := snapshots[..|snapshots| - 1];
      entries, mappings, scales := last.entries, last.mappings, last.scales;
      attributes, selectedEntries := last.attributes, last.selectedEntries;
      status := Handled;
    }

    /** Zoom-out straight after zoom-in, as written: the same objects in the
        same order and the same selection list come back, but every flag is
        cleared, so flags and selection list no longer agree. */
    method ZoomInThenOut()
      requires Valid()
      modifies this, entries
      ensures Valid()
      ensures entries == old(entries) && selectedEntries == old(selectedEntries)
      ensures mappings == old(mappings) && scales == old(scales) && attributes == old(attributes)
      ensures snapshots == old(snapshots)
      ensures forall e :: e in entries ==> !e.isSelected
    {
      OnZoomIn();
      ghost var zoomed := snapshots;
      assert zoomed[..|zoomed| - 1] == old(snapshots);
      var status := OnZoomOut();
    }
  }

  lemma KeepFlaggedFirstAndLast(a: EntryObject, b: EntryObject, c: EntryObject)
    ensures KeepFlagged([a, b, c], [true, false, true]) == [a, c]
  {
    var es, fs := [a, b, c], [true, false, true];
    assert es[..2] == [a, b] && fs[..2] == [true, false];
    assert es[..2][..1] == [a] && fs[..2][..1] == [true];
    assert KeepFlagged([a], [true]) == [a] by {
      assert [a][..0] == [] && [true][..0] == [];
    }
  }

  /** The common start of the two walk-throughs below: three fresh entry
      objects, ids 1 and 3 selected (`before` holds the flags then), then
      zoom-in. */
  method SelectFirstAndLastThenZoomIn(id1: Id, id2: Id, id3: Id, data: EntryData, options: Options,
                                      mappings: Mappings, scales: Scales, attributes: Attributes,
                                      getUpdatedScales: (seq<EntryObject>, Options) -> Scales)
    returns (store: SharedDataModel, e1: EntryObject, e2: EntryObject, e3: EntryObject, before: seq<bool>)
    requires id1 != id2 && id1 != id3 && id2 != id3
    ensures fresh(store) && fresh(e1) && fresh(e2) && fresh(e3)
    ensures e1.id == id1 && e2.id == id2 && e3.id == id3
    ensures store.Valid() && store.entries == [e1, e3] && store.selectedEntries == []
    ensures store.snapshots == [SharedSnapshot([e1, e2, e3], mappings, scales, attributes, [id1, id3])]
    ensures before == [true, false, true]
    ensures !e1.isSelected && !e2.isSelected && !e3.isSelected
  {
    e1 := new EntryObject(id1, data, false);
    e2 := new EntryObject(id2, data, false);
    e3 := new EntryObject(id3, data, false);
    store := new SharedDataModel(getUpdatedScales, options, [e1, e2, e3], mappings, scales, attributes, []);
    store.OnNewSelection([id1, id3]);
    assert e1 in store.entries && e2 in store.entries && e3 in store.entries;
    before := [e1.isSelected, e2.isSelected, e3.isSelected];
    assert Flags([e1, e2, e3]) == [true, false, true];
    store.OnZoomIn();
    KeepFlaggedFirstAndLast(e1, e2, e3);
  }

  /** Three entries, ids 1 and 3 selected, zoom-in, zoom-out: the
      selection list comes back as it was, the flags all cleared. */
  method LostFlagsScenario(id1: Id, id2: Id, id3: Id, data: EntryData, options: Options,
                           mappings: Mappings, scales: Scales, attributes: Attributes,
                           getUpdatedScales: (seq<EntryObject>, Options) -> Scales)
    returns (before: seq<bool>, after: seq<bool>, restoredSelection: seq<Id>)
    requires id1 != id2 && id1 != id3 && id2 != id3
    ensures before == [true, false, true]
    ensures after == [false, false, false]
    ensures restoredSelection == [id1, id3]
  {
    var store, e1, e2, e3;
    store, e1, e2, e3, before :=
      SelectFirstAndLastThenZoomIn(id1, id2, id3, data, options, mappings, scales, attributes, getUpdatedScales);
    var status := store.OnZoomOut();
    assert store.entries == [e1, e2, e3];
    after := [e1.isSelected, e2.isSelected, e3.isSelected];
    restoredSelection := store.selectedEntries;
  }

  /** Select ids 1 and 3, zoom in, select id 1 alone inside the zoom, zoom
      out: the later selection has written through to the saved objects, so
      the restored flags follow neither restored list. */
  method DetourScenario(id1: Id, id2: Id, id3: Id, data: EntryData, options: Options,
                        mappings: Mappings, scales: Scales, attributes: Attributes,
                        getUpdatedScales: (seq<EntryObject>, Options) -> Scales)
    returns (after: seq<bool>, restoredSelection: seq<Id>)
    requires id1 != id2 && id1 != id3 && id2 != id3
    ensures after == [true, false, false]
    ensures restoredSelection == [id1, id3]
  {
    var store, e1, e2, e3, before :=
      SelectFirstAndLastThenZoomIn(id1, id2, id3, data, options, mappings, scales, attributes, getUpdatedScales);
    store.OnNewSelection([id1]);
    assert e1 in store.entries && e3 in store.entries;
    var status := store.OnZoomOut();
    assert store.entries == [e1, e2, e3];
    after := [e1.isSelected, e2.isSelected, e3.isSelected];
    restoredSelection := store.selectedEntries;
  }
}
