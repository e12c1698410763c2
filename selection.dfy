/** The two passes the store makes over its entries: the membership pass of
    `selection-made` (src/store/index.js:128-131) and the filter pass of
    `zoom-in` (src/store/index.js:143-148). Both walk the entries from first
    to last and push onto a result, so both are defined here by recursion on
    the last element: the result for a prefix, extended by what the pass does
    with the next entry. */
module Selection {
  import opened Domain

  /** One step of the membership pass: the entry with its flag set to
      whether its id occurs in the selection list. */
  function Mark(e: Entry, ids: seq<Id>): (r: Entry)
  {
    e.(isSelected := e.id in ids)
  }

  /** The entries after a selection with list `ids`. */
  function MarkSelection(es: seq<Entry>, ids: seq<Id>): (r: seq<Entry>)
    ensures |r| == |es|
    decreases |es|
  {
    if es == [] then [] else MarkSelection(es[..|es| - 1], ids) + [Mark(es[|es| - 1], ids)]
  }

  lemma {:induction false} MarkSelectionAt(es: seq<Entry>, ids: seq<Id>, i: int)
    requires 0 <= i < |es|
    ensures MarkSelection(es, ids)[i] == es[i].(isSelected := es[i].id in ids)
    decreases |es|
  {
    if i < |es| - 1 {
      MarkSelectionAt(es[..|es| - 1], ids, i);
    }
  }

  /** Selection keeps the entries, their order, ids and values, and sets
      each flag to membership of the id in the list, in both directions. */
  lemma {:induction false} MarkSelectionSpec(es: seq<Entry>, ids: seq<Id>)
    ensures |MarkSelection(es, ids)| == |es|
    ensures forall i :: 0 <= i < |es| ==>
              MarkSelection(es, ids)[i].id == es[i].id &&
              MarkSelection(es, ids)[i].data == es[i].data &&
              (MarkSelection(es, ids)[i].isSelected <==> es[i].id in ids)
    ensures FlagsAgree(MarkSelection(es, ids), ids)
  {
    forall i | 0 <= i < |es| {
      MarkSelectionAt(es, ids, i);
    }
  }

  /** A later selection overrides an earlier one entirely; with the same
      list twice, selecting twice is selecting once. */
  lemma {:induction false} MarkSelectionLastWins(es: seq<Entry>, first: seq<Id>, second: seq<Id>)
    ensures MarkSelection(MarkSelection(es, first), second) == MarkSelection(es, second)
  {
    var once := MarkSelection(es, first);
    forall i | 0 <= i < |es|
      ensures MarkSelection(once, second)[i] == MarkSelection(es, second)[i]
    {
      MarkSelectionAt(es, first, i);
      MarkSelectionAt(once, second, i);
      MarkSelectionAt(es, second, i);
    }
  }

  lemma {:induction false} MarkSelectionIdempotent(es: seq<Entry>, ids: seq<Id>)
    ensures MarkSelection(MarkSelection(es, ids), ids) == MarkSelection(es, ids)
  {
    MarkSelectionLastWins(es, ids, ids);
  }

  /** Ids are untouched by selection, so uniqueness of ids is kept. */
  lemma MarkSelectionKeepsUniqueIds(es: seq<Entry>, ids: seq<Id>)
    requires UniqueIds(es)
    ensures UniqueIds(MarkSelection(es, ids))
  {
    MarkSelectionSpec(es, ids);
  }

  /** The entries a zoom-in keeps: those flagged selected, in their order,
      each with its flag cleared. */
  function KeepSelected(es: seq<Entry>): (r: seq<Entry>)
    ensures |r| <= |es|
    decreases |es|
  {
    if es == [] then []
    else
      var last := es[|es| - 1];
      KeepSelected(es[..|es| - 1]) + (if last.isSelected then [last.(isSelected := false)] else [])
  }

  /** The positions of the selected entries, in increasing order. */
  function SelectedPositions(es: seq<Entry>): (p: seq<nat>)
    decreases |es|
  {
    if es == [] then []
    else SelectedPositions(es[..|es| - 1]) + (if es[|es| - 1].isSelected then [|es| - 1] else [])
  }

  /** `r` is the subsequence of `es` at the strictly increasing positions
      `p`, with every flag cleared, and `p` holds every selected position. */
  ghost predicate ClearedSubsequence(r: seq<Entry>, es: seq<Entry>, p: seq<nat>)
  {
    |p| == |r| &&
    (forall k :: 0 <= k < |p| ==>
       p[k] < |es| && es[p[k]].isSelected && r[k] == es[p[k]].(isSelected := false)) &&
    (forall k1, k2 :: 0 <= k1 < k2 < |p| ==> p[k1] < p[k2]) &&
    (forall i :: 0 <= i < |es| && es[i].isSelected ==> i in p)
  }

  /** Zoom-in keeps exactly the selected entries, in their original order,
      with their flags cleared. */
  lemma {:induction false} KeepSelectedSpec(es: seq<Entry>)
    ensures ClearedSubsequence(KeepSelected(es), es, SelectedPositions(es))
    decreases |es|
  {
    if es != [] {
      var init := es[..|es| - 1];
      var last := es[|es| - 1];
      KeepSelectedSpec(init);
      var p0 := SelectedPositions(init);
      var r0 := KeepSelected(init);
      var p := SelectedPositions(es);
      var r := KeepSelected(es);
      assert p == p0 + (if last.isSelected then [|es| - 1] else []);
      assert r == r0 + (if last.isSelected then [last.(isSelected := false)] else []);
      forall k | 0 <= k < |p|
        ensures p[k] < |es| && es[p[k]].isSelected && r[k] == es[p[k]].(isSelected := false)
      {
        if k < |p0| {
          assert p[k] == p0[k] && r[k] == r0[k] && es[p0[k]] == init[p0[k]];
        }
      }
      forall k1, k2 | 0 <= k1 < k2 < |p|
        ensures p[k1] < p[k2]
      {
        if k2 < |p0| {
          assert p[k1] == p0[k1] && p[k2] == p0[k2];
        } else {
          assert p[k1] == p0[k1] && p0[k1] < |init|;
        }
      }
      forall i | 0 <= i < |es| && es[i].isSelected
        ensures i in p
      {
        if i < |es| - 1 {
          assert init[i] == es[i];
          assert i in p0;
        } else {
          assert p[|p| - 1] == i;
        }
      }
    }
  }

  /** Every entry a zoom-in keeps has its flag cleared. */
  lemma {:induction false} KeepSelectedClearsFlags(es: seq<Entry>)
    ensures forall k :: 0 <= k < |KeepSelected(es)| ==> !KeepSelected(es)[k].isSelected
  {
    KeepSelectedSpec(es);
  }

  /** A subsequence of entries with unique ids has unique ids. */
  lemma KeepSelectedKeepsUniqueIds(es: seq<Entry>)
    requires UniqueIds(es)
    ensures UniqueIds(KeepSelected(es))
  {
    var r, p := KeepSelected(es), SelectedPositions(es);
    KeepSelectedSpec(es);
    forall k1, k2 | 0 <= k1 < k2 < |r|
      ensures r[k1].id != r[k2].id
    {
      assert r[k1].id == es[p[k1]].id && r[k2].id == es[p[k2]].id;
    }
  }
}
