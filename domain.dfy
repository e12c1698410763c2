/** The values the Data Lasso store holds and the actions it receives.
    Everything the store only carries around without looking inside
    (attribute descriptors, scales, axis mappings, the configuration object,
    the raw upload, an entry's column values) is an opaque type: the store
    never inspects them, and an opaque type also stands for JavaScript's
    `undefined` where the source may carry that. */
module Domain {

  /** The `__id` an entry carries; only compared for equality. */
  type Id(==)
  /** An entry's column values (attribute name to value). */
  type EntryData
  /** Attribute descriptors produced by the data transform. */
  type Attributes
  /** Per-attribute extents, recomputed whenever the entry set changes. */
  type Scales
  /** Assignment of attributes to the x/y/z axes. */
  type Mappings
  /** The configuration object the store keeps in `this.options`. */
  type Options
  /** The raw records of an uploaded file. */
  type RawEntries

  datatype Option<T> = None | Some(value: T)

  /** One data record: a stable id, its values and the selection flag. */
  datatype Entry = Entry(id: Id, data: EntryData, isSelected: bool)

  /** The interaction mode; the source stores the strings 'normal' and 'selection'. */
  datatype Mode = Normal | Selection

  /** What a zoom-in saves so that zoom-out can put it back: the `_.pick` of
      entries, mappings, scales, attributes and selectedEntries. */
  datatype Snapshot = Snapshot(
    entries: seq<Entry>,
    mappings: Mappings,
    scales: Scales,
    attributes: Attributes,
    selectedEntries: seq<Id>)

  /** What `datahelper.processInput` returns. */
  datatype Processed = Processed(entries: seq<Entry>, attributes: Attributes, scales: Scales)

  /** The two data-transform routines the store calls. Their code is not part
      of this model; they are deterministic and pure, so they are arbitrary
      total functions here. */
  datatype Transform = Transform(
    processInput: (RawEntries, Options) -> Processed,
    getUpdatedScales: (seq<Entry>, Options) -> Scales)

  /** An action as the dispatcher delivers it: a string `actionType` and the
      payload fields the handlers read. Each handler reads only its own
      fields; the others are present but ignored, as in the source, where an
      action is a plain object. */
  datatype Action = Action(
    actionType: string,
    options: Options,
    rawEntries: RawEntries,
    selectedEntries: seq<Id>,
    mappings: Mappings,
    entry: Option<Entry>)

  /** The nine action types the dispatch callback's switch has a case for. */
  const ActionTypes: set<string> := {
    "options-set", "file-uploaded", "selection-started", "selection-stopped",
    "selection-made", "axis-mappings-updated", "entry-hovered", "zoom-in", "zoom-out"
  }

  /** How a dispatch ended. `Unrecognized`: the switch matched no case.
      `StackUnderflow`: zoom-out found no snapshot, where the source's
      `lastSnapshot.entries` throws a TypeError before anything is set. */
  datatype Status = Handled | Unrecognized | StackUnderflow

  /** No two entries share an id. */
  ghost predicate UniqueIds(es: seq<Entry>)
  {
    forall i, j :: 0 <= i < j < |es| ==> es[i].id != es[j].id
  }

  /** Every entry's flag says whether its id is in the selection list. */
  ghost predicate FlagsAgree(es: seq<Entry>, ids: seq<Id>)
  {
    forall i :: 0 <= i < |es| ==> (es[i].isSelected <==> es[i].id in ids)
  }
}
