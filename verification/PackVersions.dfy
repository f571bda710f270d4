/** Versions of a print template: snapshots and restores (wms/print_pack_template_versions.py). */
module PackVersions {
  import opened Ids
  import Text

  datatype Mapping = Mapping(worksheet: string, cell: string, source: string, transform: string, required: bool,
    sequence: nat)

  type Bytes = seq<bv8>

  datatype ChangeType = Saved | Restored

  datatype Version = Version(number: nat, template: Option<Bytes>, mappings: seq<Mapping>, change: ChangeType,
    note: string)

  /** A document: its current template, its cell mappings by key, its versions in the order of creation. */
  datatype Document = Document(template: Option<Bytes>, mappings: map<Id, Mapping>, versions: seq<Version>)

  // ---------------------------------------------------------------- snapshots

  /** By sequence, then by key. */
  predicate Earlier(mappings: map<Id, Mapping>, x: Id, y: Id) {
    && x in mappings && y in mappings
    && (mappings[x].sequence < mappings[y].sequence || (mappings[x].sequence == mappings[y].sequence && x < y))
  }

  function BySequence(mappings: map<Id, Mapping>): (Id, Id) -> bool {
    (x: Id, y: Id) => Earlier(mappings, x, y)
  }

  function Listed(mappings: map<Id, Mapping>, ids: seq<Id>): (entries: seq<Mapping>)
    requires forall id :: id in ids ==> id in mappings
    ensures |entries| == |ids| && forall i :: 0 <= i < |ids| ==> ids[i] in mappings && entries[i] == mappings[ids[i]]
  {
    assert forall i :: 0 <= i < |ids| ==> ids[i] in ids;
    seq(|ids|, i requires 0 <= i < |ids| => mappings[ids[i]])
  }

  lemma SequenceOrders(mappings: map<Id, Mapping>)
    ensures Orders(BySequence(mappings), mappings.Keys)
  {
  }

  function Ordered(mappings: map<Id, Mapping>): (ids: seq<Id>)
    ensures Sorted(BySequence(mappings), ids) && forall id :: id in ids <==> id in mappings
  {
    SequenceOrders(mappings);
    SortBy(BySequence(mappings), mappings.Keys)
  }

  /** `_snapshot_mappings` */
  function Snapshot(mappings: map<Id, Mapping>): (entries: seq<Mapping>)
    ensures BySequenceSorted(entries)
  {
    Listed(mappings, Ordered(mappings))
  }

  predicate BySequenceSorted(entries: seq<Mapping>) {
    forall i, j :: 0 <= i < j < |entries| ==> entries[i].sequence <= entries[j].sequence
  }

  predicate SameCell(a: Mapping, b: Mapping) {
    a.worksheet == b.worksheet && a.cell == b.cell
  }

  /** No two entries name one cell; the database refuses such rows. */
  predicate DistinctCells(entries: seq<Mapping>) {
    forall i, j :: 0 <= i < j < |entries| ==> !SameCell(entries[i], entries[j])
  }

  ghost predicate UniqueCells(mappings: map<Id, Mapping>) {
    forall x, y :: x in mappings && y in mappings && x != y ==> !SameCell(mappings[x], mappings[y])
  }

  // ---------------------------------------------------------------- version numbers

  function MaxNumber(versions: seq<Version>): (n: nat)
    ensures forall i :: 0 <= i < |versions| ==> versions[i].number <= n
  {
    if versions == [] then 0
    else
      var last, rest := versions[|versions| - 1].number, MaxNumber(versions[..|versions| - 1]);
      if rest < last then last else rest
  }

  /** `_next_version_number` */
  function NextNumber(versions: seq<Version>): nat {
    MaxNumber(versions) + 1
  }

  predicate Increasing(versions: seq<Version>) {
    forall i, j :: 0 <= i < j < |versions| ==> versions[i].number < versions[j].number
  }

  // ---------------------------------------------------------------- save and restore

  /** `save_print_pack_document_snapshot` */
  function SaveSnapshot(d: Document, change: ChangeType, note: string): Document {
    d.(versions := d.versions
      + [Version(NextNumber(d.versions), d.template, Snapshot(d.mappings), change, Text.Strip(note))])
  }

  /** A row made from an entry: texts are stripped, a zero sequence becomes the position of the entry. */
  function RowFrom(entry: Mapping, position: nat): Mapping {
    Mapping(Text.Strip(entry.worksheet), Text.Strip(entry.cell), Text.Strip(entry.source), Text.Strip(entry.transform),
            entry.required, if entry.sequence == 0 then position else entry.sequence)
  }

  function RowsFrom(entries: seq<Mapping>): (rows: seq<Mapping>)
    ensures |rows| == |entries| && forall i :: 0 <= i < |entries| ==> rows[i] == RowFrom(entries[i], i + 1)
  {
    seq(|entries|, i requires 0 <= i < |entries| => RowFrom(entries[i], i + 1))
  }

  /** The rows under consecutive new keys. */
  function Keyed(rows: seq<Mapping>, base: Id): (mappings: map<Id, Mapping>)
    ensures forall id :: id in mappings <==> base <= id < base + |rows|
    ensures forall id :: id in mappings ==> mappings[id] == rows[id - base]
  {
    if rows == [] then map[]
    else
      var n := |rows| - 1;
      Keyed(rows[..n], base)[base + n := rows[n]]
  }

  /** `restore_print_pack_document_version`; `None` is the integrity error that rolls the transaction back. */
  function RestoreVersion(d: Document, v: Version, base: Id, note: string): Option<Document> {
    var rows := RowsFrom(v.mappings);
    if !DistinctCells(rows) then None
    else Some(SaveSnapshot(Document(v.template, Keyed(rows, base), d.versions), Restored, note))
  }

  /** Sequences are positive and texts trimmed. */
  predicate CleanEntry(m: Mapping) {
    && m.sequence > 0 && Text.Trimmed(m.worksheet) && Text.Trimmed(m.cell)
    && Text.Trimmed(m.source) && Text.Trimmed(m.transform)
  }

  predicate Clean(entries: seq<Mapping>) {
    forall i :: 0 <= i < |entries| ==> CleanEntry(entries[i])
  }

  // ---------------------------------------------------------------- the round trip

  lemma RowFromClean(entry: Mapping, position: nat)
    requires position > 0
    ensures CleanEntry(RowFrom(entry, position))
    ensures RowFrom(entry, position) == entry <==> CleanEntry(entry)
  {
    Text.StripTrims(entry.worksheet);
    Text.StripTrims(entry.cell);
    Text.StripTrims(entry.source);
    Text.StripTrims(entry.transform);
  }

  function Consecutive(base: Id, n: nat): (ids: seq<Id>)
    ensures |ids| == n && forall i :: 0 <= i < n ==> ids[i] == base + i
  {
    seq(n, i requires 0 <= i < n => base + i)
  }

  /** A snapshot lists the rows in the one order there is. */
  lemma SnapshotIsListed(mappings: map<Id, Mapping>, ids: seq<Id>)
    requires Sorted(BySequence(mappings), ids) && (forall x :: x in ids <==> x in mappings.Keys)
    requires forall i, j :: 0 <= i < j < |ids| ==> ids[i] != ids[j]
    ensures Snapshot(mappings) == Listed(mappings, ids)
  {
    SequenceOrders(mappings);
    SortedUnique(BySequence(mappings), SortBy(BySequence(mappings), mappings.Keys), ids, mappings.Keys);
  }

  /** The mappings are the rows under consecutive keys. */
  ghost predicate Numbered(mappings: map<Id, Mapping>, rows: seq<Mapping>, base: Id) {
    && (forall id :: id in mappings <==> base <= id < base + |rows|)
    && (forall id :: id in mappings ==> mappings[id] == rows[id - base])
  }

  lemma ConsecutiveHas(base: Id, n: nat, x: Id)
    ensures x in Consecutive(base, n) <==> base <= x < base + n
  {
    if base <= x < base + n { assert Consecutive(base, n)[x - base] == x; }
  }

  lemma NumberedRow(mappings: map<Id, Mapping>, rows: seq<Mapping>, base: Id, i: nat)
    requires Numbered(mappings, rows, base) && i < |rows|
    ensures base + i in mappings && mappings[base + i] == rows[i]
  {
  }

  lemma NumberedEarlier(mappings: map<Id, Mapping>, rows: seq<Mapping>, base: Id, i: nat, j: nat)
    requires Numbered(mappings, rows, base) && BySequenceSorted(rows) && i < j < |rows|
    ensures Earlier(mappings, base + i, base + j)
  {
    NumberedRow(mappings, rows, base, i);
    NumberedRow(mappings, rows, base, j);
  }

  lemma ConsecutiveSorted(rows: seq<Mapping>, base: Id, mappings: map<Id, Mapping>)
    requires BySequenceSorted(rows) && Numbered(mappings, rows, base)
    ensures Sorted(BySequence(mappings), Consecutive(base, |rows|))
  {
    var ids := Consecutive(base, |rows|);
    forall i, j | 0 <= i < j < |ids| ensures BySequence(mappings)(ids[i], ids[j]) {
      NumberedEarlier(mappings, rows, base, i, j);
    }
  }

  lemma SnapshotOfNumbered(rows: seq<Mapping>, base: Id, mappings: map<Id, Mapping>)
    requires BySequenceSorted(rows) && Numbered(mappings, rows, base)
    ensures Snapshot(mappings) == rows
  {
    var ids := Consecutive(base, |rows|);
    ConsecutiveSorted(rows, base, mappings);
    forall x ensures x in ids <==> x in mappings.Keys {
      ConsecutiveHas(base, |rows|, x);
    }
    forall i | 0 <= i < |ids| ensures ids[i] in mappings && mappings[ids[i]] == rows[i] {
      NumberedRow(mappings, rows, base, i);
    }
    SnapshotIsListed(mappings, ids);
    ListedIs(mappings, ids, rows);
  }

  lemma ListedIs(mappings: map<Id, Mapping>, ids: seq<Id>, rows: seq<Mapping>)
    requires |ids| == |rows| && forall id :: id in ids ==> id in mappings
    requires forall i :: 0 <= i < |ids| ==> ids[i] in mappings && mappings[ids[i]] == rows[i]
    ensures Listed(mappings, ids) == rows
  {
  }

  lemma KeyedNumbered(rows: seq<Mapping>, base: Id)
    ensures Numbered(Keyed(rows, base), rows, base)
  {
  }

  /** Rows that are sorted already come out of a snapshot as they went in. */
  lemma SnapshotOfSorted(rows: seq<Mapping>, base: Id)
    requires BySequenceSorted(rows)
    ensures Snapshot(Keyed(rows, base)) == rows
  {
    KeyedNumbered(rows, base);
    SnapshotOfNumbered(rows, base, Keyed(rows, base));
  }

  lemma RowsFromClean(entries: seq<Mapping>)
    ensures Clean(RowsFrom(entries)) && (RowsFrom(entries) == entries <==> Clean(entries))
  {
    var rows := RowsFrom(entries);
    forall i | 0 <= i < |rows| ensures CleanEntry(rows[i]) && (rows[i] == entries[i] <==> CleanEntry(entries[i])) {
      RowFromClean(entries[i], i + 1);
    }
  }

  /** A snapshot of restored rows is clean. */
  lemma SnapshotClean(rows: seq<Mapping>, base: Id)
    requires Clean(rows)
    ensures Clean(Snapshot(Keyed(rows, base)))
  {
    var mappings := Keyed(rows, base);
    var ids := Ordered(mappings);
    forall i | 0 <= i < |ids| ensures CleanEntry(Listed(mappings, ids)[i]) {
      assert ids[i] in ids && CleanEntry(rows[ids[i] - base]);
    }
  }

  /** Restored rows are the version's own entries, in the version's order, exactly when the entries are clean. */
  lemma RestoredRows(entries: seq<Mapping>, base: Id)
    requires BySequenceSorted(entries)
    ensures Snapshot(Keyed(RowsFrom(entries), base)) == entries <==> Clean(entries)
  {
    RowsFromClean(entries);
    SnapshotClean(RowsFrom(entries), base);
    if Clean(entries) {
      SnapshotOfSorted(entries, base);
    }
  }

  /** Restoring a version yields one with the same ordered mappings and the same template exactly when the version's
      sequences are positive and its texts trimmed; a version of trimmed texts is always restored. */
  lemma RestoreRoundTrip(d: Document, v: Version, base: Id, note: string)
    requires BySequenceSorted(v.mappings) && DistinctCells(v.mappings)
    ensures Clean(v.mappings) ==> RestoreVersion(d, v, base, note).Some?
    ensures
      var restored := RestoreVersion(d, v, base, note);
      restored.Some? ==>
        && |restored.value.versions| == |d.versions| + 1 && restored.value.versions[..|d.versions|] == d.versions
        && restored.value.template == v.template
        && var added := restored.value.versions[|d.versions|];
           && added.number == NextNumber(d.versions) && added.template == v.template
           && (added.mappings == v.mappings <==> Clean(v.mappings))
  {
    RowsFromClean(v.mappings);
    RestoredRows(v.mappings, base);
    var rows := RowsFrom(v.mappings);
    var after := Document(v.template, Keyed(rows, base), d.versions);
    Appended(after, note);
    if DistinctCells(rows) {
      assert RestoreVersion(d, v, base, note) == Some(SaveSnapshot(after, Restored, note));
    }
  }

  lemma Appended(d: Document, note: string)
    ensures var saved := SaveSnapshot(d, Restored, note);
      && |saved.versions| == |d.versions| + 1 && saved.versions[..|d.versions|] == d.versions
      && saved.template == d.template
      && var added := saved.versions[|d.versions|];
         && added.number == NextNumber(d.versions) && added.template == d.template
         && added.mappings == Snapshot(d.mappings)
  {
  }

  /** The entries list every mapping once, by sequence and then by key. */
  ghost predicate ListsAll(entries: seq<Mapping>, mappings: map<Id, Mapping>, ids: seq<Id>) {
    && |ids| == |entries| && (forall id :: id in ids <==> id in mappings)
    && (forall i :: 0 <= i < |ids| ==> ids[i] in mappings && entries[i] == mappings[ids[i]])
    && (forall i, j :: 0 <= i < j < |ids| ==> Earlier(mappings, ids[i], ids[j]))
  }

  /** What a save of any kind appends: the number after the largest so far, the current template, all mappings. */
  lemma SavedTells(d: Document, change: ChangeType, note: string) returns (ids: seq<Id>)
    ensures var after := SaveSnapshot(d, change, note);
      && after.template == d.template && after.mappings == d.mappings
      && |after.versions| == |d.versions| + 1 && after.versions[..|d.versions|] == d.versions
      && var added := after.versions[|d.versions|];
         && added.template == d.template && added.change == change && added.note == Text.Strip(note)
         && ListsAll(added.mappings, d.mappings, ids)
         && (forall i :: 0 <= i < |d.versions| ==> d.versions[i].number < added.number)
         && (if d.versions == [] then added.number == 1
             else exists i :: 0 <= i < |d.versions| && d.versions[i].number + 1 == added.number)
  {
    ids := Ordered(d.mappings);
    assert forall i :: 0 <= i < |ids| ==> ids[i] in ids;
    assert forall i, j :: 0 <= i < j < |ids| ==> BySequence(d.mappings)(ids[i], ids[j]);
    if d.versions != [] { var i := MaxIsReached(d.versions); }
  }

  lemma {:induction false} MaxIsReached(versions: seq<Version>) returns (i: nat)
    requires versions != []
    ensures i < |versions| && versions[i].number == MaxNumber(versions)
    decreases |versions|
  {
    i := |versions| - 1;
    if i > 0 && MaxNumber(versions[..i]) >= versions[i].number {
      i := MaxIsReached(versions[..i]);
    }
  }

  /** Each change of a document: an edit replaces template and mappings, a save only appends a version, and a restore
      appends one that is marked as such, or changes nothing. */
  lemma ChangeTells(d: Document, c: Change)
    requires Possible(d, c)
    ensures var after := After(d, c);
      && (c.Edit? ==> after.template == c.template && after.mappings == c.mappings && after.versions == d.versions)
      && (c.Save? ==>
            && after.template == d.template && after.mappings == d.mappings && |after.versions| == |d.versions| + 1
            && after.versions[|d.versions|].change.Saved? && after.versions[|d.versions|].note == Text.Strip(c.note))
      && (c.Restore? ==>
            if exists i, j :: SameTarget(d.versions[c.index].mappings, i, j) then after == d
            else
              && after.template == d.versions[c.index].template && |after.versions| == |d.versions| + 1
              && after.versions[|d.versions|].change.Restored?
              && after.versions[|d.versions|].note == Text.Strip(c.note))
  {
    if c.Restore? { RefusedIff(d, d.versions[c.index], c.base, c.note); }
  }

  lemma RestoredIs(d: Document, v: Version, base: Id, note: string)
    ensures RestoreVersion(d, v, base, note).Some? <==> DistinctCells(RowsFrom(v.mappings))
    ensures RestoreVersion(d, v, base, note).Some? ==>
      RestoreVersion(d, v, base, note).value.template == v.template
      && RestoreVersion(d, v, base, note).value.mappings == Keyed(RowsFrom(v.mappings), base)
  {
  }

  lemma RowIs(entries: seq<Mapping>, i: nat)
    requires i < |entries|
    ensures |RowsFrom(entries)| == |entries| && RowsFrom(entries)[i] == RowFrom(entries[i], i + 1)
  {
  }

  lemma SameTargetIff(entries: seq<Mapping>, i: nat, j: nat)
    requires i < j < |entries|
    ensures SameTarget(entries, i, j) <==> SameCell(RowsFrom(entries)[i], RowsFrom(entries)[j])
  {
    RowIs(entries, i);
    RowIs(entries, j);
  }

  /** A restore is refused exactly if two entries of the version name one cell once their texts are stripped. */
  lemma RefusedIff(d: Document, v: Version, base: Id, note: string)
    ensures RestoreVersion(d, v, base, note).None? <==> exists i, j :: SameTarget(v.mappings, i, j)
  {
    RestoredIs(d, v, base, note);
    var rows := RowsFrom(v.mappings);
    if i: nat, j: nat :| SameTarget(v.mappings, i, j) {
      SameTargetIff(v.mappings, i, j);
    }
    if i, j :| 0 <= i < j < |rows| && SameCell(rows[i], rows[j]) {
      SameTargetIff(v.mappings, i, j);
    }
  }

  ghost predicate SameTarget(entries: seq<Mapping>, i: nat, j: nat) {
    && i < j < |entries| && Text.Strip(entries[i].worksheet) == Text.Strip(entries[j].worksheet)
    && Text.Strip(entries[i].cell) == Text.Strip(entries[j].cell)
  }

  lemma RowRestored(entries: seq<Mapping>, base: Id, i: nat)
    requires i < |entries|
    ensures RestoredAs(entries[i], i, Keyed(RowsFrom(entries), base), base + i)
  {
    var rows := RowsFrom(entries);
    RowIs(entries, i);
    RowFromIs(entries[i], i + 1);
    KeyedNumbered(rows, base);
    RestoredRow(entries[i], rows, Keyed(rows, base), base, i);
  }

  lemma RowFromIs(entry: Mapping, position: nat)
    ensures var row := RowFrom(entry, position);
      && row.worksheet == Text.Strip(entry.worksheet) && row.cell == Text.Strip(entry.cell)
      && row.source == Text.Strip(entry.source) && row.transform == Text.Strip(entry.transform)
      && row.required == entry.required && row.sequence == if entry.sequence > 0 then entry.sequence else position
  {
  }

  lemma RestoredRow(entry: Mapping, rows: seq<Mapping>, mappings: map<Id, Mapping>, base: Id, i: nat)
    requires Numbered(mappings, rows, base) && i < |rows|
    requires rows[i].worksheet == Text.Strip(entry.worksheet) && rows[i].cell == Text.Strip(entry.cell)
    requires rows[i].source == Text.Strip(entry.source) && rows[i].transform == Text.Strip(entry.transform)
    requires rows[i].required == entry.required
    requires rows[i].sequence == if entry.sequence > 0 then entry.sequence else i + 1
    ensures RestoredAs(entry, i, mappings, base + i)
  {
    NumberedRow(mappings, rows, base, i);
  }

  /** What a restore leaves: the version's template, and for each of its entries one row with stripped texts, numbered
      by its place if it had no number. */
  lemma RestoredTells(d: Document, v: Version, base: Id, note: string, after: Document)
    requires RestoreVersion(d, v, base, note) == Some(after)
    ensures after.template == v.template
    ensures forall id :: id in after.mappings <==> base <= id < base + |v.mappings|
    ensures forall i: nat :: i < |v.mappings| ==> RestoredAs(v.mappings[i], i, after.mappings, base + i)
  {
    RestoredIs(d, v, base, note);
    var mappings := Keyed(RowsFrom(v.mappings), base);
    assert after.mappings == mappings;
    forall i: nat | i < |v.mappings| ensures RestoredAs(v.mappings[i], i, mappings, base + i) {
      RowRestored(v.mappings, base, i);
    }
  }

  ghost predicate RestoredAs(entry: Mapping, i: nat, mappings: map<Id, Mapping>, id: Id) {
    && id in mappings
    && mappings[id].worksheet == Text.Strip(entry.worksheet) && mappings[id].cell == Text.Strip(entry.cell)
    && mappings[id].source == Text.Strip(entry.source) && mappings[id].transform == Text.Strip(entry.transform)
    && mappings[id].required == entry.required
    && (entry.sequence > 0 ==> mappings[id].sequence == entry.sequence)
    && (entry.sequence == 0 ==> mappings[id].sequence == i + 1)
  }

  // ---------------------------------------------------------------- every run of saves and restores

  /** Edits change the template and the mappings at will, within what the database allows. */
  datatype Change =
    | Edit(template: Option<Bytes>, mappings: map<Id, Mapping>)
    | Save(note: string)
    | Restore(index: nat, base: Id, note: string)

  ghost predicate Possible(d: Document, c: Change) {
    match c
    case Edit(_, mappings) => UniqueCells(mappings)
    case Save(_) => true
    case Restore(index, _, _) => index < |d.versions|
  }

  function After(d: Document, c: Change): Document
    requires c.Restore? ==> c.index < |d.versions|
  {
    match c
    case Edit(template, mappings) => d.(template := template, mappings := mappings)
    case Save(note) => SaveSnapshot(d, Saved, note)
    case Restore(index, base, note) =>
      var restored := RestoreVersion(d, d.versions[index], base, note);
      if restored.Some? then restored.value else d
  }

  ghost predicate Run(d: Document, changes: seq<Change>)
    decreases |changes|
  {
    changes != [] ==> Possible(d, changes[0]) && Run(After(d, changes[0]), changes[1..])
  }

  ghost function Final(d: Document, changes: seq<Change>): Document
    requires Run(d, changes)
    decreases |changes|
  {
    if changes == [] then d else Final(After(d, changes[0]), changes[1..])
  }

  /** Version numbers increase, and every version is a sorted snapshot of distinct cells. */
  ghost predicate Consistent(d: Document) {
    && UniqueCells(d.mappings) && Increasing(d.versions)
    && (forall i :: 0 <= i < |d.versions| ==>
          BySequenceSorted(d.versions[i].mappings) && DistinctCells(d.versions[i].mappings))
  }

  lemma SnapshotDistinct(mappings: map<Id, Mapping>)
    requires UniqueCells(mappings)
    ensures DistinctCells(Snapshot(mappings))
  {
    SequenceOrders(mappings);
    var ids := Ordered(mappings);
    forall i, j | 0 <= i < j < |ids| ensures !SameCell(mappings[ids[i]], mappings[ids[j]]) {
      assert ids[i] in ids && ids[j] in ids;
    }
  }

  lemma KeyedUnique(rows: seq<Mapping>, base: Id)
    requires DistinctCells(rows)
    ensures UniqueCells(Keyed(rows, base))
  {
    var mappings := Keyed(rows, base);
    forall x, y | x in mappings && y in mappings && x != y ensures !SameCell(mappings[x], mappings[y]) {
      var i, j := x - base, y - base;
      assert if i < j then !SameCell(rows[i], rows[j]) else !SameCell(rows[j], rows[i]);
    }
  }

  lemma SavedKeepsHistory(d: Document, change: ChangeType, note: string)
    requires Consistent(d)
    ensures Consistent(SaveSnapshot(d, change, note)) && d.versions <= SaveSnapshot(d, change, note).versions
  {
    SnapshotDistinct(d.mappings);
  }

  lemma ChangeKeepsHistory(d: Document, c: Change)
    requires Consistent(d) && Possible(d, c)
    ensures Consistent(After(d, c)) && d.versions <= After(d, c).versions
  {
    match c
    case Edit(_, _) =>
    case Save(note) => SavedKeepsHistory(d, Saved, note);
    case Restore(index, base, note) =>
      var rows := RowsFrom(d.versions[index].mappings);
      if DistinctCells(rows) {
        KeyedUnique(rows, base);
        SavedKeepsHistory(Document(d.versions[index].template, Keyed(rows, base), d.versions), Restored, note);
      }
  }

  /** Over every run of edits, saves and restores: versions are only appended, their numbers strictly increase, and
      older versions are untouched. */
  lemma {:induction false} HistoryIsAppendOnly(d: Document, changes: seq<Change>)
    requires Consistent(d) && Run(d, changes)
    ensures Consistent(Final(d, changes)) && d.versions <= Final(d, changes).versions
    decreases |changes|
  {
    if changes != [] {
      ChangeKeepsHistory(d, changes[0]);
      HistoryIsAppendOnly(After(d, changes[0]), changes[1..]);
    }
  }

  // ---------------------------------------------------------------- the document's methods

  /** The loop over the entries of a version. */
  method Rows(entries: seq<Mapping>) returns (buffer: seq<Mapping>)
    ensures buffer == RowsFrom(entries)
  {
    buffer := [];
    for i := 0 to |entries|
      invariant |buffer| == i && forall j :: 0 <= j < i ==> buffer[j] == RowFrom(entries[j], j + 1)
    {
      buffer := buffer + [RowFrom(entries[i], i + 1)];
    }
  }

  class PackDocument {
    var template: Option<Bytes>
    var mappings: map<Id, Mapping>
    var versions: seq<Version>
    var nextId: Id   // the database's sequence for mapping rows

    constructor (template: Option<Bytes>, mappings: map<Id, Mapping>)
      ensures Now() == Document(template, mappings, [])
    {
      this.template, this.mappings, this.versions, this.nextId := template, mappings, [], FreshId(mappings.Keys);
    }

    function Now(): Document
      reads this
    {
      Document(template, mappings, versions)
    }

    /** `save_print_pack_document_snapshot` */
    method SaveVersion(change: ChangeType, note: string) returns (version: Version)
      modifies this`versions
      ensures Now() == SaveSnapshot(old(Now()), change, note) && versions == old(versions) + [version]
    {
      version := Version(NextNumber(versions), template, Snapshot(mappings), change, Text.Strip(note));
      versions := versions + [version];
    }

    /** `_apply_mappings_snapshot` */
    method ApplyMappings(entries: seq<Mapping>) returns (created: bool)
      modifies this`mappings, this`nextId
      ensures created <==> DistinctCells(RowsFrom(entries))
      ensures created ==> mappings == Keyed(RowsFrom(entries), old(nextId))
    {
      mappings := map[];
      var buffer := Rows(entries);
      created := DistinctCells(buffer);
      if created {
        mappings := Keyed(buffer, nextId);
      }
      nextId := nextId + |buffer|;
    }

    /** `restore_print_pack_document_version` */
    method Restore(v: Version, note: string) returns (version: Option<Version>)
      modifies this
      ensures match RestoreVersion(old(Now()), v, old(nextId), note)
        case None => version.None? && Now() == old(Now())
        case Some(after) => Now() == after && version.Some? && versions == old(versions) + [version.value]
    {
      var savepoint := Now();
      template := v.template;
      var created := ApplyMappings(v.mappings);
      if !created {
        template, mappings, versions := savepoint.template, savepoint.mappings, savepoint.versions;
        return None;
      }
      var added := SaveVersion(Restored, note);
      version := Some(added);
    }
  }
}
