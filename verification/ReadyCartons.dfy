/** Ready cartons offered in an order: grouping, kits, selection (wms/order_helpers.py). */
module ReadyCartons {
  import opened Ids
  import opened Listings
  import opened Quantities
  import opened Cartons
  import opened KitComponents
  import opened Signatures
  import opened ProductLines

  type Names = Id -> string

  // ---------------------------------------------------------------- grouping

  /** Packed, in no shipment, and not empty. */
  predicate Ready(carton: Carton) {
    carton.status.Packed? && carton.shipment.None? && carton.contents != []
  }

  function LinesOf(carton: Carton, names: Names): seq<Line> {
    Lines(QuantitiesOf(carton.contents), CartonKey(names))
  }

  datatype Row = Row(key: string, lines: seq<Line>, composition: string, expiresOn: Option<Date>, stock: nat,
    cartonIds: seq<Id>)

  /** The carton belongs under these lines and this date. */
  predicate Fits(carton: Carton, names: Names, lines: seq<Line>, expiresOn: Option<Date>) {
    Ready(carton) && LinesOf(carton, names) == lines && EarliestOf(carton.contents) == expiresOn
  }

  /** The cartons under some lines and some date, in the order of the query. */
  function Members(cartons: seq<Carton>, names: Names, lines: seq<Line>, expiresOn: Option<Date>): seq<Id> {
    if cartons == [] then []
    else
      var last := cartons[|cartons| - 1];
      Members(cartons[..|cartons| - 1], names, lines, expiresOn)
      + if Fits(last, names, lines, expiresOn) then [last.id] else []
  }

  /** A row holds all cartons of its lines and date, counts them, and is keyed by its signature. */
  ghost predicate RowCorrect(row: Row, cartons: seq<Carton>, names: Names, digest: string -> string) {
    && row.cartonIds == Members(cartons, names, row.lines, row.expiresOn)
    && row.stock == |row.cartonIds| && row.composition == Composition(row.lines)
    && row.key == digest(Signature(row.lines, row.expiresOn))
  }

  ghost predicate SameKind(rows: seq<Row>, j: nat, k: nat) {
    j < |rows| && k < |rows| && rows[j].lines == rows[k].lines && rows[j].expiresOn == rows[k].expiresOn
  }

  /** The carton has a row of its lines and date. */
  ghost predicate HasRow(rows: seq<Row>, lines: seq<Line>, expiresOn: Option<Date>) {
    exists k :: 0 <= k < |rows| && rows[k].lines == lines && rows[k].expiresOn == expiresOn
  }

  ghost predicate RowsCorrect(rows: seq<Row>, cartons: seq<Carton>, names: Names, digest: string -> string) {
    forall k :: 0 <= k < |rows| ==> RowCorrect(rows[k], cartons, names, digest) && rows[k].cartonIds != []
  }

  ghost predicate OneRowEach(rows: seq<Row>) {
    forall j, k :: SameKind(rows, j, k) ==> j == k
  }

  ghost predicate AllHaveRows(rows: seq<Row>, cartons: seq<Carton>, names: Names) {
    forall i :: 0 <= i < |cartons| && Ready(cartons[i]) ==>
      HasRow(rows, LinesOf(cartons[i], names), EarliestOf(cartons[i].contents))
  }

  /** The rows group the ready cartons by lines and date. */
  ghost predicate Grouped(rows: seq<Row>, cartons: seq<Carton>, names: Names, digest: string -> string) {
    RowsCorrect(rows, cartons, names, digest) && OneRowEach(rows) && AllHaveRows(rows, cartons, names)
  }

  /** Where the row of each signature is. */
  ghost predicate Indexed(index: map<string, nat>, rows: seq<Row>) {
    && (forall sig :: sig in index ==> index[sig] < |rows| && RowSignature(rows[index[sig]]) == sig)
    && (forall k :: 0 <= k < |rows| ==> RowSignature(rows[k]) in index && index[RowSignature(rows[k])] == k)
  }

  function RowSignature(row: Row): string {
    Signature(row.lines, row.expiresOn)
  }

  lemma IndexedJoins(index: map<string, nat>, rows: seq<Row>, own: nat, row: Row)
    requires Indexed(index, rows) && own < |rows| && RowSignature(row) == RowSignature(rows[own])
    ensures Indexed(index, rows[own := row])
  {
  }

  lemma IndexedOpens(index: map<string, nat>, rows: seq<Row>, row: Row)
    requires Indexed(index, rows) && RowSignature(row) !in index
    ensures Indexed(index[RowSignature(row) := |rows|], rows + [row])
  {
  }

  lemma MembersByOne(cartons: seq<Carton>, carton: Carton, names: Names, lines: seq<Line>, expiresOn: Option<Date>)
    ensures Members(cartons + [carton], names, lines, expiresOn)
         == Members(cartons, names, lines, expiresOn)
            + if Fits(carton, names, lines, expiresOn) then [carton.id] else []
  {
    assert (cartons + [carton])[..|cartons|] == cartons;
  }

  lemma {:induction false} NoMembers(cartons: seq<Carton>, names: Names, lines: seq<Line>, expiresOn: Option<Date>)
    requires forall i :: 0 <= i < |cartons| ==> !Fits(cartons[i], names, lines, expiresOn)
    ensures Members(cartons, names, lines, expiresOn) == []
    decreases |cartons|
  {
    if cartons != [] { NoMembers(cartons[..|cartons| - 1], names, lines, expiresOn); }
  }

  /** A carton that is not ready changes no row. */
  lemma GroupedSkips(rows: seq<Row>, cartons: seq<Carton>, carton: Carton, names: Names, digest: string -> string)
    requires Grouped(rows, cartons, names, digest) && !Ready(carton)
    ensures Grouped(rows, cartons + [carton], names, digest)
  {
    forall k | 0 <= k < |rows| ensures RowCorrect(rows[k], cartons + [carton], names, digest) {
      MembersByOne(cartons, carton, names, rows[k].lines, rows[k].expiresOn);
    }
  }

  /** What `setdefault` and `append` make of the rows. */
  function Filed(
    rows: seq<Row>, index: map<string, nat>, carton: Carton, names: Names, digest: string -> string): seq<Row>
    requires forall sig :: sig in index ==> index[sig] < |rows|
  {
    var lines, expiresOn := LinesOf(carton, names), EarliestOf(carton.contents);
    var sig := Signature(lines, expiresOn);
    if sig in index then
      var row := rows[index[sig]];
      rows[index[sig] := row.(cartonIds := row.cartonIds + [carton.id], stock := row.stock + 1)]
    else rows + [Row(digest(sig), lines, Composition(lines), expiresOn, 1, [carton.id])]
  }

  lemma RowJoined(row: Row, joined: Row, cartons: seq<Carton>, carton: Carton, names: Names, digest: string -> string)
    requires RowCorrect(row, cartons, names, digest) && Fits(carton, names, row.lines, row.expiresOn)
    requires joined == row.(cartonIds := row.cartonIds + [carton.id], stock := row.stock + 1)
    ensures RowCorrect(joined, cartons + [carton], names, digest)
  {
    MembersByOne(cartons, carton, names, row.lines, row.expiresOn);
  }

  lemma RowUnjoined(row: Row, cartons: seq<Carton>, carton: Carton, names: Names, digest: string -> string)
    requires RowCorrect(row, cartons, names, digest) && !Fits(carton, names, row.lines, row.expiresOn)
    ensures RowCorrect(row, cartons + [carton], names, digest)
  {
    MembersByOne(cartons, carton, names, row.lines, row.expiresOn);
  }

  lemma RowOpened(row: Row, cartons: seq<Carton>, carton: Carton, names: Names, digest: string -> string)
    requires Fits(carton, names, row.lines, row.expiresOn)
    requires forall i :: 0 <= i < |cartons| ==> !Fits(cartons[i], names, row.lines, row.expiresOn)
    requires row
        == Row(digest(Signature(row.lines, row.expiresOn)), row.lines, Composition(row.lines), row.expiresOn, 1,
          [carton.id])
    ensures RowCorrect(row, cartons + [carton], names, digest)
  {
    NoMembers(cartons, names, row.lines, row.expiresOn);
    MembersByOne(cartons, carton, names, row.lines, row.expiresOn);
  }

  /** The row of the carton's kind receives the carton; the other rows have another kind. */
  lemma JoinsRow(
    rows: seq<Row>, own: nat, row: Row, cartons: seq<Carton>, carton: Carton, lines: seq<Line>, expiresOn: Option<Date>,
    names: Names, digest: string -> string)
    requires Grouped(rows, cartons, names, digest) && Fits(carton, names, lines, expiresOn) && own < |rows|
    requires rows[own].lines == lines && rows[own].expiresOn == expiresOn
    requires row == rows[own].(cartonIds := rows[own].cartonIds + [carton.id], stock := rows[own].stock + 1)
    ensures Grouped(rows[own := row], cartons + [carton], names, digest)
  {
    var after := rows[own := row];
    JoinedRowsCorrect(rows, own, row, cartons, carton, names, digest);
    OldKinds(rows, own, row);
    assert after[own] == row;
    RowsStay(rows, after, cartons, carton, names, lines, expiresOn);
  }

  lemma JoinedRowsCorrect(
    rows: seq<Row>, own: nat, row: Row, cartons: seq<Carton>, carton: Carton, names: Names, digest: string -> string)
    requires RowsCorrect(rows, cartons, names, digest) && OneRowEach(rows) && own < |rows|
    requires Fits(carton, names, rows[own].lines, rows[own].expiresOn)
    requires row == rows[own].(cartonIds := rows[own].cartonIds + [carton.id], stock := rows[own].stock + 1)
    ensures RowsCorrect(rows[own := row], cartons + [carton], names, digest)
  {
    var after := rows[own := row];
    forall k | 0 <= k < |after| ensures RowCorrect(after[k], cartons + [carton], names, digest) {
      if k == own {
        RowJoined(rows[own], row, cartons, carton, names, digest);
      } else {
        assert !SameKind(rows, k, own);
        RowUnjoined(rows[k], cartons, carton, names, digest);
      }
    }
  }

  /** A carton of a new kind opens a row. */
  lemma OpensRow(
    rows: seq<Row>, row: Row, cartons: seq<Carton>, carton: Carton, lines: seq<Line>, expiresOn: Option<Date>,
    names: Names, digest: string -> string)
    requires Grouped(rows, cartons, names, digest) && Fits(carton, names, lines, expiresOn)
    requires !HasRow(rows, lines, expiresOn)
    requires row == Row(digest(Signature(lines, expiresOn)), lines, Composition(lines), expiresOn, 1, [carton.id])
    ensures Grouped(rows + [row], cartons + [carton], names, digest)
  {
    var after := rows + [row];
    OpenedRowsCorrect(rows, row, cartons, carton, names, digest);
    NewKind(rows, row);
    assert after[|rows|] == row;
    RowsStay(rows, after, cartons, carton, names, lines, expiresOn);
  }

  lemma OldKinds(rows: seq<Row>, own: nat, row: Row)
    requires OneRowEach(rows) && own < |rows| && row.lines == rows[own].lines && row.expiresOn == rows[own].expiresOn
    ensures OneRowEach(rows[own := row])
  {
    var after := rows[own := row];
    forall j: nat, k: nat | SameKind(after, j, k) ensures j == k {
      assert after[j].lines == rows[j].lines && after[k].lines == rows[k].lines;
      assert SameKind(rows, j, k);
    }
  }

  lemma NewKind(rows: seq<Row>, row: Row)
    requires OneRowEach(rows) && !HasRow(rows, row.lines, row.expiresOn)
    ensures OneRowEach(rows + [row])
  {
    assert forall j: nat, k: nat :: SameKind(rows + [row], j, k) ==> j == k || SameKind(rows, j, k);
  }

  lemma OpenedRowsCorrect(
    rows: seq<Row>, row: Row, cartons: seq<Carton>, carton: Carton, names: Names, digest: string -> string)
    requires Grouped(rows, cartons, names, digest) && Fits(carton, names, row.lines, row.expiresOn)
    requires !HasRow(rows, row.lines, row.expiresOn)
    requires row
        == Row(digest(Signature(row.lines, row.expiresOn)), row.lines, Composition(row.lines), row.expiresOn, 1,
          [carton.id])
    ensures RowsCorrect(rows + [row], cartons + [carton], names, digest)
  {
    RowOpened(row, cartons, carton, names, digest);
    forall k | 0 <= k < |rows|
      ensures RowCorrect(rows[k], cartons + [carton], names, digest) && rows[k].cartonIds != []
    {
      RowUnjoined(rows[k], cartons, carton, names, digest);
    }
  }

  lemma RowsStay(
    rows: seq<Row>, after: seq<Row>, cartons: seq<Carton>, carton: Carton, names: Names, lines: seq<Line>,
    expiresOn: Option<Date>)
    requires |rows| <= |after|
    requires forall k :: 0 <= k < |rows| ==> after[k].lines == rows[k].lines && after[k].expiresOn == rows[k].expiresOn
    requires AllHaveRows(rows, cartons, names) && Fits(carton, names, lines, expiresOn)
    requires HasRow(after, lines, expiresOn)
    ensures AllHaveRows(after, cartons + [carton], names)
  {
    var all := cartons + [carton];
    forall i | 0 <= i < |all| && Ready(all[i])
      ensures HasRow(after, LinesOf(all[i], names), EarliestOf(all[i].contents))
    {
      if i < |cartons| {
        var k :| 0 <= k < |rows| && rows[k].lines == LinesOf(cartons[i], names)
            && rows[k].expiresOn == EarliestOf(cartons[i].contents);
        assert after[k].lines == rows[k].lines;
      }
    }
  }

  lemma GroupedFiles(
    rows: seq<Row>, index: map<string, nat>, cartons: seq<Carton>, carton: Carton, names: Names,
    digest: string -> string)
    requires Grouped(rows, cartons, names, digest) && Indexed(index, rows) && Ready(carton)
    ensures Grouped(Filed(rows, index, carton, names, digest), cartons + [carton], names, digest)
  {
    var lines, expiresOn := LinesOf(carton, names), EarliestOf(carton.contents);
    var sig, after := Signature(lines, expiresOn), Filed(rows, index, carton, names, digest);
    if sig in index {
      var own := index[sig];
      SignatureInjective(rows[own].lines, rows[own].expiresOn, lines, expiresOn);
      JoinsRow(rows, own, after[own], cartons, carton, lines, expiresOn, names, digest);
    } else {
      OpensRow(rows, after[|rows|], cartons, carton, lines, expiresOn, names, digest);
    }
  }

  lemma IndexedFiles(rows: seq<Row>, index: map<string, nat>, carton: Carton, names: Names, digest: string -> string)
    requires Indexed(index, rows)
    ensures
      var sig := Signature(LinesOf(carton, names), EarliestOf(carton.contents));
      Indexed(if sig in index then index else index[sig := |rows|], Filed(rows, index, carton, names, digest))
  {
    var sig := Signature(LinesOf(carton, names), EarliestOf(carton.contents));
    var after := Filed(rows, index, carton, names, digest);
    if sig in index {
      IndexedJoins(index, rows, index[sig], after[index[sig]]);
    } else {
      IndexedOpens(index, rows, after[|rows|]);
    }
  }

  /** `build_ready_carton_rows`, up to the order of the rows. The digest stands for the SHA-256 prefix. */
  method BuildReadyRows(cartons: seq<Carton>, names: Names, digest: string -> string) returns (rows: seq<Row>)
    ensures Grouped(rows, cartons, names, digest)
  {
    rows := [];
    var index: map<string, nat> := map[];
    for i := 0 to |cartons|
      invariant Grouped(rows, cartons[..i], names, digest) && Indexed(index, rows)
    {
      var carton := cartons[i];
      assert cartons[..i + 1] == cartons[..i] + [carton];
      if !Ready(carton) {
        GroupedSkips(rows, cartons[..i], carton, names, digest);
        continue;
      }
      GroupedFiles(rows, index, cartons[..i], carton, names, digest);
      IndexedFiles(rows, index, carton, names, digest);
      var sig := Signature(LinesOf(carton, names), EarliestOf(carton.contents));
      var filed := Filed(rows, index, carton, names, digest);
      if sig !in index {
        index := index[sig := |rows|];
      }
      rows := filed;
    }
    assert cartons[..|cartons|] == cartons;
  }

  // ---------------------------------------------------------------- the rows are a partition

  ghost predicate DistinctIds(cartons: seq<Carton>) {
    forall i, j :: 0 <= i < j < |cartons| ==> cartons[i].id != cartons[j].id
  }

  lemma {:induction false} MemberFits(
    cartons: seq<Carton>, names: Names, lines: seq<Line>, expiresOn: Option<Date>, id: Id) returns (i: nat)
    requires id in Members(cartons, names, lines, expiresOn)
    ensures i < |cartons| && cartons[i].id == id && Fits(cartons[i], names, lines, expiresOn)
    decreases |cartons|
  {
    i := |cartons| - 1;
    if !(cartons[i].id == id && Fits(cartons[i], names, lines, expiresOn)) {
      i := MemberFits(cartons[..i], names, lines, expiresOn, id);
    }
  }

  lemma {:induction false} FittingIsMember(
    cartons: seq<Carton>, names: Names, lines: seq<Line>, expiresOn: Option<Date>, i: nat)
    requires i < |cartons| && Fits(cartons[i], names, lines, expiresOn)
    ensures cartons[i].id in Members(cartons, names, lines, expiresOn)
    decreases |cartons|
  {
    if i < |cartons| - 1 {
      FittingIsMember(cartons[..|cartons| - 1], names, lines, expiresOn, i);
    }
  }

  function IdOf(carton: Carton): Id {
    carton.id
  }

  ghost function FitsUnder(names: Names, lines: seq<Line>, expiresOn: Option<Date>): Carton -> bool {
    (carton: Carton) => Fits(carton, names, lines, expiresOn)
  }

  /** The cartons of a row are the ready ones of its lines and date, in the order of the query. */
  lemma {:induction false} MembersPicked(
    cartons: seq<Carton>, names: Names, lines: seq<Line>, expiresOn: Option<Date>)
    ensures Picked(Members(cartons, names, lines, expiresOn), cartons,
                   FitsUnder(names, lines, expiresOn), IdOf)
    decreases |cartons|
  {
    var p, f := FitsUnder(names, lines, expiresOn), IdOf;
    PickedNone(p, f);
    if cartons != [] {
      var n := |cartons| - 1;
      MembersPicked(cartons[..n], names, lines, expiresOn);
      var front := Members(cartons[..n], names, lines, expiresOn);
      PickedNext(front, Members(cartons, names, lines, expiresOn), cartons, p, f);
    }
  }

  /** A carton is in a row exactly when it is ready and has the row's lines and date. */
  lemma InRowIff(rows: seq<Row>, cartons: seq<Carton>, names: Names, digest: string -> string, i: nat, k: nat)
    requires Grouped(rows, cartons, names, digest) && DistinctIds(cartons) && i < |cartons| && k < |rows|
    ensures cartons[i].id in rows[k].cartonIds <==> Fits(cartons[i], names, rows[k].lines, rows[k].expiresOn)
  {
    assert RowCorrect(rows[k], cartons, names, digest);
    if cartons[i].id in rows[k].cartonIds {
      var j := MemberFits(cartons, names, rows[k].lines, rows[k].expiresOn, cartons[i].id);
    }
    if Fits(cartons[i], names, rows[k].lines, rows[k].expiresOn) {
      FittingIsMember(cartons, names, rows[k].lines, rows[k].expiresOn, i);
    }
  }

  /** Each ready carton is in exactly one row, the others in none. */
  lemma RowsPartition(rows: seq<Row>, cartons: seq<Carton>, names: Names, digest: string -> string, i: nat)
    requires Grouped(rows, cartons, names, digest) && DistinctIds(cartons) && i < |cartons|
    ensures Ready(cartons[i]) <==> exists k: nat :: k < |rows| && cartons[i].id in rows[k].cartonIds
    ensures forall j: nat, k: nat ::
      j < |rows| && k < |rows| && cartons[i].id in rows[j].cartonIds && cartons[i].id in rows[k].cartonIds ==>
      j == k
  {
    forall k: nat | k < |rows|
      ensures cartons[i].id in rows[k].cartonIds <==> Fits(cartons[i], names, rows[k].lines, rows[k].expiresOn)
    {
      InRowIff(rows, cartons, names, digest, i, k);
    }
    if Ready(cartons[i]) {
      assert HasRow(rows, LinesOf(cartons[i], names), EarliestOf(cartons[i].contents));
      var k :| 0 <= k < |rows| && rows[k].lines == LinesOf(cartons[i], names)
          && rows[k].expiresOn == EarliestOf(cartons[i].contents);
    }
    forall j: nat, k: nat | j < |rows| && k < |rows| && cartons[i].id in rows[j].cartonIds
      && cartons[i].id in rows[k].cartonIds
      ensures j == k
    {
      assert SameKind(rows, j, k);
    }
  }

  /** Two ready cartons share their row exactly when they hold the same quantities and expire on the same day. */
  lemma SameRowIff(rows: seq<Row>, cartons: seq<Carton>, names: Names, digest: string -> string, i: nat, j: nat, k: nat)
    requires Grouped(rows, cartons, names, digest) && DistinctIds(cartons) && i < |cartons| && j < |cartons|
    requires k < |rows|
    requires cartons[i].id in rows[k].cartonIds && Ready(cartons[j])
    ensures cartons[j].id in rows[k].cartonIds <==>
      QuantitiesOf(cartons[i].contents) == QuantitiesOf(cartons[j].contents)
      && EarliestOf(cartons[i].contents) == EarliestOf(cartons[j].contents)
  {
    InRowIff(rows, cartons, names, digest, i, k);
    InRowIff(rows, cartons, names, digest, j, k);
    if LinesOf(cartons[i], names) == LinesOf(cartons[j], names) {
      LinesDetermine(
        QuantitiesOf(cartons[i].contents), CartonKey(names), QuantitiesOf(cartons[j].contents), CartonKey(names));
    }
  }

  // ---------------------------------------------------------------- rows that are kits

  /** The signature of one unit of a kit, if it has an expansion and the expansion is not empty. */
  ghost predicate KitSignature(g: Catalogue, kit: Id, names: Names, sig: string) {
    exists units :: Expands(g, kit, units) && units != map[] && sig == Composition(Lines(units, KitKey(names)))
  }

  /** The last kit of the list with the signature. */
  ghost predicate LastKit(g: Catalogue, kits: seq<Id>, names: Names, sig: string, kit: Id) {
    exists i :: LastKitAt(g, kits, names, sig, kit, i)
  }

  ghost predicate LastKitAt(g: Catalogue, kits: seq<Id>, names: Names, sig: string, kit: Id, i: nat) {
    && i < |kits| && kits[i] == kit && KitSignature(g, kit, names, sig)
    && (forall j :: i < j < |kits| ==> !KitSignature(g, kits[j], names, sig))
  }

  ghost predicate NoKit(g: Catalogue, kits: seq<Id>, names: Names, sig: string) {
    forall j :: 0 <= j < |kits| ==> !KitSignature(g, kits[j], names, sig)
  }

  ghost predicate KitTable(g: Catalogue, kits: seq<Id>, names: Names, table: map<string, Id>) {
    forall sig :: Entry(g, kits, names, table, sig)
  }

  /** A kit has one signature. */
  lemma KitSignatureIs(g: Catalogue, kit: Id, names: Names, units: map<Id, int>, sig: string)
    requires Expands(g, kit, units)
    ensures KitSignature(g, kit, names, sig) <==> units != map[] && sig == Composition(Lines(units, KitKey(names)))
  {
    if KitSignature(g, kit, names, sig) {
      var other :| Expands(g, kit, other) && other != map[] && sig == Composition(Lines(other, KitKey(names)));
      ExpansionIsUnique(g, kit, units, other);
    }
  }

  lemma CyclicKitHasNone(g: Catalogue, kit: Id, names: Names, sig: string)
    requires CycleReachable(g, kit)
    ensures !KitSignature(g, kit, names, sig)
  {
    if KitSignature(g, kit, names, sig) {
      var units :| Expands(g, kit, units) && units != map[] && sig == Composition(Lines(units, KitKey(names)));
      var height: nat :| ExpandsAt(g, kit, units, height);
      BoundedReachesNoCycle(g, kit, height);
    }
  }

  lemma LastKitStays(g: Catalogue, kits: seq<Id>, kit: Id, names: Names, sig: string, found: Id)
    requires LastKit(g, kits, names, sig, found) && !KitSignature(g, kit, names, sig)
    ensures LastKit(g, kits + [kit], names, sig, found)
  {
    var i: nat :| LastKitAt(g, kits, names, sig, found, i);
    assert LastKitAt(g, kits + [kit], names, sig, found, i);
  }

  lemma NoKitStays(g: Catalogue, kits: seq<Id>, kit: Id, names: Names, sig: string)
    requires NoKit(g, kits, names, sig) && !KitSignature(g, kit, names, sig)
    ensures NoKit(g, kits + [kit], names, sig)
  {
  }

  lemma LastKitIsNew(g: Catalogue, kits: seq<Id>, kit: Id, names: Names, sig: string)
    requires KitSignature(g, kit, names, sig)
    ensures LastKit(g, kits + [kit], names, sig, kit)
  {
    assert LastKitAt(g, kits + [kit], names, sig, kit, |kits|);
  }

  /** What the table says of one signature. */
  ghost predicate Entry(g: Catalogue, kits: seq<Id>, names: Names, table: map<string, Id>, sig: string) {
    if sig in table then LastKit(g, kits, names, sig, table[sig]) else NoKit(g, kits, names, sig)
  }

  lemma EntryStays(
    g: Catalogue, kits: seq<Id>, kit: Id, names: Names, table: map<string, Id>, after: map<string, Id>, sig: string)
    requires Entry(g, kits, names, table, sig) && !KitSignature(g, kit, names, sig)
    requires (sig in after <==> sig in table) && (sig in table ==> after[sig] == table[sig])
    ensures Entry(g, kits + [kit], names, after, sig)
  {
    if sig in table {
      LastKitStays(g, kits, kit, names, sig, table[sig]);
    } else {
      NoKitStays(g, kits, kit, names, sig);
    }
  }

  lemma TableSkips(g: Catalogue, kits: seq<Id>, kit: Id, names: Names, table: map<string, Id>)
    requires KitTable(g, kits, names, table) && forall sig :: !KitSignature(g, kit, names, sig)
    ensures KitTable(g, kits + [kit], names, table)
  {
    forall sig ensures Entry(g, kits + [kit], names, table, sig) {
      EntryStays(g, kits, kit, names, table, table, sig);
    }
  }

  lemma TableFiles(g: Catalogue, kits: seq<Id>, kit: Id, names: Names, table: map<string, Id>, own: string)
    requires KitTable(g, kits, names, table) && forall sig :: KitSignature(g, kit, names, sig) <==> sig == own
    ensures KitTable(g, kits + [kit], names, table[own := kit])
  {
    var after := table[own := kit];
    forall sig ensures Entry(g, kits + [kit], names, after, sig) {
      if sig == own {
        LastKitIsNew(g, kits, kit, names, sig);
      } else {
        EntryStays(g, kits, kit, names, table, after, sig);
      }
    }
  }

  /** The first two loops of `split_ready_rows_into_kits`. Lines of no units never occur, so none is dropped. */
  method KitsBySignature(g: Catalogue, kits: seq<Id>, names: Names) returns (table: map<string, Id>)
    ensures KitTable(g, kits, names, table)
  {
    table := map[];
    for i := 0 to |kits|
      invariant KitTable(g, kits[..i], names, table)
    {
      assert kits[..i + 1] == kits[..i] + [kits[i]];
      var expansion := UnitComponentQuantities(g, Some(kits[i]));
      if expansion.Cycle? {
        forall sig ensures !KitSignature(g, kits[i], names, sig) { CyclicKitHasNone(g, kits[i], names, sig); }
        TableSkips(g, kits[..i], kits[i], names, table);
      } else {
        var units := expansion.units;
        forall sig
          ensures KitSignature(g, kits[i], names, sig) <==>
            units != map[] && sig == Composition(Lines(units, KitKey(names)))
        {
          KitSignatureIs(g, kits[i], names, units, sig);
        }
        if units == map[] {
          TableSkips(g, kits[..i], kits[i], names, table);
        } else {
          var sig := Composition(Lines(units, KitKey(names)));
          TableFiles(g, kits[..i], kits[i], names, table, sig);
          table := table[sig := kits[i]];
        }
      }
    }
    assert kits[..|kits|] == kits;
  }

  datatype KitRow = KitRow(row: Row, kit: Id)

  /** The rows of no kit, in order. */
  function CartonRows(rows: seq<Row>, table: map<string, Id>): seq<Row> {
    if rows == [] then []
    else
      var n := |rows| - 1;
      CartonRows(rows[..n], table) + if rows[n].composition in table then [] else [rows[n]]
  }

  /** The rows of a kit, each with its kit, in order. */
  function KitRows(rows: seq<Row>, table: map<string, Id>): seq<KitRow> {
    if rows == [] then []
    else
      var n := |rows| - 1;
      KitRows(rows[..n], table)
      + if rows[n].composition in table then [KitRow(rows[n], table[rows[n].composition])] else []
  }

  /** `split_ready_rows_into_kits` */
  method SplitReadyRows(rows: seq<Row>, g: Catalogue, kits: seq<Id>, names: Names)
    returns (cartonRows: seq<Row>, kitRows: seq<KitRow>, table: map<string, Id>)
    ensures KitTable(g, kits, names, table)
    ensures cartonRows == CartonRows(rows, table) && kitRows == KitRows(rows, table)
  {
    table := KitsBySignature(g, kits, names);
    cartonRows, kitRows := [], [];
    for i := 0 to |rows|
      invariant cartonRows == CartonRows(rows[..i], table) && kitRows == KitRows(rows[..i], table)
    {
      assert rows[..i + 1][..i] == rows[..i];
      if rows[i].composition in table {
        kitRows := kitRows + [KitRow(rows[i], table[rows[i].composition])];
      } else {
        cartonRows := cartonRows + [rows[i]];
      }
    }
    assert rows[..|rows|] == rows;
  }

  /** A row of ready cartons is a kit row exactly when its cartons hold one unit of some kit of the list and products
      without a name stand first in the carton too; the kit is then the last such one. */
  lemma KitRowIff(g: Catalogue, kits: seq<Id>, names: Names, table: map<string, Id>, carton: Carton, sig: string)
    requires KitTable(g, kits, names, table) && Ready(carton) && sig == Composition(LinesOf(carton, names))
    ensures var held := QuantitiesOf(carton.contents);
      && (sig in table <==> (exists i :: 0 <= i < |kits| && Expands(g, kits[i], held)) && BlanksFirst(held, names))
      && (sig in table ==> LastExpanding(g, kits, held, table[sig]))
  {
    var held := QuantitiesOf(carton.contents);
    NotEmpty(carton);
    ListedAlikeIff(held, names);
    assert Entry(g, kits, names, table, sig);
    forall kit ensures KitSignature(g, kit, names, sig) <==> Expands(g, kit, held) && BlanksFirst(held, names) {
      KitSignatureOfCarton(g, kit, names, held, sig);
    }
    if sig in table {
      var i: nat :| LastKitAt(g, kits, names, sig, table[sig], i);
      assert LastExpandingAt(g, kits, held, table[sig], i);
    }
  }

  ghost function OfKit(table: map<string, Id>): Row -> bool {
    (row: Row) => row.composition in table
  }

  ghost function OfNoKit(table: map<string, Id>): Row -> bool {
    (row: Row) => row.composition !in table
  }

  ghost function WithKit(table: map<string, Id>): Row -> KitRow {
    (row: Row) => KitRow(row, if row.composition in table then table[row.composition] else 0)
  }

  function Itself(row: Row): Row {
    row
  }

  /** The rows of no kit, in the order of the rows. */
  lemma {:induction false} CartonRowsPicked(rows: seq<Row>, table: map<string, Id>)
    ensures Picked(CartonRows(rows, table), rows, OfNoKit(table), Itself)
    decreases |rows|
  {
    PickedNone(OfNoKit(table), Itself);
    if rows != [] {
      var n := |rows| - 1;
      CartonRowsPicked(rows[..n], table);
      PickedNext(CartonRows(rows[..n], table), CartonRows(rows, table), rows, OfNoKit(table), Itself);
    }
  }

  /** The rows of kits, each with its kit, in the order of the rows. */
  lemma {:induction false} KitRowsPicked(rows: seq<Row>, table: map<string, Id>)
    ensures Picked(KitRows(rows, table), rows, OfKit(table), WithKit(table))
    decreases |rows|
  {
    PickedNone(OfKit(table), WithKit(table));
    if rows != [] {
      var n := |rows| - 1;
      KitRowsPicked(rows[..n], table);
      PickedNext(KitRows(rows[..n], table), KitRows(rows, table), rows, OfKit(table), WithKit(table));
    }
  }

  lemma {:induction false} KitRowsAre(rows: seq<Row>, table: map<string, Id>, r: KitRow)
    ensures r in KitRows(rows, table) <==>
      r.row in rows && r.row.composition in table && r.kit == table[r.row.composition]
    decreases |rows|
  {
    if rows != [] {
      var n := |rows| - 1;
      KitRowsAre(rows[..n], table, r);
      assert rows == rows[..n] + [rows[n]];
    }
  }

  lemma {:induction false} CartonRowsAre(rows: seq<Row>, table: map<string, Id>, row: Row)
    ensures row in CartonRows(rows, table) <==> row in rows && row.composition !in table
    decreases |rows|
  {
    if rows != [] {
      var n := |rows| - 1;
      CartonRowsAre(rows[..n], table, row);
      assert rows == rows[..n] + [rows[n]];
    }
  }

  /** The row lists the carton. */
  predicate Holds(row: Row, carton: Carton) {
    carton.id in row.cartonIds
  }

  /** The carton is shown as kits of this row. */
  ghost predicate ShownAsKit(rows: seq<Row>, table: map<string, Id>, carton: Carton, kit: Id) {
    exists r :: r in KitRows(rows, table) && Holds(r.row, carton) && r.kit == kit
  }

  ghost predicate ShownAsCarton(rows: seq<Row>, table: map<string, Id>, carton: Carton) {
    exists row :: row in CartonRows(rows, table) && Holds(row, carton)
  }

  /** The row that holds a ready carton has the carton's composition. */
  lemma RowOfCarton(rows: seq<Row>, cartons: seq<Carton>, names: Names, digest: string -> string, i: nat, row: Row)
    requires Grouped(rows, cartons, names, digest) && DistinctIds(cartons) && i < |cartons|
    requires row in rows && Holds(row, cartons[i])
    ensures row.composition == Composition(LinesOf(cartons[i], names))
  {
    var k :| 0 <= k < |rows| && rows[k] == row;
    InRowIff(rows, cartons, names, digest, i, k);
    assert RowCorrect(rows[k], cartons, names, digest);
  }

  lemma RowExists(
    rows: seq<Row>, cartons: seq<Carton>, names: Names, digest: string -> string, i: nat) returns (row: Row)
    requires Grouped(rows, cartons, names, digest) && DistinctIds(cartons) && i < |cartons| && Ready(cartons[i])
    ensures row in rows && Holds(row, cartons[i])
  {
    RowsPartition(rows, cartons, names, digest, i);
    var k: nat :| k < |rows| && cartons[i].id in rows[k].cartonIds;
    row := rows[k];
  }

  /** What the two lists show of each ready carton: it is shown as a kit, and as no carton, exactly when it holds one
      unit of some kit of the list and its nameless products stand first; the kit is the last such one. */
  lemma ShownIff(
    g: Catalogue, kits: seq<Id>, names: Names, table: map<string, Id>, rows: seq<Row>, cartons: seq<Carton>,
    digest: string -> string, i: nat)
    requires Grouped(rows, cartons, names, digest) && DistinctIds(cartons) && KitTable(g, kits, names, table)
    requires i < |cartons| && Ready(cartons[i])
    ensures
      var held := QuantitiesOf(cartons[i].contents);
      && ((exists kit :: ShownAsKit(rows, table, cartons[i], kit)) <==>
            (exists j :: 0 <= j < |kits| && Expands(g, kits[j], held)) && BlanksFirst(held, names))
      && (ShownAsCarton(rows, table, cartons[i]) <==> !exists kit :: ShownAsKit(rows, table, cartons[i], kit))
      && (forall kit :: ShownAsKit(rows, table, cartons[i], kit) ==> LastExpanding(g, kits, held, kit))
  {
    var carton := cartons[i];
    var sig := Composition(LinesOf(carton, names));
    KitRowIff(g, kits, names, table, carton, sig);
    var row := RowExists(rows, cartons, names, digest, i);
    RowOfCarton(rows, cartons, names, digest, i, row);
    if sig in table {
      KitRowsAre(rows, table, KitRow(row, table[sig]));
      assert ShownAsKit(rows, table, carton, table[sig]);
    } else {
      CartonRowsAre(rows, table, row);
    }
    forall kit | ShownAsKit(rows, table, carton, kit) ensures sig in table && kit == table[sig] {
      var r :| r in KitRows(rows, table) && Holds(r.row, carton) && r.kit == kit;
      KitRowsAre(rows, table, r);
      RowOfCarton(rows, cartons, names, digest, i, r.row);
    }
    if ShownAsCarton(rows, table, carton) {
      var other :| other in CartonRows(rows, table) && Holds(other, carton);
      CartonRowsAre(rows, table, other);
      RowOfCarton(rows, cartons, names, digest, i, other);
    }
  }

  /** The last kit of the list with this expansion. */
  ghost predicate LastExpanding(g: Catalogue, kits: seq<Id>, held: map<Id, int>, kit: Id) {
    exists i :: LastExpandingAt(g, kits, held, kit, i)
  }

  ghost predicate LastExpandingAt(g: Catalogue, kits: seq<Id>, held: map<Id, int>, kit: Id, i: nat) {
    && i < |kits| && kits[i] == kit && Expands(g, kit, held)
    && (forall j :: i < j < |kits| ==> !Expands(g, kits[j], held))
  }

  /** A kit has a carton's signature exactly when the carton holds one unit of it and both are listed alike. */
  lemma KitSignatureOfCarton(g: Catalogue, kit: Id, names: Names, held: map<Id, int>, sig: string)
    requires held != map[] && sig == Composition(Lines(held, CartonKey(names)))
    ensures KitSignature(g, kit, names, sig) <==> Expands(g, kit, held) && BlanksFirst(held, names)
  {
    ListedAlikeIff(held, names);
    if KitSignature(g, kit, names, sig) {
      var units :| Expands(g, kit, units) && units != map[] && sig == Composition(Lines(units, KitKey(names)));
      CompositionInjective(Lines(units, KitKey(names)), Lines(held, CartonKey(names)));
      LinesDetermine(units, KitKey(names), held, CartonKey(names));
    }
  }

  lemma NotEmpty(carton: Carton)
    requires carton.contents != []
    ensures QuantitiesOf(carton.contents) != map[]
  {
    assert Portions(carton.contents)[0].product in QuantitiesOf(carton.contents);
  }

  // ---------------------------------------------------------------- a kit hidden by a product without a name

  /** Kit 3 holds one of product 1, which has no name, and one of product 2, whose name sorts before "-". */
  const HIDDEN_KIT: Catalogue := map[3 := [Item(1, 1), Item(2, 1)]]

  function HiddenNames(): Names {
    (p: Id) => if p == 2 then "!" else ""
  }

  const ONE_UNIT: Carton := Carton(8, Packed, None, [Content(Portion(1, 1), None), Content(Portion(2, 1), None)], 0)

  const ONE_EACH: map<Id, int> := map[1 := 1, 2 := 1]

  lemma OneUnitHolds()
    ensures Ready(ONE_UNIT) && QuantitiesOf(ONE_UNIT.contents) == ONE_EACH
  {
    var portions := Portions(ONE_UNIT.contents);
    assert portions == [Portion(1, 1), Portion(2, 1)];
    assert portions[..1] == [Portion(1, 1)] && [Portion(1, 1)][..0] == [];
    assert portions[0].product in Products(portions) && portions[1].product in Products(portions);
    assert Products(portions) == {1, 2};
    assert Total(portions, 1) == 1 && Total(portions, 2) == 1;
  }

  lemma HiddenKitExpands()
    ensures Expands(HIDDEN_KIT, 3, ONE_EACH)
  {
    var g, items := HIDDEN_KIT, [Item(1, 1), Item(2, 1)];
    assert Items(g, 3) == items && Items(g, 1) == [] && Items(g, 2) == [];
    assert AllBounded(g, items, 1);
    assert items[..1] == [Item(1, 1)] && [Item(1, 1)][..0] == [];
    forall c ensures Get(ONE_EACH, c) == Units(g, 3, c, 2) {
      assert UnitsIn(g, [Item(1, 1)], c, 1) == Units(g, 1, c, 1);
      assert UnitsIn(g, items, c, 1) == UnitsIn(g, [Item(1, 1)], c, 1) + Units(g, 2, c, 1);
    }
    assert ExpandsAt(g, 3, ONE_EACH, 2);
  }

  /** A ready carton that holds exactly one unit of a kit of the list, and whatever the table of signatures is, the
      carton's is not in it. */
  lemma BlankNameHidesKit(table: map<string, Id>)
    requires KitTable(HIDDEN_KIT, [3], HiddenNames(), table)
    ensures Ready(ONE_UNIT) && Expands(HIDDEN_KIT, 3, QuantitiesOf(ONE_UNIT.contents))
    ensures Composition(LinesOf(ONE_UNIT, HiddenNames())) !in table
  {
    var names := HiddenNames();
    OneUnitHolds();
    HiddenKitExpands();
    assert Text.Lower("!") == "!";
    assert !BlanksFirst(ONE_EACH, names) by {
      assert names(1) == "" && names(2) == "!" && 1 in ONE_EACH && 2 in ONE_EACH;
      assert !TextLess("-", "!");
    }
    KitRowIff(HIDDEN_KIT, [3], names, table, ONE_UNIT, Composition(LinesOf(ONE_UNIT, names)));
  }

  // ---------------------------------------------------------------- selection

  datatype LineError = InvalidQuantity | InsufficientStock

  /** What was posted for a row, stripped. */
  function Posted(post: map<string, string>, key: string): string {
    if key in post then post[key] else ""
  }

  /** The number of cartons taken from a row; errors and rows without a quantity take none. */
  function Wanted(row: Row, post: map<string, string>, parse: string -> Option<int>): (n: nat)
    ensures n <= row.stock
  {
    if row.key == "" || Posted(post, row.key) == "" then 0
    else
      var quantity := parse(Posted(post, row.key));
      if quantity.None? || quantity.value <= 0 || quantity.value > row.stock then 0 else quantity.value
  }

  /** The error shown for a row. */
  function ErrorOf(row: Row, post: map<string, string>, parse: string -> Option<int>): Option<LineError> {
    if row.key == "" || Posted(post, row.key) == "" then None
    else
      var quantity := parse(Posted(post, row.key));
      if quantity.None? || quantity.value <= 0 then Some(InvalidQuantity)
      else if quantity.value > row.stock then Some(InsufficientStock)
      else None
  }

  /** The first cartons of each row, as many as wanted. */
  function Chosen(rows: seq<Row>, post: map<string, string>, parse: string -> Option<int>): seq<Id>
    requires forall k :: 0 <= k < |rows| ==> rows[k].stock == |rows[k].cartonIds|
  {
    if rows == [] then []
    else
      var n := |rows| - 1;
      assert rows[n].stock == |rows[n].cartonIds|;
      Chosen(rows[..n], post, parse) + rows[n].cartonIds[..Wanted(rows[n], post, parse)]
  }

  function ErrorKeys(rows: seq<Row>, post: map<string, string>, parse: string -> Option<int>): set<string> {
    set k | 0 <= k < |rows| && ErrorOf(rows[k], post, parse).Some? :: rows[k].key
  }

  /** The last row under the key that has an error, and the error. */
  ghost predicate LastError(
    rows: seq<Row>, post: map<string, string>, parse: string -> Option<int>, key: string, error: LineError, i: nat)
  {
    && i < |rows| && rows[i].key == key && ErrorOf(rows[i], post, parse) == Some(error)
    && (forall j :: i < j < |rows| && rows[j].key == key ==> ErrorOf(rows[j], post, parse).None?)
  }

  ghost predicate ErrorShown(
    rows: seq<Row>, post: map<string, string>, parse: string -> Option<int>, key: string, error: LineError)
  {
    exists i :: LastError(rows, post, parse, key, error, i)
  }

  /** The errors shown: one for each key with an error, that of its last such row. */
  ghost predicate ErrorsShown(
    rows: seq<Row>, post: map<string, string>, parse: string -> Option<int>, errors: map<string, LineError>)
  {
    && errors.Keys == ErrorKeys(rows, post, parse)
    && (forall key :: key in errors ==> ErrorShown(rows, post, parse, key, errors[key]))
  }

  /** The quantities echoed: whatever was typed for a row, right or wrong. */
  ghost predicate Echoed(rows: seq<Row>, post: map<string, string>, quantities: map<string, string>) {
    && (forall key :: key in quantities <==>
          key != "" && Posted(post, key) != "" && exists i :: 0 <= i < |rows| && rows[i].key == key)
    && (forall key :: key in quantities ==> quantities[key] == Posted(post, key))
  }

  // ---------------------------------------------------------------- what is selected, row by row

  /** A quantity of one or more, but no more than there is, was typed for the row. */
  ghost predicate Asked(row: Row, post: map<string, string>, parse: string -> Option<int>, q: nat) {
    && row.key != "" && row.key in post && post[row.key] != "" && parse(post[row.key]) == Some(q)
    && 1 <= q <= row.stock
  }

  /** The part is the first cartons of the row, as many as were asked for, or nothing. */
  ghost predicate PartOf(row: Row, post: map<string, string>, parse: string -> Option<int>, part: seq<Id>) {
    && (forall q: nat :: Asked(row, post, parse, q) ==> q <= |row.cartonIds| && part == row.cartonIds[..q])
    && ((forall q: nat :: !Asked(row, post, parse, q)) ==> part == [])
  }

  ghost function Joined(parts: seq<seq<Id>>): seq<Id> {
    if parts == [] then [] else Joined(parts[..|parts| - 1]) + parts[|parts| - 1]
  }

  ghost function Sum(numbers: seq<nat>): nat {
    if numbers == [] then 0 else Sum(numbers[..|numbers| - 1]) + numbers[|numbers| - 1]
  }

  /** The selection is made of one part of each row, in order. */
  ghost predicate MadeOfParts(
    selected: seq<Id>, rows: seq<Row>, post: map<string, string>, parse: string -> Option<int>, parts: seq<seq<Id>>)
  {
    && |parts| == |rows| && selected == Joined(parts)
    && forall k :: 0 <= k < |rows| ==> PartOf(rows[k], post, parse, parts[k])
  }

  lemma PartIsWanted(row: Row, post: map<string, string>, parse: string -> Option<int>)
    requires row.stock == |row.cartonIds|
    ensures PartOf(row, post, parse, row.cartonIds[..Wanted(row, post, parse)])
  {
    var n := Wanted(row, post, parse);
    if n > 0 { assert Asked(row, post, parse, n); }
  }

  lemma {:induction false} ChosenInParts(rows: seq<Row>, post: map<string, string>, parse: string -> Option<int>)
    returns (parts: seq<seq<Id>>)
    requires forall k :: 0 <= k < |rows| ==> rows[k].stock == |rows[k].cartonIds|
    ensures MadeOfParts(Chosen(rows, post, parse), rows, post, parse, parts)
    decreases |rows|
  {
    parts := [];
    if rows != [] {
      var n := |rows| - 1;
      parts := ChosenInParts(rows[..n], post, parse);
      var last := rows[n].cartonIds[..Wanted(rows[n], post, parse)];
      PartIsWanted(rows[n], post, parse);
      var all := parts + [last];
      assert all[..n] == parts;
      forall k | 0 <= k < |rows| ensures PartOf(rows[k], post, parse, all[k]) {
        if k < n { assert rows[k] == rows[..n][k]; }
      }
      parts := all;
    }
  }

  /** As many cartons are selected as valid quantities add up to. */
  lemma {:induction false} PartsAddUp(
    selected: seq<Id>, rows: seq<Row>, post: map<string, string>, parse: string -> Option<int>, parts: seq<seq<Id>>,
    asked: seq<nat>)
    requires MadeOfParts(selected, rows, post, parse, parts) && |asked| == |rows|
    requires forall k :: 0 <= k < |rows| ==>
      Asked(rows[k], post, parse, asked[k]) || (asked[k] == 0 && forall q: nat :: !Asked(rows[k], post, parse, q))
    ensures |selected| == Sum(asked)
    decreases |rows|
  {
    if rows != [] {
      var n := |rows| - 1;
      assert Joined(parts) == Joined(parts[..n]) + parts[n];
      PartsAddUp(Joined(parts[..n]), rows[..n], post, parse, parts[..n], asked[..n]);
      assert PartOf(rows[n], post, parse, parts[n]);
    }
  }

  /** An error is shown exactly for what is typed and is no number of one or more, or more than there is. */
  lemma ErrorTells(row: Row, post: map<string, string>, parse: string -> Option<int>)
    ensures ErrorOf(row, post, parse).None? <==>
      row.key == "" || row.key !in post || post[row.key] == "" || exists q: nat :: Asked(row, post, parse, q)
    ensures ErrorOf(row, post, parse) == Some(InsufficientStock) <==>
      && row.key != "" && row.key in post && post[row.key] != ""
      && exists q: nat :: parse(post[row.key]) == Some(q) && q > 0 && q > row.stock
  {
    if row.key != "" && row.key in post && post[row.key] != "" && parse(post[row.key]).Some? {
      var quantity := parse(post[row.key]).value;
      if 1 <= quantity <= row.stock { assert Asked(row, post, parse, quantity); }
      if quantity > 0 {
        var q: nat := quantity;
        assert parse(post[row.key]) == Some(q);
      }
    }
  }

  /** `build_ready_carton_selection` */
  method SelectReadyCartons(rows: seq<Row>, post: map<string, string>, parse: string -> Option<int>)
    returns (selected: seq<Id>, quantities: map<string, string>, errors: map<string, LineError>, total: nat)
    requires forall k :: 0 <= k < |rows| ==> rows[k].stock == |rows[k].cartonIds|
    ensures selected == Chosen(rows, post, parse) && total == |selected|
    ensures exists parts :: MadeOfParts(selected, rows, post, parse, parts)
    ensures Echoed(rows, post, quantities) && ErrorsShown(rows, post, parse, errors)
  {
    selected, quantities, errors, total := [], map[], map[], 0;
    for i := 0 to |rows|
      invariant selected == Chosen(rows[..i], post, parse) && total == |selected|
      invariant Echoed(rows[..i], post, quantities) && ErrorsShown(rows[..i], post, parse, errors)
    {
      var row := rows[i];
      assert rows[..i + 1][..i] == rows[..i];
      EchoedByOne(rows, i, post, quantities);
      ErrorsByOne(rows, i, post, parse, errors);
      if row.key == "" {
        continue;
      }
      var raw := Posted(post, row.key);
      if raw != "" {
        quantities := quantities[row.key := raw];
      }
      if raw == "" {
        continue;
      }
      var quantity := parse(raw);
      if quantity.None? || quantity.value <= 0 {
        errors := errors[row.key := InvalidQuantity];
      } else if quantity.value > row.stock {
        errors := errors[row.key := InsufficientStock];
      } else {
        total := total + quantity.value;
        selected := selected + row.cartonIds[..quantity.value];
      }
    }
    assert rows[..|rows|] == rows;
    ghost var parts := ChosenInParts(rows, post, parse);
  }

  lemma EchoedByOne(rows: seq<Row>, i: nat, post: map<string, string>, quantities: map<string, string>)
    requires i < |rows| && Echoed(rows[..i], post, quantities)
    ensures var key := rows[i].key;
      Echoed(rows[..i + 1], post,
             if key == "" || Posted(post, key) == "" then quantities else quantities[key := Posted(post, key)])
  {
    var next := rows[..i + 1];
    assert next[i] == rows[i];
    assert forall k :: 0 <= k < i ==> next[k] == rows[..i][k];
  }

  lemma LastErrorStays(
    rows: seq<Row>, i: nat, post: map<string, string>, parse: string -> Option<int>, key: string, error: LineError)
    requires i < |rows| && ErrorShown(rows[..i], post, parse, key, error)
    requires ErrorOf(rows[i], post, parse).None? || key != rows[i].key
    ensures ErrorShown(rows[..i + 1], post, parse, key, error)
  {
    var k :| LastError(rows[..i], post, parse, key, error, k);
    var next := rows[..i + 1];
    assert forall j :: 0 <= j < i ==> next[j] == rows[..i][j];
    assert LastError(next, post, parse, key, error, k);
  }

  lemma LastErrorIsNew(rows: seq<Row>, i: nat, post: map<string, string>, parse: string -> Option<int>)
    requires i < |rows| && ErrorOf(rows[i], post, parse).Some?
    ensures ErrorShown(rows[..i + 1], post, parse, rows[i].key, ErrorOf(rows[i], post, parse).value)
  {
    assert LastError(rows[..i + 1], post, parse, rows[i].key, ErrorOf(rows[i], post, parse).value, i);
  }

  lemma ErrorsByOne(
    rows: seq<Row>, i: nat, post: map<string, string>, parse: string -> Option<int>, errors: map<string, LineError>)
    requires i < |rows| && ErrorsShown(rows[..i], post, parse, errors)
    ensures var error := ErrorOf(rows[i], post, parse);
      ErrorsShown(rows[..i + 1], post, parse, if error.Some? then errors[rows[i].key := error.value] else errors)
  {
    var error := ErrorOf(rows[i], post, parse);
    var shown := if error.Some? then errors[rows[i].key := error.value] else errors;
    ErrorKeysByOne(rows, i, post, parse);
    forall key | key in shown ensures ErrorShown(rows[..i + 1], post, parse, key, shown[key]) {
      if error.Some? && key == rows[i].key {
        LastErrorIsNew(rows, i, post, parse);
      } else {
        LastErrorStays(rows, i, post, parse, key, errors[key]);
      }
    }
  }

  lemma ErrorKeysByOne(rows: seq<Row>, i: nat, post: map<string, string>, parse: string -> Option<int>)
    requires i < |rows|
    ensures ErrorKeys(rows[..i + 1], post, parse)
      == ErrorKeys(rows[..i], post, parse) + if ErrorOf(rows[i], post, parse).Some? then {rows[i].key} else {}
  {
    var next := rows[..i + 1];
    assert next[i] == rows[i];
    assert forall k :: 0 <= k < i ==> next[k] == rows[..i][k];
  }
}
