/** Ready cartons taken into an order (wms/portal_order_handlers.py, wms/carton_status_events.py). */
module CartonDispatch {
  import opened Ids
  import opened Listings
  import opened Quantities
  import opened Cartons
  import opened Signatures
  import opened ReadyCartons

  ghost predicate Distinct(ids: seq<Id>) {
    forall i, j :: 0 <= i < j < |ids| ==> ids[i] != ids[j]
  }

  // ---------------------------------------------------------------- a selection names no carton twice

  lemma {:induction false} MembersDistinct(
    cartons: seq<Carton>, names: Names, lines: seq<Line>, expiresOn: Option<Date>)
    requires DistinctIds(cartons)
    ensures Distinct(Members(cartons, names, lines, expiresOn))
    decreases |cartons|
  {
    if cartons != [] {
      var front, last := cartons[..|cartons| - 1], cartons[|cartons| - 1];
      MembersDistinct(front, names, lines, expiresOn);
      assert forall i :: 0 <= i < |front| ==> front[i].id != last.id;
      if last.id in Members(front, names, lines, expiresOn) {
        var i := MemberFits(front, names, lines, expiresOn, last.id);
      }
    }
  }

  /** The rows share no carton. */
  lemma RowsDisjoint(
    rows: seq<Row>, cartons: seq<Carton>, names: Names, digest: string -> string, j: nat, k: nat, id: Id)
    requires Grouped(rows, cartons, names, digest) && DistinctIds(cartons) && j < |rows| && k < |rows|
    requires id in rows[j].cartonIds && id in rows[k].cartonIds
    ensures j == k
  {
    assert RowCorrect(rows[j], cartons, names, digest);
    var i := MemberFits(cartons, names, rows[j].lines, rows[j].expiresOn, id);
    RowsPartition(rows, cartons, names, digest, i);
  }

  lemma {:induction false} ChosenFrom(
    rows: seq<Row>, post: map<string, string>, parse: string -> Option<int>, id: Id) returns (k: nat)
    requires forall k :: 0 <= k < |rows| ==> rows[k].stock == |rows[k].cartonIds|
    requires id in Chosen(rows, post, parse)
    ensures k < |rows| && id in rows[k].cartonIds
    decreases |rows|
  {
    k := |rows| - 1;
    if id !in rows[k].cartonIds {
      k := ChosenFrom(rows[..k], post, parse, id);
    }
  }

  lemma DistinctJoin(ids: seq<Id>, more: seq<Id>)
    requires Distinct(ids) && Distinct(more) && forall id :: id in ids ==> id !in more
    ensures Distinct(ids + more)
  {
    var all := ids + more;
    forall i, j | 0 <= i < j < |all| ensures all[i] != all[j] {
      if i < |ids| <= j {
        assert ids[i] in ids && more[j - |ids|] in more;
      }
    }
  }

  /** Rows count their cartons, and no carton is named twice. */
  ghost predicate Apart(rows: seq<Row>) {
    && (forall k :: 0 <= k < |rows| ==> rows[k].stock == |rows[k].cartonIds| && Distinct(rows[k].cartonIds))
    && (forall j, k :: 0 <= j < k < |rows| ==> NoneShared(rows[j].cartonIds, rows[k].cartonIds))
  }

  ghost predicate NoneShared(ids: seq<Id>, others: seq<Id>) {
    forall id :: id in ids ==> id !in others
  }

  lemma GroupedApart(rows: seq<Row>, cartons: seq<Carton>, names: Names, digest: string -> string)
    requires Grouped(rows, cartons, names, digest) && DistinctIds(cartons)
    ensures Apart(rows)
  {
    forall k | 0 <= k < |rows| ensures rows[k].stock == |rows[k].cartonIds| && Distinct(rows[k].cartonIds) {
      assert RowCorrect(rows[k], cartons, names, digest);
      MembersDistinct(cartons, names, rows[k].lines, rows[k].expiresOn);
    }
    forall j, k | 0 <= j < k < |rows| ensures NoneShared(rows[j].cartonIds, rows[k].cartonIds) {
      forall id | id in rows[j].cartonIds ensures id !in rows[k].cartonIds {
        if id in rows[k].cartonIds { RowsDisjoint(rows, cartons, names, digest, j, k, id); }
      }
    }
  }

  lemma {:induction false} ChosenDistinct(rows: seq<Row>, post: map<string, string>, parse: string -> Option<int>)
    requires Apart(rows)
    ensures Distinct(Chosen(rows, post, parse))
    decreases |rows|
  {
    if rows != [] {
      var n := |rows| - 1;
      ChosenDistinct(rows[..n], post, parse);
      var more := rows[n].cartonIds[..Wanted(rows[n], post, parse)];
      forall id | id in Chosen(rows[..n], post, parse) ensures id !in more {
        var k := ChosenFrom(rows[..n], post, parse, id);
        assert NoneShared(rows[k].cartonIds, rows[n].cartonIds);
      }
      DistinctJoin(Chosen(rows[..n], post, parse), more);
    }
  }

  /** Whatever is posted, a selection from grouped rows names no carton twice, and every carton named is ready. */
  lemma SelectionIsSound(
    rows: seq<Row>, cartons: seq<Carton>, names: Names, digest: string -> string, post: map<string, string>,
    parse: string -> Option<int>)
    requires Grouped(rows, cartons, names, digest) && DistinctIds(cartons)
    ensures forall k :: 0 <= k < |rows| ==> rows[k].stock == |rows[k].cartonIds|
    ensures Distinct(Chosen(rows, post, parse))
    ensures forall id :: id in Chosen(rows, post, parse) ==>
      exists i :: 0 <= i < |cartons| && cartons[i].id == id && Ready(cartons[i])
  {
    GroupedApart(rows, cartons, names, digest);
    ChosenDistinct(rows, post, parse);
    forall id | id in Chosen(rows, post, parse)
      ensures exists i :: 0 <= i < |cartons| && cartons[i].id == id && Ready(cartons[i])
    {
      var k := ChosenFrom(rows, post, parse, id);
      assert RowCorrect(rows[k], cartons, names, digest);
      var i := MemberFits(cartons, names, rows[k].lines, rows[k].expiresOn, id);
    }
  }

  // ---------------------------------------------------------------- order lines

  datatype OrderLine = OrderLine(quantity: int, reserved: int, prepared: int)

  function LineFor(lines: map<Id, OrderLine>, product: Id): Option<OrderLine> {
    if product in lines then Some(lines[product]) else None
  }

  /** A line that received `n` prepared units; nothing received creates no line. */
  function Grown(line: Option<OrderLine>, n: nat): Option<OrderLine> {
    if n == 0 then line
    else match line
      case None => Some(OrderLine(n, 0, n))
      case Some(l) => Some(l.(quantity := l.quantity + n, prepared := l.prepared + n))
  }

  function Positive(n: int): nat {
    if n > 0 then n else 0
  }

  /** The units of a product that some cartons bring. */
  function Brought(cartons: map<Id, Carton>, ids: seq<Id>, product: Id): nat
    requires forall id :: id in ids ==> id in cartons
  {
    if ids == [] then 0
    else
      var n := |ids| - 1;
      assert ids[n] in ids;
      Brought(cartons, ids[..n], product) + Positive(Total(Portions(cartons[ids[n]].contents), product))
  }

  /** What a line still lacks is what it lacked before. */
  lemma RemainderUnchanged(line: Option<OrderLine>, n: nat)
    ensures Grown(line, n).None? <==> line.None? && n == 0
    ensures Grown(line, n).Some? ==>
      var l := Grown(line, n).value;
      l.quantity - l.prepared == (if line.Some? then line.value.quantity - line.value.prepared else 0)
      && l.reserved == (if line.Some? then line.value.reserved else 0)
      && l.quantity == (if line.Some? then line.value.quantity else 0) + n
  {
  }

  /** Cartons without negative contents bring all they hold. */
  function Held(cartons: map<Id, Carton>, ids: seq<Id>, product: Id): int
    requires forall id :: id in ids ==> id in cartons
  {
    if ids == [] then 0
    else
      var n := |ids| - 1;
      assert ids[n] in ids;
      Held(cartons, ids[..n], product) + Total(Portions(cartons[ids[n]].contents), product)
  }

  lemma {:induction false} NonNegativeTotal(portions: seq<Portion>, product: Id)
    requires forall i :: 0 <= i < |portions| ==> portions[i].quantity >= 0
    ensures Total(portions, product) >= 0
    decreases |portions|
  {
    if portions != [] { NonNegativeTotal(portions[..|portions| - 1], product); }
  }

  lemma {:induction false} AllIsBrought(cartons: map<Id, Carton>, ids: seq<Id>, product: Id)
    requires forall id :: id in ids ==> id in cartons
    requires forall id :: id in ids ==>
      forall i :: 0 <= i < |cartons[id].contents| ==> cartons[id].contents[i].portion.quantity >= 0
    ensures Brought(cartons, ids, product) == Held(cartons, ids, product)
    decreases |ids|
  {
    if ids != [] {
      var n := |ids| - 1;
      assert ids[n] in ids;
      AllIsBrought(cartons, ids[..n], product);
      NonNegativeTotal(Portions(cartons[ids[n]].contents), product);
    }
  }

  /** One more carton brings its total of the product, unless that is negative. */
  lemma BroughtByOne(cartons: map<Id, Carton>, ids: seq<Id>, id: Id, product: Id)
    requires (forall other :: other in ids ==> other in cartons) && id in cartons
    ensures var total := Total(Portions(cartons[id].contents), product);
      && Brought(cartons, ids + [id], product) >= Brought(cartons, ids, product)
      && (total >= 0 ==> Brought(cartons, ids + [id], product) - Brought(cartons, ids, product) == total)
      && (total < 0 ==> Brought(cartons, ids + [id], product) == Brought(cartons, ids, product))
  {
    assert (ids + [id])[..|ids|] == ids;
  }

  // ---------------------------------------------------------------- resolution and assignment

  datatype StatusEvent = StatusEvent(carton: Id, before: CartonStatus, after: CartonStatus)

  function NonZero(ids: seq<Id>): seq<Id> {
    if ids == [] then []
    else NonZero(ids[..|ids| - 1]) + if ids[|ids| - 1] != 0 then [ids[|ids| - 1]] else []
  }

  predicate IsNonZero(id: Id) {
    id != 0
  }

  function Itself(id: Id): Id {
    id
  }

  /** The ids that are not zero, in the order they came. */
  lemma {:induction false} NonZeroPicked(ids: seq<Id>)
    ensures Picked(NonZero(ids), ids, IsNonZero, Itself)
    decreases |ids|
  {
    PickedNone(IsNonZero, Itself);
    if ids != [] {
      NonZeroPicked(ids[..|ids| - 1]);
      PickedNext(NonZero(ids[..|ids| - 1]), NonZero(ids), ids, IsNonZero, Itself);
    }
  }

  /** Every carton exists, is packed and belongs to no shipment. */
  predicate Available(cartons: map<Id, Carton>, ids: seq<Id>) {
    forall id :: id in ids ==> id in cartons && cartons[id].status.Packed? && cartons[id].shipment.None?
  }

  /** One event for each carton. */
  function Transitions(ids: seq<Id>, before: CartonStatus, after: CartonStatus): (events: seq<StatusEvent>)
    ensures |events| == |ids| && forall i :: 0 <= i < |ids| ==> events[i] == StatusEvent(ids[i], before, after)
  {
    if ids == [] then []
    else Transitions(ids[..|ids| - 1], before, after) + [StatusEvent(ids[|ids| - 1], before, after)]
  }

  class Depot {
    var cartons: map<Id, Carton>
    var lines: map<Id, OrderLine>   // of the order, by product
    var events: seq<StatusEvent>

    constructor (cartons: map<Id, Carton>, lines: map<Id, OrderLine>)
      ensures this.cartons == cartons && this.lines == lines && events == []
    {
      this.cartons, this.lines, this.events := cartons, lines, [];
    }

    /** `_resolve_ready_cartons`; `None` is the refusal. */
    method ResolveReadyCartons(ids: seq<Id>) returns (resolved: Option<seq<Id>>)
      ensures resolved == if Distinct(NonZero(ids)) && Available(cartons, NonZero(ids)) then Some(NonZero(ids))
        else None
      ensures resolved.Some? <==>
        && Distinct(NonZero(ids))
        && forall id :: id in NonZero(ids) ==>
             id in cartons && cartons[id].status.Packed? && cartons[id].shipment.None?
    {
      var wanted := NonZero(ids);
      if wanted == [] {
        return Some([]);
      }
      var twice := HasRepetition(wanted);
      if twice { return None; }
      for i := 0 to |wanted|
        invariant Available(cartons, wanted[..i])
      {
        var id := wanted[i];
        assert id in wanted;
        if id !in cartons || !cartons[id].status.Packed? || cartons[id].shipment.Some? {
          return None;
        }
        assert wanted[..i + 1] == wanted[..i] + [id];
      }
      assert wanted[..|wanted|] == wanted;
      resolved := Some(wanted);
    }

    /** `set_carton_status` for a carton whose shipment was set in memory: the row is saved only with a new status. */
    method SetCartonStatus(id: Id, status: CartonStatus, shipment: Id) returns (changed: bool)
      requires id in cartons
      modifies this`cartons, this`events
      ensures changed <==> old(cartons)[id].status != status
      ensures if changed
        then cartons == old(cartons)[id := old(cartons)[id].(status := status, shipment := Some(shipment))]
          && events == old(events) + [StatusEvent(id, old(cartons)[id].status, status)]
        else cartons == old(cartons) && events == old(events)
    {
      var previous := cartons[id].status;
      changed := previous != status;
      if changed {
        cartons := cartons[id := cartons[id].(status := status, shipment := Some(shipment))];
        events := events + [StatusEvent(id, previous, status)];
      }
    }

    /** The loop over the products of one carton. */
    method AddContents(contents: seq<Content>)
      modifies this`lines
      ensures forall p :: LineFor(lines, p) == Grown(LineFor(old(lines), p), Positive(Total(Portions(contents), p)))
    {
      var quantities := SumPortions(Portions(contents));
      var left := quantities.Keys;
      while left != {}
        invariant left <= quantities.Keys
        invariant forall p ::
          LineFor(lines, p) == Grown(LineFor(old(lines), p), if p in left then 0 else Positive(Get(quantities, p)))
        decreases left
      {
        var product :| product in left;
        var quantity := quantities[product];
        if quantity > 0 {
          var line := if product in lines then lines[product] else OrderLine(0, 0, 0);
          lines := lines[product := line.(quantity := line.quantity + quantity, prepared := line.prepared + quantity)];
        }
        left := left - {product};
      }
    }

    /** The loop body of `_assign_ready_cartons_to_order`. */
    method AssignReadyCarton(shipment: Id, id: Id)
      requires id in cartons && cartons[id].status.Packed?
      modifies this
      ensures cartons == old(cartons)[id := old(cartons)[id].(status := Assigned, shipment := Some(shipment))]
      ensures forall p ::
        LineFor(lines, p) == Grown(LineFor(old(lines), p), Positive(Total(Portions(old(cartons)[id].contents), p)))
      ensures events == old(events) + [StatusEvent(id, Packed, Assigned)]
    {
      var changed := SetCartonStatus(id, Assigned, shipment);
      AddContents(cartons[id].contents);
    }

    /** `_assign_ready_cartons_to_order` */
    method AssignReadyCartons(shipment: Id, selected: seq<Id>)
      requires Distinct(selected) && Available(cartons, selected)
      modifies this
      ensures AllAssigned(old(cartons), cartons, selected, shipment)
      ensures LinesGrown(old(lines), lines, old(cartons), selected)
      ensures events == old(events) + Transitions(selected, Packed, Assigned)
    {
      ghost var before, order := cartons, lines;
      for i := 0 to |selected|
        invariant AllAssigned(before, cartons, selected[..i], shipment)
        invariant LinesGrown(order, lines, before, selected[..i])
        invariant events == old(events) + Transitions(selected[..i], Packed, Assigned)
      {
        var id := selected[i];
        assert id in selected && id !in selected[..i];
        assert selected[..i + 1] == selected[..i] + [id];
        ghost var rows, grown := cartons, lines;
        AssignReadyCarton(shipment, id);
        AssignedOneMore(before, rows, cartons, selected[..i], id, shipment);
        GrownOneMore(order, grown, lines, before, selected[..i], id);
        assert (selected[..i] + [id])[..i] == selected[..i];
      }
      assert selected[..|selected|] == selected;
    }
  }

  /** The cartons named are assigned and linked, the others are as before. */
  ghost predicate AllAssigned(before: map<Id, Carton>, after: map<Id, Carton>, ids: seq<Id>, shipment: Id) {
    && after.Keys == before.Keys
    && (forall id :: id in before ==>
          after[id] == if id in ids then before[id].(status := Assigned, shipment := Some(shipment)) else before[id])
  }

  /** Each product line grew by what the cartons brought. */
  ghost predicate LinesGrown(
    before: map<Id, OrderLine>, after: map<Id, OrderLine>, cartons: map<Id, Carton>, ids: seq<Id>)
  {
    && (forall id :: id in ids ==> id in cartons)
    && (forall p :: LineFor(after, p) == Grown(LineFor(before, p), Brought(cartons, ids, p)))
  }

  lemma AssignedOneMore(
    before: map<Id, Carton>, rows: map<Id, Carton>, after: map<Id, Carton>, ids: seq<Id>, id: Id, shipment: Id)
    requires AllAssigned(before, rows, ids, shipment) && id in before && id !in ids
    requires after == rows[id := rows[id].(status := Assigned, shipment := Some(shipment))]
    ensures AllAssigned(before, after, ids + [id], shipment)
  {
  }

  lemma GrownOneMore(
    before: map<Id, OrderLine>, lines: map<Id, OrderLine>, after: map<Id, OrderLine>, cartons: map<Id, Carton>,
    ids: seq<Id>, id: Id)
    requires LinesGrown(before, lines, cartons, ids) && id in cartons
    requires forall p ::
      LineFor(after, p) == Grown(LineFor(lines, p), Positive(Total(Portions(cartons[id].contents), p)))
    ensures LinesGrown(before, after, cartons, ids + [id])
  {
    assert (ids + [id])[..|ids|] == ids;
  }

  /** Tells whether some key is named twice. */
  method HasRepetition(ids: seq<Id>) returns (twice: bool)
    ensures twice <==> !Distinct(ids)
  {
    var seen := {};
    for i := 0 to |ids|
      invariant Distinct(ids[..i]) && seen == set k | 0 <= k < i :: ids[k]
    {
      if ids[i] in seen {
        return true;
      }
      assert ids[..i + 1] == ids[..i] + [ids[i]];
      seen := seen + {ids[i]};
    }
    assert ids[..|ids|] == ids;
    twice := false;
  }

  /** A selection from rows that are still up to date resolves. */
  lemma SelectionResolves(
    rows: seq<Row>, cartons: seq<Carton>, names: Names, digest: string -> string, post: map<string, string>,
    parse: string -> Option<int>,
    table: map<Id, Carton>)
    requires Grouped(rows, cartons, names, digest) && DistinctIds(cartons)
    requires forall i :: 0 <= i < |cartons| ==>
      cartons[i].id != 0 && cartons[i].id in table && table[cartons[i].id] == cartons[i]
    ensures forall k :: 0 <= k < |rows| ==> rows[k].stock == |rows[k].cartonIds|
    ensures var ids := Chosen(rows, post, parse); NonZero(ids) == ids && Distinct(ids) && Available(table, ids)
  {
    SelectionIsSound(rows, cartons, names, digest, post, parse);
    NoZeros(Chosen(rows, post, parse));
  }

  lemma {:induction false} NoZeros(ids: seq<Id>)
    requires 0 !in ids
    ensures NonZero(ids) == ids
    decreases |ids|
  {
    if ids != [] {
      NoZeros(ids[..|ids| - 1]);
      assert ids[|ids| - 1] in ids;
    }
  }
}
