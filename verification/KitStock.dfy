/** Reading kits back from the contents of cartons (wms/kits_view_helpers.py). */
module KitStock {
  import opened Ids
  import opened Listings
  import opened Quantities
  import opened Cartons
  import opened KitComponents

  // ---------------------------------------------------------------- one carton, one kit

  /** The carton holds exactly `n` units of the kit and nothing else. */
  ghost predicate HoldsUnits(carton: map<Id, int>, kit: map<Id, int>, n: nat) {
    && n >= 1 && kit != map[] && carton.Keys == kit.Keys
    && (forall c :: c in kit ==> kit[c] > 0 && carton[c] == n * kit[c])
  }

  /** What a reading of the carton as units of the kit answers; 0 stands for no match. */
  ghost predicate Reads(carton: map<Id, int>, kit: map<Id, int>, units: nat) {
    if units > 0 then HoldsUnits(carton, kit, units) else forall n :: !HoldsUnits(carton, kit, n)
  }

  lemma UnitsUnique(carton: map<Id, int>, kit: map<Id, int>, n: nat, m: nat)
    requires HoldsUnits(carton, kit, n) && HoldsUnits(carton, kit, m)
    ensures n == m
  {
    var c :| c in kit;
    Cancels(n, m, kit[c]);
  }

  lemma Cancels(n: int, m: int, k: int)
    requires k > 0 && n * k == m * k
    ensures n == m
  {
    if n < m { Less(n, m, k); } else if m < n { Less(m, n, k); }
  }

  lemma Less(n: int, m: int, k: int)
    requires k > 0 && n < m
    ensures n * k < m * k
  {
  }

  /** There is one reading. */
  lemma ReadingUnique(carton: map<Id, int>, kit: map<Id, int>, n: nat, m: nat)
    requires Reads(carton, kit, n) && Reads(carton, kit, m)
    ensures n == m
  {
    if n > 0 && m > 0 { UnitsUnique(carton, kit, n, m); }
  }

  lemma DivisionUnique(n: int, k: int, q: int, r: int)
    requires k > 0 && n * k == q * k + r && 0 <= r < k
    ensures n == q && r == 0
  {
    if n > q { AtLeastOnce(n - q, k); } else if q > n { AtLeastOnce(q - n, k); }
  }

  lemma AtLeastOnce(d: int, k: int)
    requires d >= 1 && k > 0
    ensures d * k >= k
  {
  }

  /** How often the requirement goes into the quantity, 0 if not a positive whole number of times. */
  ghost predicate GoesInto(required: int, held: int, ratio: nat) {
    if ratio > 0 then required > 0 && held == ratio * required
    else forall n: nat | n >= 1 && required > 0 :: held != n * required
  }

  /** The checks on one component. */
  function Ratio(required: int, held: int): (ratio: nat)
    ensures GoesInto(required, held, ratio)
  {
    if required <= 0 then 0
    else
      if held <= 0 || held % required != 0 then
        NoRatio(required, held);
        0
      else
        // the quotient is positive here, so the code's last guard never fires
        assert held == (held / required) * required;
        held / required
  }

  lemma NoRatio(required: int, held: int)
    requires required > 0 && (held <= 0 || held % required != 0)
    ensures forall n: nat | n >= 1 :: held != n * required
  {
    forall n: nat | n >= 1 ensures held != n * required {
      AtLeastOnce(n, required);
      if held == n * required { DivisionUnique(n, required, held / required, held % required); }
    }
  }

  lemma ComponentRefuses(carton: map<Id, int>, kit: map<Id, int>, c: Id)
    requires c in kit && c in carton && GoesInto(kit[c], carton[c], 0)
    ensures Reads(carton, kit, 0)
  {
  }

  lemma RatiosDiffer(carton: map<Id, int>, kit: map<Id, int>, c: Id, d: Id, n: nat, m: nat)
    requires c in kit && c in carton && d in kit && d in carton && n != m && n > 0 && m > 0
    requires GoesInto(kit[c], carton[c], n) && GoesInto(kit[d], carton[d], m)
    ensures Reads(carton, kit, 0)
  {
    forall k: nat ensures !HoldsUnits(carton, kit, k) {
      if HoldsUnits(carton, kit, k) {
        Cancels(n, k, kit[c]);
        Cancels(m, k, kit[d]);
      }
    }
  }

  /** `_kit_units_in_carton`. The dictionary is visited in any order. */
  method KitUnitsInCarton(carton: map<Id, int>, kit: map<Id, int>) returns (units: nat)
    ensures Reads(carton, kit, units)
  {
    if carton == map[] || kit == map[] { return 0; }
    if carton.Keys != kit.Keys { return 0; }
    units := 0;
    var left := kit.Keys;
    ghost var seen := 0;
    while left != {}
      invariant left <= kit.Keys && (units == 0 ==> left == kit.Keys)
      invariant units > 0 ==> seen in kit && GoesInto(kit[seen], carton[seen], units)
      invariant forall c :: c in kit && c !in left ==> GoesInto(kit[c], carton[c], units)
      decreases left
    {
      var component :| component in left;
      var current := Ratio(kit[component], Get(carton, component));
      if current == 0 {
        ComponentRefuses(carton, kit, component);
        return 0;
      }
      if units == 0 {
        units, seen := current, component;
      } else if units != current {
        RatiosDiffer(carton, kit, seen, component, units, current);
        return 0;
      }
      left := left - {component};
    }
  }

  /** A carton filled with `n` units of a kit reads back as `n` units, however it is read. */
  lemma FilledCartonReadsBack(units: map<Id, int>, carton: map<Id, int>, n: nat, read: nat, g: Catalogue, kit: Id)
    requires Expands(g, kit, units) && units != map[] && n >= 1 && Scaled(carton, units, n)
    requires Reads(carton, units, read)
    ensures read == n
  {
    var height: nat :| ExpandsAt(g, kit, units, height);
    forall c | c in units ensures units[c] > 0 && carton[c] == n * units[c] {
      Commutes(units[c], n);
    }
    assert HoldsUnits(carton, units, n);
    ReadingUnique(carton, units, read, n);
  }

  // ---------------------------------------------------------------- all cartons, all kits

  /** The cartons the query returns: outside any shipment, in preparation or ready, not empty. */
  predicate Counted(carton: Carton) {
    carton.shipment.None? && carton.status in {Picking, Packed} && carton.contents != []
  }

  /** The kit a carton counts for. */
  datatype Match = NoMatch | Match(kit: Id, units: nat)

  function KitQuantities(quantities: map<Id, map<Id, int>>, kit: Id): map<Id, int> {
    if kit in quantities then quantities[kit] else map[]
  }

  /** A carton counts for the first kit of the list that it holds whole units of. */
  ghost predicate FirstMatch(carton: map<Id, int>, kits: seq<Id>, quantities: map<Id, map<Id, int>>, m: Match) {
    match m
    case NoMatch => forall i :: 0 <= i < |kits| ==> Reads(carton, KitQuantities(quantities, kits[i]), 0)
    case Match(kit, units) => exists i :: FirstAt(carton, kits, quantities, kit, units, i)
  }

  ghost predicate FirstAt(
    carton: map<Id, int>, kits: seq<Id>, quantities: map<Id, map<Id, int>>, kit: Id, units: nat, i: nat)
  {
    && i < |kits| && kits[i] == kit && units > 0 && Reads(carton, KitQuantities(quantities, kit), units)
    && (forall j :: 0 <= j < i ==> Reads(carton, KitQuantities(quantities, kits[j]), 0))
  }

  /** A carton counts for at most one kit, with one number of units. */
  lemma MatchUnique(carton: map<Id, int>, kits: seq<Id>, quantities: map<Id, map<Id, int>>, m: Match, m': Match)
    requires FirstMatch(carton, kits, quantities, m) && FirstMatch(carton, kits, quantities, m')
    ensures m == m'
  {
    match (m, m')
    case (NoMatch, NoMatch) =>
    case (NoMatch, Match(kit, units)) => MatchedNotUnmatched(carton, kits, quantities, kit, units);
    case (Match(kit, units), NoMatch) => MatchedNotUnmatched(carton, kits, quantities, kit, units);
    case (Match(kit, units), Match(kit', units')) =>
      var i: nat :| FirstAt(carton, kits, quantities, kit, units, i);
      var i': nat :| FirstAt(carton, kits, quantities, kit', units', i');
      if i < i' {
        assert false;
      } else if i' < i {
        assert false;
      } else {
        ReadingUnique(carton, KitQuantities(quantities, kit), units, units');
      }
  }

  lemma MatchedNotUnmatched(carton: map<Id, int>, kits: seq<Id>, quantities: map<Id, map<Id, int>>, kit: Id, units: nat)
    requires FirstMatch(carton, kits, quantities, Match(kit, units))
    ensures !FirstMatch(carton, kits, quantities, NoMatch)
  {
    var i: nat :| FirstAt(carton, kits, quantities, kit, units, i);
    if Reads(carton, KitQuantities(quantities, kits[i]), 0) { assert false; }
  }

  /** The search of the first kit that matches. */
  method MatchCarton(carton: map<Id, int>, kits: seq<Id>, quantities: map<Id, map<Id, int>>) returns (m: Match)
    ensures FirstMatch(carton, kits, quantities, m)
  {
    for i := 0 to |kits|
      invariant forall j :: 0 <= j < i ==> Reads(carton, KitQuantities(quantities, kits[j]), 0)
    {
      var units := KitUnitsInCarton(carton, KitQuantities(quantities, kits[i]));
      if units > 0 {
        assert FirstAt(carton, kits, quantities, kits[i], units, i);
        return Match(kits[i], units);
      }
    }
    m := NoMatch;
  }

  // ---------------------------------------------------------------- the stock of each kit

  /** What the carton counts for. */
  ghost predicate CountsAs(carton: Carton, kits: seq<Id>, quantities: map<Id, map<Id, int>>, m: Match) {
    if !Counted(carton) then m == NoMatch
    else exists held :: SumsUp(held, Portions(carton.contents)) && FirstMatch(held, kits, quantities, m)
  }

  lemma SumUnique(portions: seq<Portion>, held: map<Id, int>, other: map<Id, int>)
    requires SumsUp(held, portions) && SumsUp(other, portions)
    ensures held == other
  {
  }

  /** `matches` lists what each carton counts for. */
  ghost predicate AllMatched(
    cartons: seq<Carton>, kits: seq<Id>, quantities: map<Id, map<Id, int>>, matches: seq<Match>)
  {
    |matches| == |cartons| && forall i :: 0 <= i < |cartons| ==> CountsAs(cartons[i], kits, quantities, matches[i])
  }

  lemma MatchesUnique(
    cartons: seq<Carton>, kits: seq<Id>, quantities: map<Id, map<Id, int>>, matches: seq<Match>, other: seq<Match>)
    requires AllMatched(cartons, kits, quantities, matches) && AllMatched(cartons, kits, quantities, other)
    ensures matches == other
  {
    forall i | 0 <= i < |cartons| ensures matches[i] == other[i] {
      assert CountsAs(cartons[i], kits, quantities, matches[i]) && CountsAs(cartons[i], kits, quantities, other[i]);
      if Counted(cartons[i]) {
        var held :| SumsUp(held, Portions(cartons[i].contents)) && FirstMatch(held, kits, quantities, matches[i]);
        var held' :| SumsUp(held', Portions(cartons[i].contents)) && FirstMatch(held', kits, quantities, other[i]);
        SumUnique(Portions(cartons[i].contents), held, held');
        MatchUnique(held, kits, quantities, matches[i], other[i]);
      }
    }
  }

  /** The units that cartons of one status hold of a kit. */
  function UnitsOf(cartons: seq<Carton>, matches: seq<Match>, status: CartonStatus, kit: Id): nat
    requires |matches| == |cartons|
  {
    if cartons == [] then 0
    else
      var n := |cartons| - 1;
      UnitsOf(cartons[..n], matches[..n], status, kit)
      + if cartons[n].status == status && matches[n].Match? && matches[n].kit == kit then matches[n].units else 0
  }

  /** When the cartons that count for a kit were created. */
  function DatesOf(cartons: seq<Carton>, matches: seq<Match>, kit: Id): seq<int>
    requires |matches| == |cartons|
  {
    if cartons == [] then []
    else
      var n := |cartons| - 1;
      DatesOf(cartons[..n], matches[..n], kit)
      + if matches[n].Match? && matches[n].kit == kit then [cartons[n].createdAt] else []
  }

  function DatesAt(dates: map<Id, seq<int>>, kit: Id): seq<int> {
    if kit in dates then dates[kit] else []
  }

  /** The dictionaries agree with what the cartons count for. */
  ghost predicate Tallied(
    cartons: seq<Carton>, matches: seq<Match>, inPreparation: map<Id, int>, ready: map<Id, int>,
    dates: map<Id, seq<int>>)
  {
    && |matches| == |cartons|
    && (forall kit :: Get(inPreparation, kit) == UnitsOf(cartons, matches, Picking, kit))
    && (forall kit :: Get(ready, kit) == UnitsOf(cartons, matches, Packed, kit))
    && (forall kit :: DatesAt(dates, kit) == DatesOf(cartons, matches, kit))
  }

  /** What one carton adds. */
  method Tally(
    carton: Carton, m: Match, inPreparation: map<Id, int>, ready: map<Id, int>, dates: map<Id, seq<int>>,
    ghost cartons: seq<Carton>, ghost matches: seq<Match>)
    returns (inPreparation': map<Id, int>, ready': map<Id, int>, dates': map<Id, seq<int>>)
    requires Tallied(cartons, matches, inPreparation, ready, dates) && (m.Match? ==> Counted(carton))
    ensures Tallied(cartons + [carton], matches + [m], inPreparation', ready', dates')
  {
    inPreparation', ready', dates' := inPreparation, ready, dates;
    assert (cartons + [carton])[..|cartons|] == cartons && (matches + [m])[..|matches|] == matches;
    if m.Match? {
      if carton.status == Picking {
        inPreparation' := inPreparation[m.kit := Get(inPreparation, m.kit) + m.units];
      } else if carton.status == Packed {
        ready' := ready[m.kit := Get(ready, m.kit) + m.units];
      }
      dates' := dates[m.kit := DatesAt(dates, m.kit) + [carton.createdAt]];
    }
  }

  /** `_build_carton_kit_stock_by_status` */
  method CartonKitStock(cartons: seq<Carton>, kits: seq<Id>, quantities: map<Id, map<Id, int>>)
    returns (inPreparation: map<Id, int>, ready: map<Id, int>, dates: map<Id, seq<int>>)
    ensures exists matches ::
      AllMatched(cartons, kits, quantities, matches) && Tallied(cartons, matches, inPreparation, ready, dates)
  {
    inPreparation, ready, dates := map[], map[], map[];
    ghost var matches := [];
    for i := 0 to |cartons|
      invariant AllMatched(cartons[..i], kits, quantities, matches)
      invariant Tallied(cartons[..i], matches, inPreparation, ready, dates)
    {
      var carton := cartons[i];
      assert cartons[..i + 1] == cartons[..i] + [carton];
      var m := NoMatch;
      if Counted(carton) {
        var held := SumPortions(Portions(carton.contents));
        m := MatchCarton(held, kits, quantities);
      }
      assert CountsAs(carton, kits, quantities, m);
      inPreparation, ready, dates := Tally(carton, m, inPreparation, ready, dates, cartons[..i], matches);
      matches := matches + [m];
    }
    assert cartons[..|cartons|] == cartons;
  }

  // ---------------------------------------------------------------- what the stock stands for

  /** The kit is listed with these quantities and the contents are so many units of it. */
  ghost predicate UnitsOfListed(quantities: map<Id, map<Id, int>>, kit: Id, held: map<Id, int>, n: nat) {
    kit in quantities && HoldsUnits(held, quantities[kit], n)
  }

  /** A carton counts for a kit exactly when it is in preparation or ready, in no shipment, and holds whole units of a
      kit of the list; it counts for so many. */
  lemma CountsIff(carton: Carton, held: map<Id, int>, kits: seq<Id>, quantities: map<Id, map<Id, int>>, m: Match)
    requires CountsAs(carton, kits, quantities, m) && SumsUp(held, Portions(carton.contents))
    ensures m.Match? <==>
      && carton.shipment.None? && (carton.status.Picking? || carton.status.Packed?) && carton.contents != []
      && exists i, n :: 0 <= i < |kits| && UnitsOfListed(quantities, kits[i], held, n)
    ensures m.Match? ==> m.kit in kits && UnitsOfListed(quantities, m.kit, held, m.units)
  {
    if !Counted(carton) { return; }
    var other :| SumsUp(other, Portions(carton.contents)) && FirstMatch(other, kits, quantities, m);
    SumUnique(Portions(carton.contents), held, other);
    if m.Match? {
      var i: nat :| FirstAt(held, kits, quantities, m.kit, m.units, i);
      assert UnitsOfListed(quantities, kits[i], held, m.units);
    } else {
      forall i, n: nat | 0 <= i < |kits| ensures !UnitsOfListed(quantities, kits[i], held, n) {
        assert Reads(held, KitQuantities(quantities, kits[i]), 0);
      }
    }
  }

  /** What the cartons of one status that count for a kit hold of a product. */
  ghost function HeldFor(cartons: seq<Carton>, matches: seq<Match>, status: CartonStatus, kit: Id, c: Id): int
    requires |matches| == |cartons|
  {
    if cartons == [] then 0
    else
      var n := |cartons| - 1;
      HeldFor(cartons[..n], matches[..n], status, kit, c)
      + if cartons[n].status == status && matches[n].Match? && matches[n].kit == kit
        then Total(Portions(cartons[n].contents), c) else 0
  }

  /** A carton that counts for a kit holds of each component its units of it. */
  lemma CountedHolds(carton: Carton, kits: seq<Id>, quantities: map<Id, map<Id, int>>, m: Match, c: Id)
    requires CountsAs(carton, kits, quantities, m) && m.Match? && m.kit in quantities && c in quantities[m.kit]
    ensures Total(Portions(carton.contents), c) == m.units * quantities[m.kit][c]
  {
    var held :| SumsUp(held, Portions(carton.contents)) && FirstMatch(held, kits, quantities, m);
    CountsIff(carton, held, kits, quantities, m);
  }

  lemma Distributes(a: int, b: int, k: int)
    ensures (a + b) * k == a * k + b * k
  {
  }

  /** The units of one carton. */
  lemma UnitsByOne(cartons: seq<Carton>, matches: seq<Match>, status: CartonStatus, kit: Id) returns (more: nat)
    requires |matches| == |cartons| > 0
    ensures var n := |cartons| - 1;
      && more
        == (if cartons[n].status == status && matches[n].Match? && matches[n].kit == kit then matches[n].units else 0)
      && UnitsOf(cartons, matches, status, kit) == UnitsOf(cartons[..n], matches[..n], status, kit) + more
  {
    var n := |cartons| - 1;
    more := if cartons[n].status == status && matches[n].Match? && matches[n].kit == kit then matches[n].units else 0;
  }

  lemma AllMatchedFront(cartons: seq<Carton>, kits: seq<Id>, quantities: map<Id, map<Id, int>>, matches: seq<Match>)
    requires AllMatched(cartons, kits, quantities, matches) && cartons != []
    ensures var n := |cartons| - 1;
      AllMatched(cartons[..n], kits, quantities, matches[..n]) && CountsAs(cartons[n], kits, quantities, matches[n])
  {
    var n := |cartons| - 1;
    forall i | 0 <= i < n ensures CountsAs(cartons[..n][i], kits, quantities, matches[..n][i]) {
      assert CountsAs(cartons[i], kits, quantities, matches[i]);
    }
  }

  /** The units counted for a kit are what its cartons hold: of every component that many times what a unit needs. */
  lemma {:induction false} StockIsHeld(
    cartons: seq<Carton>, kits: seq<Id>, quantities: map<Id, map<Id, int>>, matches: seq<Match>, status: CartonStatus,
    kit: Id, c: Id)
    requires AllMatched(cartons, kits, quantities, matches) && kit in quantities && c in quantities[kit]
    ensures HeldFor(cartons, matches, status, kit, c) == UnitsOf(cartons, matches, status, kit) * quantities[kit][c]
    decreases |cartons|
  {
    if cartons != [] {
      var n := |cartons| - 1;
      AllMatchedFront(cartons, kits, quantities, matches);
      StockIsHeld(cartons[..n], kits, quantities, matches[..n], status, kit, c);
      var more := UnitsByOne(cartons, matches, status, kit);
      Distributes(UnitsOf(cartons[..n], matches[..n], status, kit), more, quantities[kit][c]);
      if cartons[n].status == status && matches[n].Match? && matches[n].kit == kit {
        CountedHolds(cartons[n], kits, quantities, matches[n], c);
      }
    }
  }

  /** A carton with what it counts for. */
  datatype Reading = Reading(carton: Carton, m: Match)

  ghost function Readings(cartons: seq<Carton>, matches: seq<Match>): seq<Reading>
    requires |matches| == |cartons|
  {
    seq(|cartons|, i requires 0 <= i < |cartons| => Reading(cartons[i], matches[i]))
  }

  ghost function CountsFor(kit: Id): Reading -> bool {
    (r: Reading) => r.m.Match? && r.m.kit == kit
  }

  function CreatedAt(r: Reading): int {
    r.carton.createdAt
  }

  /** The dates of a kit are those of the cartons that count for it, in order. */
  lemma {:induction false} DatesPicked(cartons: seq<Carton>, matches: seq<Match>, kit: Id)
    requires |matches| == |cartons|
    ensures Picked(DatesOf(cartons, matches, kit), Readings(cartons, matches), CountsFor(kit), CreatedAt)
    decreases |cartons|
  {
    PickedNone(CountsFor(kit), CreatedAt);
    if cartons != [] {
      var n := |cartons| - 1;
      DatesPicked(cartons[..n], matches[..n], kit);
      assert Readings(cartons, matches)[..n] == Readings(cartons[..n], matches[..n]);
      PickedNext(DatesOf(cartons[..n], matches[..n], kit), DatesOf(cartons, matches, kit), Readings(cartons, matches),
        CountsFor(kit), CreatedAt);
    } else {
      assert Readings(cartons, matches) == [];
    }
  }
}
