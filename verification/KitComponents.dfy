/** Flattening a kit into its components (wms/kit_components.py).

    The expansion shares a memo between all recursive calls and keeps the path to the current product on a
    stack. It is specified by the plain recursion over the items of positive quantity. */
module KitComponents {
  import opened Ids
  import opened Quantities

  datatype Item = Item(component: Id, quantity: int)

  /** The items of each kit. A product without an entry has none. */
  type Catalogue = map<Id, seq<Item>>

  function Items(g: Catalogue, product: Id): seq<Item> {
    if product in g then g[product] else []
  }

  // ---------------------------------------------------------------- specification

  /** No chain of items of positive quantity from the product is as long as `height`. The key 0 stands for no
      product. */
  ghost predicate Bounded(g: Catalogue, product: Id, height: nat)
    decreases height, 0
  {
    height > 0 && (product != 0 ==> AllBounded(g, Items(g, product), height - 1))
  }

  ghost predicate AllBounded(g: Catalogue, items: seq<Item>, height: nat)
    decreases height, 1
  {
    forall i :: 0 <= i < |items| && items[i].quantity > 0 ==> Bounded(g, items[i].component, height)
  }

  /** Units of `c` in one unit of the product: the sum over all paths of the products of their quantities. */
  ghost function Units(g: Catalogue, product: Id, c: Id, height: nat): nat
    requires Bounded(g, product, height)
    decreases height, 0
  {
    if product == 0 then 0
    else if Items(g, product) == [] then (if product == c then 1 else 0)
    else UnitsIn(g, Items(g, product), c, height - 1)
  }

  ghost function UnitsIn(g: Catalogue, items: seq<Item>, c: Id, height: nat): nat
    requires AllBounded(g, items, height)
    decreases height, |items| + 1
  {
    if items == [] then 0
    else
      var front, last := items[..|items| - 1], items[|items| - 1];
      assert AllBounded(g, front, height);
      UnitsIn(g, front, c, height)
      + if last.quantity > 0 then last.quantity * Units(g, last.component, c, height) else 0
  }

  /** The components of one unit of the product, each with its number of units. */
  ghost predicate ExpandsAt(g: Catalogue, product: Id, units: map<Id, int>, height: nat) {
    && Bounded(g, product, height)
    && (forall c :: Get(units, c) == Units(g, product, c, height))
    && (forall c :: c in units ==> units[c] >= 1)
  }

  ghost predicate Expands(g: Catalogue, product: Id, units: map<Id, int>) {
    exists height :: ExpandsAt(g, product, units, height)
  }

  /** An item of positive quantity leads from one product to the other. */
  ghost predicate Leads(g: Catalogue, product: Id, component: Id) {
    product != 0 && exists i ::
      0 <= i < |Items(g, product)| && Items(g, product)[i].component == component && Items(g, product)[i].quantity > 0
  }

  ghost predicate Walk(g: Catalogue, path: seq<Id>) {
    forall i :: 0 <= i < |path| - 1 ==> Leads(g, path[i], path[i + 1])
  }

  /** A walk from the product runs into `ids`, a closed walk. */
  ghost predicate CycleFrom(g: Catalogue, path: seq<Id>, ids: seq<Id>) {
    && Walk(g, path)
    && 2 <= |ids| <= |path| && ids == path[|path| - |ids|..] && ids[0] == ids[|ids| - 1]
  }

  ghost predicate CycleReachable(g: Catalogue, product: Id) {
    exists path, ids :: CycleFrom(g, path, ids) && path[0] == product
  }

  // ---------------------------------------------------------------- lemmas

  lemma {:induction false} HigherBound(g: Catalogue, product: Id, low: nat, high: nat)
    requires Bounded(g, product, low) && low <= high
    ensures Bounded(g, product, high)
    decreases low, 0
  {
    if product != 0 { HigherBounds(g, Items(g, product), low - 1, high - 1); }
  }

  lemma {:induction false} HigherBounds(g: Catalogue, items: seq<Item>, low: nat, high: nat)
    requires AllBounded(g, items, low) && low <= high
    ensures AllBounded(g, items, high)
    decreases low, 1
  {
    forall i | 0 <= i < |items| && items[i].quantity > 0 ensures Bounded(g, items[i].component, high) {
      HigherBound(g, items[i].component, low, high);
    }
  }

  /** The number of units does not depend on the bound. */
  lemma {:induction false} SameUnits(g: Catalogue, product: Id, c: Id, low: nat, high: nat)
    requires Bounded(g, product, low) && Bounded(g, product, high) && low <= high
    ensures Units(g, product, c, low) == Units(g, product, c, high)
    decreases low, 0
  {
    if product != 0 { SameUnitsIn(g, Items(g, product), c, low - 1, high - 1); }
  }

  lemma {:induction false} SameUnitsIn(g: Catalogue, items: seq<Item>, c: Id, low: nat, high: nat)
    requires AllBounded(g, items, low) && AllBounded(g, items, high) && low <= high
    ensures UnitsIn(g, items, c, low) == UnitsIn(g, items, c, high)
    decreases low, |items| + 1
  {
    if items != [] {
      var front, last := items[..|items| - 1], items[|items| - 1];
      assert AllBounded(g, front, low) && AllBounded(g, front, high);
      SameUnitsIn(g, front, c, low, high);
      if last.quantity > 0 { SameUnits(g, last.component, c, low, high); }
    }
  }

  /** Only products without items are components. */
  lemma {:induction false} ComponentsHaveNoItems(g: Catalogue, product: Id, c: Id, height: nat)
    requires Bounded(g, product, height) && Units(g, product, c, height) > 0
    ensures c != 0 && Items(g, c) == []
    decreases height, 0
  {
    if Items(g, product) != [] { ComponentsInHaveNoItems(g, Items(g, product), c, height - 1); }
  }

  lemma {:induction false} ComponentsInHaveNoItems(g: Catalogue, items: seq<Item>, c: Id, height: nat)
    requires AllBounded(g, items, height) && UnitsIn(g, items, c, height) > 0
    ensures c != 0 && Items(g, c) == []
    decreases height, |items| + 1
  {
    var front, last := items[..|items| - 1], items[|items| - 1];
    assert AllBounded(g, front, height);
    if UnitsIn(g, front, c, height) > 0 {
      ComponentsInHaveNoItems(g, front, c, height);
    } else {
      ComponentsHaveNoItems(g, last.component, c, height);
    }
  }

  lemma RestOfWalk(g: Catalogue, path: seq<Id>)
    requires path != [] && Walk(g, path)
    ensures Walk(g, path[1..])
  {
    var rest := path[1..];
    forall i | 0 <= i < |rest| - 1 ensures Leads(g, rest[i], rest[i + 1]) {
      assert Leads(g, path[i + 1], path[i + 1 + 1]);
    }
  }

  /** A walk from a bounded product is shorter than the bound. */
  lemma {:induction false} BoundedAlong(g: Catalogue, path: seq<Id>, height: nat)
    requires path != [] && Walk(g, path) && Bounded(g, path[0], height)
    ensures |path| <= height && Bounded(g, path[|path| - 1], height - (|path| - 1))
    decreases |path|
  {
    if |path| > 1 {
      assert Leads(g, path[0], path[1]);
      RestOfWalk(g, path);
      BoundedAlong(g, path[1..], height - 1);
    }
  }

  lemma {:induction false} NoClosedWalk(g: Catalogue, ids: seq<Id>, height: nat)
    requires |ids| >= 2 && Walk(g, ids) && ids[0] == ids[|ids| - 1] && Bounded(g, ids[0], height)
    ensures false
    decreases height
  {
    BoundedAlong(g, ids, height);
    NoClosedWalk(g, ids, height - (|ids| - 1));
  }

  /** A product with a bound reaches no cycle. */
  lemma BoundedReachesNoCycle(g: Catalogue, product: Id, height: nat)
    requires Bounded(g, product, height)
    ensures !CycleReachable(g, product)
  {
    if CycleReachable(g, product) {
      var path, ids :| CycleFrom(g, path, ids) && path[0] == product;
      var k := |path| - |ids|;
      BoundedAlong(g, path[..k + 1], height);
      assert Walk(g, ids) by {
        forall i | 0 <= i < |ids| - 1 ensures Leads(g, ids[i], ids[i + 1]) {
          assert ids[i] == path[k + i] && ids[i + 1] == path[k + i + 1];
        }
      }
      assert path[..k + 1][k] == ids[0];
      NoClosedWalk(g, ids, height - k);
    }
  }

  /** The keys of an expansion are products without items. */
  lemma ExpansionIsFlat(g: Catalogue, product: Id, units: map<Id, int>, c: Id)
    requires Expands(g, product, units) && c in units
    ensures c != 0 && Items(g, c) == []
  {
    var height: nat :| ExpandsAt(g, product, units, height);
    assert Get(units, c) == Units(g, product, c, height);
    ComponentsHaveNoItems(g, product, c, height);
  }

  /** A product has one expansion. */
  lemma ExpansionIsUnique(g: Catalogue, product: Id, units: map<Id, int>, other: map<Id, int>)
    requires Expands(g, product, units) && Expands(g, product, other)
    ensures units == other
  {
    var low: nat :| ExpandsAt(g, product, units, low);
    var high: nat :| ExpandsAt(g, product, other, high);
    forall c ensures Get(units, c) == Get(other, c) {
      if low <= high { SameUnits(g, product, c, low, high); } else { SameUnits(g, product, c, high, low); }
    }
    assert forall c :: c in units <==> Get(units, c) > 0;
    assert forall c :: c in other <==> Get(other, c) > 0;
  }

  // ---------------------------------------------------------------- the expansion

  datatype Expansion = Totals(units: map<Id, int>) | Cycle(ids: seq<Id>)

  ghost predicate MemoCorrect(g: Catalogue, memo: map<Id, map<Id, int>>) {
    forall p :: p in memo ==> Expands(g, p, memo[p])
  }

  /** The path from the first product: a walk without repetition, over products that are not expanded yet. */
  ghost predicate OnPath(g: Catalogue, stack: seq<Id>) {
    Walk(g, stack) && (forall i, j :: 0 <= i < j < |stack| ==> stack[i] != stack[j]) && 0 !in stack
  }

  function Left(g: Catalogue, stack: seq<Id>): set<Id> {
    set p | p in g && p !in stack
  }

  lemma LeftShrinks(g: Catalogue, stack: seq<Id>, product: Id)
    requires product in g && product !in stack
    ensures |Left(g, stack + [product])| < |Left(g, stack)|
  {
    assert Left(g, stack) == Left(g, stack + [product]) + {product};
    assert product !in Left(g, stack + [product]);
  }

  lemma PathGrows(g: Catalogue, stack: seq<Id>, product: Id)
    requires OnPath(g, stack) && product != 0 && product !in stack
    requires stack == [] || Leads(g, stack[|stack| - 1], product)
    ensures OnPath(g, stack + [product])
  {
    WalkGrows(g, stack, product);
  }

  lemma WalkGrows(g: Catalogue, stack: seq<Id>, product: Id)
    requires Walk(g, stack) && (stack == [] || Leads(g, stack[|stack| - 1], product))
    ensures Walk(g, stack + [product])
  {
    var path := stack + [product];
    forall i | 0 <= i < |path| - 1 ensures Leads(g, path[i], path[i + 1]) {
      if i == |stack| - 1 { assert path[i] == stack[|stack| - 1]; }
    }
  }

  /** What the items visited so far contribute. */
  ghost predicate SoFar(g: Catalogue, items: seq<Item>, totals: map<Id, int>, height: nat) {
    && AllBounded(g, items, height)
    && (forall c :: Get(totals, c) == UnitsIn(g, items, c, height))
    && (forall c :: c in totals ==> totals[c] >= 1)
  }

  lemma SoFarAtFirst(g: Catalogue)
    ensures SoFar(g, [], map[], 0)
  {
  }

  /** One more item: the bounds are raised to a common one. */
  lemma SoFarByOne(
    g: Catalogue, items: seq<Item>, item: Item, totals: map<Id, int>, units: map<Id, int>, sum: map<Id, int>,
    height: nat)
    returns (higher: nat)
    requires SoFar(g, items, totals, height) && item.quantity > 0 && Expands(g, item.component, units)
    requires sum.Keys == totals.Keys + units.Keys
    requires forall c :: Get(sum, c) == Get(totals, c) + Get(units, c) * item.quantity
    ensures SoFar(g, items + [item], sum, higher)
  {
    var own: nat :| ExpandsAt(g, item.component, units, own);
    higher := if height < own then own else height;
    HigherBounds(g, items, height, higher);
    HigherBound(g, item.component, own, higher);
    AllBoundedByOne(g, items, item, higher);
    forall c ensures Get(sum, c) == UnitsIn(g, items + [item], c, higher) {
      SameUnitsIn(g, items, c, height, higher);
      SameUnits(g, item.component, c, own, higher);
      UnitsInByOne(g, items, item, c, higher);
      Commutes(Get(units, c), item.quantity);
    }
    AllPositive(totals, units, sum, item.quantity);
  }

  lemma Commutes(a: int, b: int)
    ensures a * b == b * a
  {
  }

  lemma AllPositive(totals: map<Id, int>, units: map<Id, int>, sum: map<Id, int>, factor: int)
    requires sum.Keys == totals.Keys + units.Keys && factor > 0
    requires forall c :: Get(sum, c) == Get(totals, c) + Get(units, c) * factor
    requires (forall c :: c in totals ==> totals[c] >= 1) && forall c :: c in units ==> units[c] >= 1
    ensures forall c :: c in sum ==> sum[c] >= 1
  {
    forall c | c in sum ensures sum[c] >= 1 {
      assert sum[c] == Get(sum, c);
      if c in units { Grows(units[c], factor); }
    }
  }

  lemma Grows(a: int, b: int)
    requires a >= 1 && b >= 1
    ensures a * b >= 1
  {
  }

  lemma AllBoundedByOne(g: Catalogue, items: seq<Item>, item: Item, height: nat)
    requires AllBounded(g, items, height) && (item.quantity > 0 ==> Bounded(g, item.component, height))
    ensures AllBounded(g, items + [item], height)
  {
  }

  lemma UnitsInByOne(g: Catalogue, items: seq<Item>, item: Item, c: Id, height: nat)
    requires AllBounded(g, items, height) && AllBounded(g, items + [item], height)
    requires item.quantity > 0 ==> Bounded(g, item.component, height)
    ensures UnitsIn(g, items + [item], c, height)
         == UnitsIn(g, items, c, height)
            + if item.quantity > 0 then item.quantity * Units(g, item.component, c, height) else 0
  {
    var all := items + [item];
    assert all[..|all| - 1] == items && all[|all| - 1] == item;
  }

  lemma SkippedItem(g: Catalogue, items: seq<Item>, item: Item, totals: map<Id, int>, height: nat)
    requires SoFar(g, items, totals, height) && item.quantity <= 0
    ensures SoFar(g, items + [item], totals, height)
  {
    AllBoundedByOne(g, items, item, height);
    forall c ensures Get(totals, c) == UnitsIn(g, items + [item], c, height) {
      UnitsInByOne(g, items, item, c, height);
    }
  }

  lemma AllVisited(g: Catalogue, product: Id, totals: map<Id, int>, height: nat)
    requires product != 0 && Items(g, product) != [] && SoFar(g, Items(g, product), totals, height)
    ensures Expands(g, product, totals)
  {
    assert ExpandsAt(g, product, totals, height + 1);
  }

  lemma NoItems(g: Catalogue, product: Id)
    requires product != 0 && Items(g, product) == []
    ensures Expands(g, product, map[product := 1])
  {
    assert ExpandsAt(g, product, map[product := 1], 1);
  }

  lemma NoProduct(g: Catalogue)
    ensures Expands(g, 0, map[])
  {
    assert ExpandsAt(g, 0, map[], 1);
  }

  /** The state that the recursive calls share. */
  class Expander {
    const g: Catalogue
    var memo: map<Id, map<Id, int>>
    var stack: seq<Id>

    constructor (g: Catalogue)
      ensures this.g == g && Valid() && stack == []
    {
      this.g, memo, stack := g, map[], [];
    }

    ghost predicate Valid()
      reads this
    {
      MemoCorrect(g, memo) && OnPath(g, stack)
    }

    /** `get_unit_component_quantities` */
    method UnitQuantities(product: Id) returns (result: Expansion)
      requires Valid() && (stack == [] || Leads(g, stack[|stack| - 1], product))
      modifies this
      ensures result.Totals? ==> Valid() && stack == old(stack) && Expands(g, product, result.units)
      ensures result.Cycle? ==> exists path :: CycleFrom(g, path, result.ids) && old(stack) + [product] <= path
      decreases |Left(g, stack)|, 0
    {
      if product == 0 {
        NoProduct(g);
        return Totals(map[]);
      }
      if product in memo {
        return Totals(memo[product]);
      }
      if product in stack {
        var start := IndexOf(stack, product);
        WalkGrows(g, stack, product);
        var ids := stack[start..] + [product];
        assert CycleFrom(g, stack + [product], ids);
        return Cycle(ids);
      }
      PathGrows(g, stack, product);
      stack := stack + [product];
      var items := Items(g, product);
      var units;
      if items == [] {
        units := map[product := 1];
        NoItems(g, product);
      } else {
        LeftShrinks(g, old(stack), product);
        result := SumItems(product, items);
        if result.Cycle? { return; }
        units := result.units;
      }
      assert old(stack) + [product] == stack;
      assert OnPath(g, old(stack));
      stack := stack[..|stack| - 1];
      assert stack == old(stack);
      memo := memo[product := units];
      result := Totals(units);
    }

    /** The loop over the items of a kit. */
    method SumItems(product: Id, items: seq<Item>) returns (result: Expansion)
      requires Valid() && product != 0 && items == Items(g, product) && items != [] && stack != []
      requires stack[|stack| - 1] == product
      modifies this
      ensures result.Totals? ==> Valid() && stack == old(stack) && Expands(g, product, result.units)
      ensures result.Cycle? ==> exists path :: CycleFrom(g, path, result.ids) && old(stack) <= path
      decreases |Left(g, stack)|, 1
    {
      var totals := map[];
      ghost var height := 0;
      SoFarAtFirst(g);
      for i := 0 to |items|
        invariant Valid() && stack == old(stack)
        invariant SoFar(g, items[..i], totals, height)
      {
        var item := items[i];
        assert items[..i + 1] == items[..i] + [item];
        if item.quantity <= 0 {
          SkippedItem(g, items[..i], item, totals, height);
        } else {
          assert Leads(g, product, item.component);
          result := UnitQuantities(item.component);
          if result.Cycle? {
            return;
          }
          var sum := AddScaled(totals, result.units, item.quantity);
          height := SoFarByOne(g, items[..i], item, totals, result.units, sum, height);
          totals := sum;
        }
      }
      assert items[..|items|] == items;
      AllVisited(g, product, totals, height);
      result := Totals(totals);
    }
  }

  /** The first position of the product on the stack. */
  method IndexOf(stack: seq<Id>, product: Id) returns (start: nat)
    requires product in stack
    ensures start < |stack| && stack[start] == product && product !in stack[..start]
  {
    start := 0;
    while stack[start] != product
      invariant start < |stack| && product !in stack[..start]
      decreases |stack| - start
    {
      start := start + 1;
    }
  }

  /** `get_unit_component_quantities`, called from outside: nothing on the stack. */
  method UnitComponentQuantities(g: Catalogue, product: Option<Id>) returns (result: Expansion)
    ensures result.Cycle? <==> product.Some? && CycleReachable(g, product.value)
    ensures result.Cycle? ==> exists path :: CycleFrom(g, path, result.ids) && path[0] == product.value
    ensures result.Totals? ==> if product.None? then result.units == map[] else Expands(g, product.value, result.units)
  {
    if product.None? {
      return Totals(map[]);
    }
    var expander := new Expander(g);
    result := expander.UnitQuantities(product.value);
    if result.Totals? {
      ghost var height :| ExpandsAt(g, product.value, result.units, height);
      BoundedReachesNoCycle(g, product.value, height);
    }
  }

  /** `get_component_quantities` */
  method ComponentQuantities(g: Catalogue, product: Option<Id>, quantity: int) returns (result: Expansion)
    ensures result.Cycle? <==> quantity > 0 && product.Some? && CycleReachable(g, product.value)
    ensures result.Totals? && (quantity <= 0 || product.None?) ==> result.units == map[]
    ensures result.Totals? && quantity > 0 && product.Some? ==>
      exists units :: Expands(g, product.value, units) && Scaled(result.units, units, quantity)
  {
    if quantity <= 0 {
      return Totals(map[]);
    }
    result := UnitComponentQuantities(g, product);
    if result.Totals? {
      var units := result.units;
      if quantity != 1 {
        result := Totals(map c | c in units :: units[c] * quantity);
      }
      assert Scaled(result.units, units, quantity);
    }
  }

  /** The same components, each `n` times. */
  ghost predicate Scaled(quantities: map<Id, int>, units: map<Id, int>, n: int) {
    quantities.Keys == units.Keys && forall c :: c in units ==> quantities[c] == units[c] * n
  }
}
