/** Dictionaries of quantities, in which a missing key counts as zero. */
module Quantities {
  import opened Ids

  /** The quantity of a key, zero if it is missing. */
  function Get(quantities: map<Id, int>, key: Id): int {
    if key in quantities then quantities[key] else 0
  }

  datatype Portion = Portion(product: Id, quantity: int)

  function Products(portions: seq<Portion>): set<Id> {
    set i | 0 <= i < |portions| :: portions[i].product
  }

  /** What the portions hold of one product. */
  function Total(portions: seq<Portion>, product: Id): int {
    if portions == [] then 0
    else
      var last := portions[|portions| - 1];
      Total(portions[..|portions| - 1], product) + if last.product == product then last.quantity else 0
  }

  /** A total counts every portion of the product by its quantity, wherever it stands. */
  lemma {:induction false} TotalOfParts(portions: seq<Portion>, more: seq<Portion>, product: Id)
    ensures Total(portions + more, product) == Total(portions, product) + Total(more, product)
    decreases |more|
  {
    if more == [] {
      assert portions + more == portions;
    } else {
      var n := |more| - 1;
      assert (portions + more)[..|portions + more| - 1] == portions + more[..n];
      TotalOfParts(portions, more[..n], product);
    }
  }

  lemma TotalOfOne(portion: Portion, product: Id)
    ensures Total([portion], product) == if portion.product == product then portion.quantity else 0
    ensures product in Products([portion]) <==> portion.product == product
  {
    assert [portion][..0] == [];
    assert [portion][0] == portion;
  }

  /** The products of some portions, each with its total. */
  ghost predicate SumsUp(quantities: map<Id, int>, portions: seq<Portion>) {
    quantities.Keys == Products(portions) && forall p :: p in quantities ==> quantities[p] == Total(portions, p)
  }

  /** The loop that adds up portions by product. */
  method SumPortions(portions: seq<Portion>) returns (quantities: map<Id, int>)
    ensures SumsUp(quantities, portions)
    ensures forall p :: Get(quantities, p) == Total(portions, p)
  {
    quantities := map[];
    for i := 0 to |portions|
      invariant quantities.Keys == Products(portions[..i])
      invariant forall p :: Get(quantities, p) == Total(portions[..i], p)
    {
      var next := portions[..i + 1];
      assert next[..i] == portions[..i] && next[i] == portions[i];
      forall p ensures p in Products(next) <==> p in Products(portions[..i]) || p == portions[i].product {
        if p in Products(portions[..i]) {
          var j :| 0 <= j < i && portions[..i][j].product == p;
          assert next[j].product == p;
        }
      }
      quantities := quantities[portions[i].product := Get(quantities, portions[i].product) + portions[i].quantity];
    }
    assert portions[..|portions|] == portions;
  }

  /** The loop that adds a multiple of other quantities. */
  method AddScaled(quantities: map<Id, int>, more: map<Id, int>, factor: int) returns (sum: map<Id, int>)
    ensures sum.Keys == quantities.Keys + more.Keys
    ensures forall k :: Get(sum, k) == Get(quantities, k) + Get(more, k) * factor
  {
    sum := quantities;
    var left := more.Keys;
    while left != {}
      invariant left <= more.Keys
      invariant sum.Keys == quantities.Keys + (more.Keys - left)
      invariant forall k :: Get(sum, k) == Get(quantities, k) + if k in left then 0 else Get(more, k) * factor
      decreases left
    {
      var k :| k in left;
      sum := sum[k := Get(sum, k) + more[k] * factor];
      left := left - {k};
    }
  }
}
