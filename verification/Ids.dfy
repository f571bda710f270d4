/** Primary keys, the order_by("id") of a query and the key a new row receives. */
module Ids {

  type Id = nat

  datatype Option<+T> = None | Some(value: T)

  // ---------------------------------------------------------------- sorting

  /** A strict order that compares any two members. */
  ghost predicate Orders(less: (Id, Id) -> bool, s: set<Id>) {
    && (forall x, y :: x in s && y in s && x != y ==> less(x, y) != less(y, x))
    && (forall x, y, z :: x in s && y in s && z in s && less(x, y) && less(y, z) && x != z ==> less(x, z))
  }

  predicate IsLeast(less: (Id, Id) -> bool, s: set<Id>, m: Id) {
    m in s && forall x :: x in s && x != m ==> less(m, x)
  }

  lemma LeastOfMore(less: (Id, Id) -> bool, s: set<Id>, k: Id, m: Id)
    requires Orders(less, s + {k}) && k !in s && IsLeast(less, s, m)
    ensures IsLeast(less, s + {k}, if less(k, m) then k else m)
  {
    assert k in s + {k} && m in s + {k};
    forall x | x in s && less(k, m) ensures less(k, x) {
      assert x in s + {k};
      if x != m { assert less(m, x); }
    }
  }

  lemma LeastExists(less: (Id, Id) -> bool, s: set<Id>)
    requires s != {} && Orders(less, s)
    ensures exists m :: IsLeast(less, s, m)
  {
    var k :| k in s;
    var rest := s - {k};
    assert s == rest + {k};
    if rest == {} {
      assert IsLeast(less, s, k);
    } else {
      LeastExists(less, rest);
      var m :| IsLeast(less, rest, m);
      LeastOfMore(less, rest, k, m);
    }
  }

  function Least(less: (Id, Id) -> bool, s: set<Id>): (m: Id)
    requires s != {} && Orders(less, s)
    ensures IsLeast(less, s, m)
  {
    LeastExists(less, s);
    var m :| IsLeast(less, s, m);
    m
  }

  ghost predicate Sorted(less: (Id, Id) -> bool, ids: seq<Id>) {
    forall i, j :: 0 <= i < j < |ids| ==> less(ids[i], ids[j])
  }

  /** The members of a set, each once, in order. */
  function SortBy(less: (Id, Id) -> bool, s: set<Id>): (ids: seq<Id>)
    requires Orders(less, s)
    ensures Sorted(less, ids)
    ensures forall x :: x in ids <==> x in s
    ensures forall i, j :: 0 <= i < j < |ids| ==> ids[i] != ids[j]
  {
    if s == {} then []
    else
      var m := Least(less, s);
      var rest := SortBy(less, s - {m});
      assert forall i :: 0 <= i < |rest| ==> rest[i] in rest;
      assert forall x :: x in [m] + rest <==> x == m || x in rest;
      [m] + rest
  }

  /** There is one sorted listing of a set. */
  lemma {:induction false} SortedUnique(less: (Id, Id) -> bool, ids: seq<Id>, others: seq<Id>, s: set<Id>)
    requires Orders(less, s) && Sorted(less, ids) && Sorted(less, others)
    requires forall i, j :: 0 <= i < j < |ids| ==> ids[i] != ids[j]
    requires forall i, j :: 0 <= i < j < |others| ==> others[i] != others[j]
    requires (forall x :: x in ids <==> x in s) && (forall x :: x in others <==> x in s)
    ensures ids == others
    decreases |ids|
  {
    if ids != [] || others != [] {
      var x := if ids != [] then ids[0] else others[0];
      assert x in ids && x in others;
      var a, b := ids[0], others[0];
      assert a in ids && b in others;
      var i :| 0 <= i < |ids| && ids[i] == b;
      var j :| 0 <= j < |others| && others[j] == a;
      assert i > 0 ==> less(a, b);
      assert j > 0 ==> less(b, a);
      assert a == b;
      RestOfListing(ids, s);
      RestOfListing(others, s);
      SortedUnique(less, ids[1..], others[1..], s - {a});
      assert ids == [a] + ids[1..] && others == [a] + others[1..];
    }
  }

  lemma RestOfListing(ids: seq<Id>, s: set<Id>)
    requires ids != [] && (forall x :: x in ids <==> x in s)
    requires forall i, j :: 0 <= i < j < |ids| ==> ids[i] != ids[j]
    ensures forall x :: x in ids[1..] <==> x in s - {ids[0]}
  {
    forall x ensures x in ids[1..] <==> x in s - {ids[0]} {
      if x in s - {ids[0]} {
        var j :| 0 <= j < |ids| && ids[j] == x;
        assert ids[1..][j - 1] == x;
      }
      if x in ids[1..] {
        var j :| 0 <= j < |ids[1..]| && ids[1..][j] == x;
        assert ids[j + 1] == x && ids[0] != ids[j + 1];
      }
    }
  }

  predicate Smaller(x: Id, y: Id) {
    x < y
  }

  predicate Ascending(ids: seq<Id>) {
    forall i, j :: 0 <= i < j < |ids| ==> ids[i] < ids[j]
  }

  /** The rows of a query ordered by "id": every key once, smallest first. */
  function OrderById(s: set<Id>): (ids: seq<Id>)
    ensures Ascending(ids)
    ensures forall x :: x in ids <==> x in s
  {
    SortBy(Smaller, s)
  }

  /** The fetch of a query's keys: all of them, smallest first. */
  method FetchIds(s: set<Id>) returns (ids: seq<Id>)
    ensures Ascending(ids) && forall x :: x in ids <==> x in s
  {
    ids := OrderById(s);
  }

  /** The key the database hands to a new row: larger than every key in use. */
  function FreshId(s: set<Id>): (id: Id)
    ensures id !in s
    ensures forall x :: x in s ==> x < id
  {
    if s == {} then 0
    else
      var m := Least(Smaller, s);
      var above := FreshId(s - {m});
      assert forall x :: x in s ==> x == m || x in s - {m};
      if m < above then above else m + 1
  }

  // ---------------------------------------------------------------- folded definitions

  /** The definitions that proofs handle as a whole: those of the registry, its view, addresses, traces of a pass,
      listings. */
  datatype Topic = TheRegistry | TheView | TheAddresses | TheTrace | TheListing

  /** Always true. A definition quantified over `Unfold` stays folded until a proof mentions `Unfold` for its topic. */
  ghost predicate Unfold(u: nat, topic: Topic := TheRegistry) {
    true
  }
}
