/** The product lines of a carton or a kit: quantities listed by lower-cased name, then by key
    (wms/order_helpers.py). */
module ProductLines {
  import opened Ids
  import opened Quantities
  import opened Cartons
  import opened Signatures
  import Text

  /** Code point order of texts. */
  predicate TextLess(a: string, b: string) {
    b != [] && (a == [] || a[0] < b[0] || (a[0] == b[0] && TextLess(a[1..], b[1..])))
  }

  lemma {:induction false} TextTotal(a: string, b: string)
    requires a != b
    ensures TextLess(a, b) != TextLess(b, a)
    decreases |a|
  {
    if a != [] && b != [] && a[0] == b[0] {
      assert a == [a[0]] + a[1..] && b == [b[0]] + b[1..];
      TextTotal(a[1..], b[1..]);
    }
  }

  lemma {:induction false} TextIrreflexive(a: string)
    ensures !TextLess(a, a)
  {
    if a != [] { TextIrreflexive(a[1..]); }
  }

  lemma {:induction false} TextTransitive(a: string, b: string, c: string)
    requires TextLess(a, b) && TextLess(b, c)
    ensures TextLess(a, c)
    decreases |a|
  {
    if a != [] && a[0] == b[0] && b[0] == c[0] { TextTransitive(a[1..], b[1..], c[1..]); }
  }

  /** The texts agree on their first `n` characters, and there the first one ends or has the smaller character. */
  ghost predicate DiffersAt(a: string, b: string, n: nat) {
    n <= |a| && n < |b| && a[..n] == b[..n] && (n == |a| || a[n] < b[n])
  }

  /** Texts are ordered by the first character in which they differ; a front stands before the whole. */
  lemma {:induction false} TextLessIff(a: string, b: string)
    ensures TextLess(a, b) <==> exists n: nat :: DiffersAt(a, b, n)
    decreases |a|
  {
    if a != [] && b != [] && a[0] == b[0] {
      TextLessIff(a[1..], b[1..]);
      if n: nat :| DiffersAt(a[1..], b[1..], n) {
        assert a[..n + 1] == [a[0]] + a[1..][..n] && b[..n + 1] == [b[0]] + b[1..][..n];
        assert DiffersAt(a, b, n + 1);
      }
      if n: nat :| DiffersAt(a, b, n) {
        assert n > 0;
        assert a[1..][..n - 1] == a[..n][1..] && b[1..][..n - 1] == b[..n][1..];
        assert DiffersAt(a[1..], b[1..], n - 1);
      }
    } else if TextLess(a, b) {
      assert DiffersAt(a, b, 0);
    } else if n: nat :| DiffersAt(a, b, n) && n > 0 {
      SharedHead(a, b, n);
    }
  }

  lemma SharedHead(a: string, b: string, n: nat)
    requires DiffersAt(a, b, n) && n > 0
    ensures a != [] && b != [] && a[0] == b[0]
  {
    assert a[..n][0] == b[..n][0];
  }

  /** The order of the lines: by sort key, then by product. */
  function ByKey(key: Id -> string): (Id, Id) -> bool {
    (x: Id, y: Id) => TextLess(key(x), key(y)) || (key(x) == key(y) && x < y)
  }

  lemma ByKeyOrders(key: Id -> string, s: set<Id>)
    ensures Orders(ByKey(key), s)
  {
    var less := ByKey(key);
    forall x, y | x in s && y in s && x != y ensures less(x, y) != less(y, x) {
      TextIrreflexive(key(x));
      if key(x) != key(y) { TextTotal(key(x), key(y)); }
    }
    forall x, y, z | x in s && y in s && z in s && less(x, y) && less(y, z) && x != z ensures less(x, z) {
      if TextLess(key(x), key(y)) && TextLess(key(y), key(z)) { TextTransitive(key(x), key(y), key(z)); }
    }
  }

  function SortedProducts(quantities: map<Id, int>, key: Id -> string): (ids: seq<Id>)
    ensures Sorted(ByKey(key), ids) && forall p :: p in ids <==> p in quantities
  {
    ByKeyOrders(key, quantities.Keys);
    SortBy(ByKey(key), quantities.Keys)
  }

  /** One line for each product of a listing. */
  function LinesOver(ids: seq<Id>, quantities: map<Id, int>): (lines: seq<Line>)
    requires forall p :: p in ids <==> p in quantities
    ensures |lines| == |ids| && forall i :: 0 <= i < |ids| ==> lines[i].product == ids[i]
    ensures Lists(lines, quantities)
  {
    assert forall i :: 0 <= i < |ids| ==> ids[i] in ids;
    var lines := seq(|ids|, i requires 0 <= i < |ids| => Line(ids[i], quantities[ids[i]]));
    assert forall p :: p in quantities ==>
      p in ids && exists i :: 0 <= i < |ids| && ids[i] == p && lines[i] == Line(p, quantities[p]);
    lines
  }

  /** The quantities, one line a product, sorted by key. */
  function Lines(quantities: map<Id, int>, key: Id -> string): (lines: seq<Line>)
    ensures Lists(lines, quantities)
    ensures forall i, j :: 0 <= i < j < |lines| ==> ByKey(key)(lines[i].product, lines[j].product)
  {
    LinesOver(SortedProducts(quantities, key), quantities)
  }

  /** Equal lines come from equal quantities, however they were sorted. */
  lemma LinesDetermine(quantities: map<Id, int>, key: Id -> string, others: map<Id, int>, otherKey: Id -> string)
    requires Lines(quantities, key) == Lines(others, otherKey)
    ensures quantities == others
  {
    SameEntries(quantities, others, Lines(quantities, key));
  }

  ghost predicate Lists(lines: seq<Line>, quantities: map<Id, int>) {
    forall line :: line in lines <==> line.product in quantities && line.quantity == quantities[line.product]
  }

  lemma SameEntries(quantities: map<Id, int>, others: map<Id, int>, lines: seq<Line>)
    requires Lists(lines, quantities) && Lists(lines, others)
    ensures quantities == others
  {
    forall p | p in quantities ensures p in others && others[p] == quantities[p] {
      assert Line(p, quantities[p]) in lines;
    }
    forall p | p in others ensures p in quantities {
      assert Line(p, others[p]) in lines;
    }
  }

  // ---------------------------------------------------------------- what a carton holds

  function QuantitiesOf(contents: seq<Content>): (quantities: map<Id, int>)
    ensures SumsUp(quantities, Portions(contents))
  {
    map p | p in Products(Portions(contents)) :: Total(Portions(contents), p)
  }

  /** The sort key in a carton: a product without a name counts as "-". */
  function CartonKey(names: Id -> string): Id -> string {
    (p: Id) => Text.Lower(if names(p) == "" then "-" else names(p))
  }

  /** The sort key in a kit: a product without a name counts as "". */
  function KitKey(names: Id -> string): Id -> string {
    (p: Id) => Text.Lower(names(p))
  }

  /** Products without a name stand first in a kit. In a carton they are sorted as "-": they stand first there too
      exactly if every product with a name follows that. */
  predicate BlanksFirst(quantities: map<Id, int>, names: Id -> string) {
    forall x, y | x in quantities && y in quantities && names(x) == "" && names(y) != "" ::
      TextLess("-", Text.Lower(names(y))) || (Text.Lower(names(y)) == "-" && x < y)
  }

  lemma LowerBlank(name: string)
    ensures Text.Lower(name) == "" <==> name == ""
    ensures Text.Lower("-") == "-"
  {
    assert |Text.Lower(name)| == |name|;
  }

  /** Two products stand in the same order in a carton and in a kit unless a nameless one is behind in the carton. */
  lemma KeysAgreeOn(names: Id -> string, x: Id, y: Id)
    requires x != y
    ensures names(x) == "" && names(y) != "" ==> ByKey(KitKey(names))(x, y)
    ensures names(x) == "" && names(y) != "" ==>
      (ByKey(CartonKey(names))(x, y) <==> TextLess("-", Text.Lower(names(y))) || (Text.Lower(names(y)) == "-" && x < y))
    ensures (names(x) == "") == (names(y) == "") ==> ByKey(CartonKey(names))(x, y) == ByKey(KitKey(names))(x, y)
  {
    LowerBlank(names(x));
    LowerBlank(names(y));
    var key := Text.Lower(names(y));
    assert key != "" ==> TextLess("", key);
    assert names(x) == "" ==> KitKey(names)(x) == "";
    TextIrreflexive("");
    TextIrreflexive("-");
  }

  /** A carton and a kit with equal quantities are listed alike exactly when products without a name stand first. */
  lemma ListedAlikeIff(quantities: map<Id, int>, names: Id -> string)
    ensures Lines(quantities, CartonKey(names)) == Lines(quantities, KitKey(names)) <==> BlanksFirst(quantities, names)
  {
    ByKeyOrders(CartonKey(names), quantities.Keys);
    ByKeyOrders(KitKey(names), quantities.Keys);
    var inCarton, inKit := SortedProducts(quantities, CartonKey(names)), SortedProducts(quantities, KitKey(names));
    if BlanksFirst(quantities, names) {
      SameOrder(inKit, quantities, names);
      SortedUnique(ByKey(CartonKey(names)), inCarton, inKit, quantities.Keys);
    }
    if inCarton == inKit {
      forall x, y | x in quantities && y in quantities && names(x) == "" && names(y) != ""
        ensures TextLess("-", Text.Lower(names(y))) || (Text.Lower(names(y)) == "-" && x < y)
      {
        KeysAgreeOn(names, x, y);
        SortedAgree(ByKey(CartonKey(names)), ByKey(KitKey(names)), inKit, quantities.Keys, x, y);
      }
    }
    LinesShowOrder(inCarton, inKit, quantities);
  }

  /** The kit's listing is sorted as a carton's. */
  lemma SameOrder(ids: seq<Id>, quantities: map<Id, int>, names: Id -> string)
    requires BlanksFirst(quantities, names) && Sorted(ByKey(KitKey(names)), ids)
    requires (forall p :: p in ids <==> p in quantities) && forall i, j :: 0 <= i < j < |ids| ==> ids[i] != ids[j]
    ensures Sorted(ByKey(CartonKey(names)), ids)
  {
    ByKeyOrders(KitKey(names), quantities.Keys);
    forall i, j | 0 <= i < j < |ids| ensures ByKey(CartonKey(names))(ids[i], ids[j]) {
      var x, y := ids[i], ids[j];
      assert x in ids && y in ids && ByKey(KitKey(names))(x, y);
      KeysAgreeOn(names, x, y);
      KeysAgreeOn(names, y, x);
    }
  }

  /** Two orders that sort one listing agree on its members. */
  lemma SortedAgree(less: (Id, Id) -> bool, other: (Id, Id) -> bool, ids: seq<Id>, s: set<Id>, x: Id, y: Id)
    requires Orders(less, s) && Orders(other, s) && Sorted(less, ids) && Sorted(other, ids)
    requires (forall p :: p in ids <==> p in s) && x in s && y in s && x != y
    ensures less(x, y) == other(x, y)
  {
    var i :| 0 <= i < |ids| && ids[i] == x;
    var j :| 0 <= j < |ids| && ids[j] == y;
    assert if i < j then less(ids[i], ids[j]) && other(ids[i], ids[j])
      else less(ids[j], ids[i]) && other(ids[j], ids[i]);
  }

  /** Equal lines are equal listings. */
  lemma LinesShowOrder(ids: seq<Id>, others: seq<Id>, quantities: map<Id, int>)
    requires forall p :: p in ids <==> p in quantities
    requires forall p :: p in others <==> p in quantities
    ensures LinesOver(ids, quantities) == LinesOver(others, quantities) <==> ids == others
  {
    var lines, otherLines := LinesOver(ids, quantities), LinesOver(others, quantities);
    if lines == otherLines {
      forall i | 0 <= i < |ids| ensures ids[i] == others[i] {
        assert lines[i].product == otherLines[i].product;
      }
      assert ids == others;
    }
  }

  predicate DateLess(a: Date, b: Date) {
    a.year < b.year || (a.year == b.year && (a.month < b.month || (a.month == b.month && a.day < b.day)))
  }

  /** Dates are ordered as the numbers that are read off their digits. */
  lemma DateLessIff(a: Date, b: Date)
    requires a.month < 100 && a.day < 100 && b.month < 100 && b.day < 100
    ensures DateLess(a, b) <==>
      a.year * 10000 + a.month * 100 + a.day < b.year * 10000 + b.month * 100 + b.day
  {
  }

  /** The earliest expiry date among the contents, if any has one. */
  function EarliestOf(contents: seq<Content>): (date: Option<Date>)
    ensures date.None? <==> forall i :: 0 <= i < |contents| ==> contents[i].expiresOn.None?
    ensures date.Some? ==> exists i :: 0 <= i < |contents| && contents[i].expiresOn == date
    ensures date.Some? ==>
      forall i :: 0 <= i < |contents| && contents[i].expiresOn.Some? ==>
        !DateLess(contents[i].expiresOn.value, date.value)
  {
    if contents == [] then None
    else
      var last, rest := contents[|contents| - 1].expiresOn, EarliestOf(contents[..|contents| - 1]);
      if last.Some? && (rest.None? || DateLess(last.value, rest.value)) then last else rest
  }
}
