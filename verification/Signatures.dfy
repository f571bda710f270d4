/** The text keys of ready cartons (wms/order_helpers.py): equal texts mean equal contents. */
module Signatures {
  import opened Ids
  import opened Cartons
  import opened Decimal

  datatype Line = Line(product: Id, quantity: int)

  /** Decimal notation of any integer. */
  function WrittenInt(n: int): (s: string)
    ensures forall i :: 0 <= i < |s| ==> IsDigit(s[i]) || s[i] == '-'
  {
    if n < 0 then "-" + Written(-n) else Written(n)
  }

  function Cell(line: Line): (s: string)
    ensures s != [] && '|' !in s
  {
    Written(line.product) + ":" + WrittenInt(line.quantity)
  }

  /** `_composition_signature`: "product:quantity" of every line, joined by bars. */
  function Composition(lines: seq<Line>): string {
    if lines == [] then ""
    else if |lines| == 1 then Cell(lines[0])
    else Cell(lines[0]) + "|" + Composition(lines[1..])
  }

  function Zeros(n: nat): (s: string)
    ensures |s| == n && forall i :: 0 <= i < n ==> s[i] == '0'
  {
    if n == 0 then "" else Zeros(n - 1) + "0"
  }

  function Padded(n: nat, width: nat): (s: string)
    ensures forall i :: 0 <= i < |s| ==> IsDigit(s[i])
  {
    var digits := Written(n);
    (if |digits| < width then Zeros(width - |digits|) else "") + digits
  }

  /** A date as year-month-day. */
  function Iso(date: Date): (s: string)
    ensures s != [] && '|' !in s
  {
    Padded(date.year, 4) + "-" + Padded(date.month, 2) + "-" + Padded(date.day, 2)
  }

  /** `_ready_carton_signature` */
  function Signature(lines: seq<Line>, expiresOn: Option<Date>): string {
    Composition(lines) + "|" + if expiresOn.Some? then Iso(expiresOn.value) else ""
  }

  // ---------------------------------------------------------------- injectivity

  /** A text is split at its first separator in one way. */
  lemma SplitFirst(sep: char, a: string, x: string, b: string, y: string)
    requires sep !in a && sep !in b && a + [sep] + x == b + [sep] + y
    ensures a == b && x == y
  {
    var whole := a + [sep] + x;
    assert whole[|a|] == sep && whole[|b|] == sep;
    assert forall i :: 0 <= i < |a| ==> whole[i] == a[i] && a[i] in a;
    assert forall i :: 0 <= i < |b| ==> whole[i] == b[i] && b[i] in b;
    assert a == whole[..|a|] && x == whole[|a| + 1..];
    assert b == (b + [sep] + y)[..|b|] && y == (b + [sep] + y)[|b| + 1..];
  }

  lemma LastAt(sep: char, a: string, x: string)
    requires sep !in x
    ensures var whole := a + [sep] + x;
      |whole| == |a| + 1 + |x| && whole[|a|] == sep && forall i :: |a| < i < |whole| ==> whole[i] != sep
  {
    var whole := a + [sep] + x;
    assert forall i :: |a| < i < |whole| ==> whole[i] == x[i - |a| - 1] && x[i - |a| - 1] in x;
  }

  /** A text is split at its last separator in one way. */
  lemma SplitLast(sep: char, a: string, x: string, b: string, y: string)
    requires sep !in x && sep !in y && a + [sep] + x == b + [sep] + y
    ensures a == b && x == y
  {
    LastAt(sep, a, x);
    LastAt(sep, b, y);
    var whole := a + [sep] + x;
    assert |a| == |b|;
    assert a == whole[..|a|] && x == whole[|a| + 1..];
    assert b == (b + [sep] + y)[..|b|] && y == (b + [sep] + y)[|b| + 1..];
  }

  lemma WrittenIntInjective(n: int, m: int)
    requires WrittenInt(n) == WrittenInt(m)
    ensures n == m
  {
    assert WrittenInt(n)[0] == '-' <==> n < 0;
    assert WrittenInt(m)[0] == '-' <==> m < 0;
    if n < 0 {
      assert WrittenInt(n)[1..] == Written(-n) && WrittenInt(m)[1..] == Written(-m);
      WrittenInjective(-n, -m);
    } else {
      WrittenInjective(n, m);
    }
  }

  lemma CellInjective(line: Line, other: Line)
    requires Cell(line) == Cell(other)
    ensures line == other
  {
    SplitFirst(
      ':', Written(line.product), WrittenInt(line.quantity), Written(other.product), WrittenInt(other.quantity));
    WrittenInjective(line.product, other.product);
    WrittenIntInjective(line.quantity, other.quantity);
  }

  /** Different lines have different compositions. */
  lemma {:induction false} CompositionInjective(lines: seq<Line>, others: seq<Line>)
    requires Composition(lines) == Composition(others)
    ensures lines == others
    decreases |lines|
  {
    Bars(lines);
    Bars(others);
    if lines != [] {
      if |lines| > 1 {
        SplitFirst('|', Cell(lines[0]), Composition(lines[1..]), Cell(others[0]), Composition(others[1..]));
        CompositionInjective(lines[1..], others[1..]);
      }
      CellInjective(lines[0], others[0]);
      assert lines == [lines[0]] + lines[1..] && others == [others[0]] + others[1..];
    }
  }

  lemma Bars(lines: seq<Line>)
    ensures lines == [] <==> Composition(lines) == ""
    ensures |lines| > 1 <==> '|' in Composition(lines)
  {
    if |lines| > 1 {
      assert Composition(lines)[|Cell(lines[0])|] == '|';
    }
  }

  /** What some digits stand for. */
  function Value(s: string): nat
    requires forall i :: 0 <= i < |s| ==> IsDigit(s[i])
  {
    if s == [] then 0
    else
      assert IsDigit(s[|s| - 1]);
      Value(s[..|s| - 1]) * 10 + (s[|s| - 1] as int - '0' as int)
  }

  lemma {:induction false} WrittenValue(n: nat)
    ensures Value(Written(n)) == n
    decreases n
  {
    if n >= 10 {
      WrittenValue(n / 10);
      assert Written(n)[..|Written(n)| - 1] == Written(n / 10);
    }
  }

  lemma {:induction false} LeadingZeros(k: nat, s: string)
    requires forall i :: 0 <= i < |s| ==> IsDigit(s[i])
    ensures Value(Zeros(k) + s) == Value(s)
    decreases |s| + k
  {
    var all := Zeros(k) + s;
    if s != [] {
      assert all[..|all| - 1] == Zeros(k) + s[..|s| - 1];
      LeadingZeros(k, s[..|s| - 1]);
    } else if k > 0 {
      assert all[..|all| - 1] == Zeros(k - 1) + [];
      LeadingZeros(k - 1, []);
    }
  }

  lemma PaddedInjective(n: nat, m: nat, width: nat)
    requires Padded(n, width) == Padded(m, width)
    ensures n == m
  {
    PaddedValue(n, width);
    PaddedValue(m, width);
  }

  lemma PaddedValue(n: nat, width: nat)
    ensures Value(Padded(n, width)) == n
  {
    var digits := Written(n);
    WrittenValue(n);
    var k := if |digits| < width then width - |digits| else 0;
    LeadingZeros(k, digits);
    assert Padded(n, width) == Zeros(k) + digits;
  }

  lemma IsoInjective(date: Date, other: Date)
    requires Iso(date) == Iso(other)
    ensures date == other
  {
    var rest := Padded(date.month, 2) + "-" + Padded(date.day, 2);
    var rest' := Padded(other.month, 2) + "-" + Padded(other.day, 2);
    assert Iso(date) == Padded(date.year, 4) + ['-'] + rest && Iso(other) == Padded(other.year, 4) + ['-'] + rest';
    SplitFirst('-', Padded(date.year, 4), rest, Padded(other.year, 4), rest');
    SplitFirst('-', Padded(date.month, 2), Padded(date.day, 2), Padded(other.month, 2), Padded(other.day, 2));
    PaddedInjective(date.year, other.year, 4);
    PaddedInjective(date.month, other.month, 2);
    PaddedInjective(date.day, other.day, 2);
  }

  /** Equal signatures mean equal lines and equal dates. */
  lemma SignatureInjective(lines: seq<Line>, expiresOn: Option<Date>, others: seq<Line>, otherDate: Option<Date>)
    requires Signature(lines, expiresOn) == Signature(others, otherDate)
    ensures lines == others && expiresOn == otherDate
  {
    var x := if expiresOn.Some? then Iso(expiresOn.value) else "";
    var y := if otherDate.Some? then Iso(otherDate.value) else "";
    SplitLast('|', Composition(lines), x, Composition(others), y);
    CompositionInjective(lines, others);
    if expiresOn.Some? && otherDate.Some? { IsoInjective(expiresOn.value, otherDate.value); }
  }

  // ---------------------------------------------------------------- what the texts are

  /** Lines one after the other are their texts with a bar between them; one line is product and quantity with a
      colon. */
  lemma {:induction false} CompositionOfParts(lines: seq<Line>, more: seq<Line>)
    requires lines != [] && more != []
    ensures Composition(lines + more) == Composition(lines) + "|" + Composition(more)
    decreases |lines|
  {
    var first, rest := lines[0], lines[1..];
    BehindTheFirst(lines, more);
    if rest != [] {
      CompositionOfParts(rest, more);
      BarsAssociate(Cell(first), Composition(rest), Composition(more));
    }
  }

  lemma BehindTheFirst(lines: seq<Line>, more: seq<Line>)
    requires lines != [] && more != []
    ensures (lines + more)[0] == lines[0] && (lines + more)[1..] == lines[1..] + more && |lines + more| > 1
    ensures |lines| == 1 ==> lines[1..] + more == more
  {
  }

  lemma BarsAssociate(a: string, b: string, c: string)
    ensures (a + "|" + b) + "|" + c == a + "|" + (b + "|" + c)
  {
  }

  lemma CompositionOfOne(line: Line)
    ensures Composition([line]) == Written(line.product) + ":" + WrittenInt(line.quantity)
    ensures Value(Written(line.product)) == line.product
    ensures line.quantity >= 0 ==>
      WrittenInt(line.quantity) == Written(line.quantity) && Value(Written(line.quantity)) == line.quantity
    ensures line.quantity < 0 ==>
      WrittenInt(line.quantity) == "-" + Written(-line.quantity) && Value(Written(-line.quantity)) == -line.quantity
  {
    WrittenValue(line.product);
    WrittenValue(if line.quantity < 0 then -line.quantity else line.quantity);
  }

  /** A date of four, two and two digits. */
  lemma IsoTells(date: Date) returns (year: string, month: string, day: string)
    requires date.year < 10000 && date.month < 100 && date.day < 100
    ensures Iso(date) == year + "-" + month + "-" + day && |year| == 4 && |month| == 2 && |day| == 2
    ensures forall i :: 0 <= i < 4 ==> IsDigit(year[i])
    ensures IsDigit(month[0]) && IsDigit(month[1]) && IsDigit(day[0]) && IsDigit(day[1])
    ensures Value(year) == date.year && Value(month) == date.month && Value(day) == date.day
  {
    year, month, day := Padded(date.year, 4), Padded(date.month, 2), Padded(date.day, 2);
    assert Power10(1) == 10 * Power10(0) && Power10(2) == 10 * Power10(1);
    assert Power10(3) == 10 * Power10(2) && Power10(4) == 10 * Power10(3);
    PaddedTells(date.year, 4);
    PaddedTells(date.month, 2);
    PaddedTells(date.day, 2);
  }

  lemma PaddedTells(n: nat, width: nat)
    requires 1 <= width && n < Power10(width)
    ensures |Padded(n, width)| == width && Value(Padded(n, width)) == n
  {
    PaddedValue(n, width);
    if n == 0 {
      assert |Written(0)| == 1;
    } else if |Written(n)| > width {
      var k := |Written(n)|;
      Digits(n, k);
      PowerGrows(width, k - 1);
    }
  }
}
