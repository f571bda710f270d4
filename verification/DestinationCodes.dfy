/** Codes for imported destinations (wms/import_services_destinations.py).

    A candidate is the cleaned name, cut so that a growing number fits behind it. Candidates repeat, so the search
    cannot be bounded by the number of codes in use alone: those with a suffix of one length are all different. */
module DestinationCodes {
  import opened Decimal
  import opened Listings
  import Text

  predicate AlphaNumeric(c: char) {
    'A' <= c <= 'Z' || 'a' <= c <= 'z' || '0' <= c <= '9'
  }

  /** Upper-case letters and digits. */
  predicate IsCode(s: string) {
    s != [] && forall i :: 0 <= i < |s| ==> 'A' <= s[i] <= 'Z' || '0' <= s[i] <= '9'
  }

  /** The letters and digits of the text. */
  function OnlyAlphaNumeric(s: string): (r: string)
    ensures forall i :: 0 <= i < |r| ==> AlphaNumeric(r[i])
  {
    if s == [] then []
    else (if AlphaNumeric(s[0]) then [s[0]] else []) + OnlyAlphaNumeric(s[1..])
  }

  function Take(s: string, n: nat): (r: string)
    ensures r <= s && |r| <= n
  {
    if |s| <= n then s else s[..n]
  }

  /** The name without anything but letters and digits, in upper case, ten characters at most; a default if nothing is
      left. */
  function Cleaned(base: string): (r: string)
    ensures IsCode(r) && |r| <= 10
  {
    var upper := Text.Upper(OnlyAlphaNumeric(base));
    if upper == [] then "DEST" else Take(upper, 10)
  }

  lemma {:induction false} AlphaNumericKept(s: string)
    requires forall i :: 0 <= i < |s| ==> AlphaNumeric(s[i])
    ensures OnlyAlphaNumeric(s) == s
  {
    if s != [] { AlphaNumericKept(s[1..]); }
  }

  /** A code of at most ten characters is its own cleaned form. */
  lemma CleanedKeepsCodes(code: string)
    requires IsCode(code) && |code| <= 10
    ensures Cleaned(code) == code
  {
    AlphaNumericKept(code);
    assert Text.Upper(code) == code;
  }

  lemma {:induction false} OneMoreCharacter(s: string, c: char)
    ensures OnlyAlphaNumeric(s + [c]) == OnlyAlphaNumeric(s) + if AlphaNumeric(c) then [c] else []
  {
    if s == [] {
      assert [c][1..] == [];
    } else {
      assert (s + [c])[1..] == s[1..] + [c];
      OneMoreCharacter(s[1..], c);
    }
  }

  function Itself(c: char): char {
    c
  }

  /** All letters and digits of the text, in order. */
  lemma {:induction false} AlphaNumericPicked(s: string)
    ensures Picked(OnlyAlphaNumeric(s), s, AlphaNumeric, Itself)
    decreases |s|
  {
    PickedNone(AlphaNumeric, Itself);
    if s != [] {
      var n := |s| - 1;
      AlphaNumericPicked(s[..n]);
      OneMoreCharacter(s[..n], s[n]);
      assert s == s[..n] + [s[n]];
      PickedNext(OnlyAlphaNumeric(s[..n]), OnlyAlphaNumeric(s), s, AlphaNumeric, Itself);
    }
  }

  /** The cleaned form of a name with some letter or digit: all of them, or the first ten, in upper case. */
  lemma CleanedTells(base: string, kept: string)
    requires Picked(kept, base, AlphaNumeric, Itself)
    ensures kept == [] ==> Cleaned(base) == "DEST"
    ensures kept != [] ==>
      && |Cleaned(base)| == (if |kept| < 10 then |kept| else 10)
      && (forall i :: 0 <= i < |Cleaned(base)| ==> Cleaned(base)[i] == Text.UpperChar(kept[i]))
  {
    AlphaNumericPicked(base);
    PickedUnique(kept, OnlyAlphaNumeric(base), base, AlphaNumeric, Itself);
  }

  /** The candidate with a given suffix; the first one has none. */
  function Candidate(cleaned: string, suffix: nat): (r: string)
    requires suffix >= 1
  {
    if suffix == 1 then cleaned
    else
      var digits := Written(suffix);
      Take(cleaned, if 10 - |digits| < 1 then 1 else 10 - |digits|) + digits
  }

  /** A candidate is the longest front of the cleaned name that leaves room for the suffix in ten characters, but one
      character at least. */
  lemma CandidateTells(cleaned: string, suffix: nat) returns (front: string)
    requires suffix >= 2 && cleaned != [] && |cleaned| <= 10
    ensures Candidate(cleaned, 1) == cleaned
    ensures Candidate(cleaned, suffix) == front + Written(suffix) && front <= cleaned && front != []
    ensures |front| > 1 ==> |Candidate(cleaned, suffix)| <= 10
    ensures front == cleaned || |front| == 1 || |Candidate(cleaned, suffix)| == 10
    ensures front != cleaned ==> |front| + 1 + |Written(suffix)| > 10
  {
    front := Take(cleaned, if 10 - |Written(suffix)| < 1 then 1 else 10 - |Written(suffix)|);
  }

  /** The code is in use, whatever its case. */
  predicate Taken(code: string, taken: set<string>) {
    exists t :: t in taken && Text.Upper(t) == Text.Upper(code)
  }

  lemma CandidateIsCode(cleaned: string, suffix: nat)
    requires IsCode(cleaned) && suffix >= 1
    ensures IsCode(Candidate(cleaned, suffix)) && Text.Upper(Candidate(cleaned, suffix)) == Candidate(cleaned, suffix)
  {
  }

  /** Two candidates may coincide: the digit that one cuts off comes back as a digit of the suffix. */
  lemma CandidatesRepeat()
    ensures Candidate("ABCDEFGH1X", 5) == Candidate("ABCDEFGH1X", 15)
  {
    assert Written(5) == "5";
    assert Written(15) == Written(1) + "5" == "15";
  }

  /** Suffixes of one length give different candidates. */
  lemma SameLengthDiffers(cleaned: string, i: nat, j: nat)
    requires i >= 2 && j >= 2 && i != j && |Written(i)| == |Written(j)|
    ensures Candidate(cleaned, i) != Candidate(cleaned, j)
  {
    var a, b := Candidate(cleaned, i), Candidate(cleaned, j);
    var n := |Written(i)|;
    assert a[|a| - n..] == Written(i) && b[|b| - n..] == Written(j);
    if a == b { WrittenInjective(i, j); }
  }

  /** As many codes are taken as there are taken candidates with suffixes of one length. */
  lemma {:induction false} Pigeonhole(cleaned: string, taken: set<string>, low: nat, high: nat, k: nat)
    requires IsCode(cleaned) && 2 <= low <= high
    requires forall j :: low <= j < high ==> |Written(j)| == k && Taken(Candidate(cleaned, j), taken)
    ensures |taken| >= high - low
    decreases high
  {
    if low < high {
      var last := high - 1;
      var t :| t in taken && Text.Upper(t) == Text.Upper(Candidate(cleaned, last));
      forall j | low <= j < last ensures |Written(j)| == k && Taken(Candidate(cleaned, j), taken - {t}) {
        var u :| u in taken && Text.Upper(u) == Text.Upper(Candidate(cleaned, j));
        SameLengthDiffers(cleaned, j, last);
        CandidateIsCode(cleaned, j);
        CandidateIsCode(cleaned, last);
        assert u in taken - {t};
      }
      Pigeonhole(cleaned, taken - {t}, low, last, k);
    }
  }

  /** Fewer codes than suffixes of k digits: one of these is free. */
  lemma SomeFree(cleaned: string, taken: set<string>, k: nat)
    requires IsCode(cleaned) && k >= 2 && |taken| < 9 * Power10(k - 1)
    ensures exists j: nat :: 2 <= j < Power10(k) && !Taken(Candidate(cleaned, j), taken)
  {
    AtLeastTen(k - 1);
    var low, high := Power10(k - 1), Power10(k);
    assert high == 10 * low;
    if forall j: nat :: 2 <= j < high ==> Taken(Candidate(cleaned, j), taken) {
      forall j | low <= j < high ensures |Written(j)| == k && Taken(Candidate(cleaned, j), taken) {
        Digits(j, k);
      }
      Pigeonhole(cleaned, taken, low, high, k);
    }
  }

  /** The suffix the search ends with: all before it are taken. */
  ghost predicate FirstFree(cleaned: string, taken: set<string>, suffix: nat) {
    suffix >= 1 && !Taken(Candidate(cleaned, suffix), taken) && TakenUpTo(cleaned, taken, suffix)
  }

  /** All candidates with a smaller suffix are taken. */
  ghost predicate TakenUpTo(cleaned: string, taken: set<string>, suffix: nat) {
    forall j :: 1 <= j < suffix ==> Taken(Candidate(cleaned, j), taken)
  }

  /** While fewer than 9 * 10^(k-1) codes are taken the search ends before 10^k. */
  lemma EndsEarly(cleaned: string, taken: set<string>, suffix: nat, k: nat)
    requires IsCode(cleaned) && FirstFree(cleaned, taken, suffix) && k >= 2 && |taken| < 9 * Power10(k - 1)
    ensures suffix < Power10(k)
  {
    SomeFree(cleaned, taken, k);
  }

  /** Up to nine digits fit into ten characters. */
  lemma Fits(cleaned: string, suffix: nat)
    requires IsCode(cleaned) && |cleaned| <= 10 && 1 <= suffix < Power10(9)
    ensures |Candidate(cleaned, suffix)| <= 10
  {
    if |Written(suffix)| >= 10 {
      var k := |Written(suffix)|;
      Digits(suffix, k);
      PowerGrows(9, k - 1);
    }
  }

  lemma SuffixIsSmall(cleaned: string, taken: set<string>, suffix: nat)
    requires IsCode(cleaned) && |cleaned| <= 10 && FirstFree(cleaned, taken, suffix)
    ensures forall k: nat :: k >= 2 && |taken| < 9 * Power10(k - 1) ==> suffix < Power10(k)
    ensures |taken| < 9 * Power10(8) ==> |Candidate(cleaned, suffix)| <= 10
  {
    forall k: nat | k >= 2 && |taken| < 9 * Power10(k - 1) ensures suffix < Power10(k) {
      EndsEarly(cleaned, taken, suffix, k);
    }
    if |taken| < 9 * Power10(8) {
      EndsEarly(cleaned, taken, suffix, 9);
      Fits(cleaned, suffix);
    }
  }

  /** A suffix below this bound is free. */
  lemma SearchBound(cleaned: string, taken: set<string>) returns (bound: nat)
    requires IsCode(cleaned)
    ensures forall n: nat :: TakenUpTo(cleaned, taken, n) ==> n < bound
  {
    PowerExceeds(|taken| + 1);
    SomeFree(cleaned, taken, |taken| + 2);
    bound := Power10(|taken| + 2);
    var free: nat :| 2 <= free < bound && !Taken(Candidate(cleaned, free), taken);
    assert forall n: nat :: TakenUpTo(cleaned, taken, n) ==> n <= free;
  }

  /** `_generate_destination_code` */
  method GenerateDestinationCode(base: string, taken: set<string>) returns (code: string, ghost suffix: nat)
    ensures IsCode(code) && !Taken(code, taken) && forall t :: t in taken ==> Text.Upper(t) != code
    ensures forall j :: 1 <= j < suffix ==> exists t :: t in taken && Text.Upper(t) == Candidate(Cleaned(base), j)
    ensures FirstFree(Cleaned(base), taken, suffix) && code == Candidate(Cleaned(base), suffix)
    ensures forall k: nat :: k >= 2 && |taken| < 9 * Power10(k - 1) ==> suffix < Power10(k)
    ensures |taken| < 9 * Power10(8) ==> |code| <= 10
  {
    var cleaned := Cleaned(base);
    code := cleaned;
    var number := 1;
    ghost var bound := SearchBound(cleaned, taken);
    assert TakenUpTo(cleaned, taken, number);
    while Taken(code, taken)
      invariant number >= 1 && code == Candidate(cleaned, number)
      invariant TakenUpTo(cleaned, taken, number) && number < bound
      decreases bound - number
    {
      number := number + 1;
      code := Candidate(cleaned, number);
    }
    suffix := number;
    CandidateIsCode(cleaned, suffix);
    forall j | 1 <= j < suffix ensures exists t :: t in taken && Text.Upper(t) == Candidate(cleaned, j) {
      assert Taken(Candidate(cleaned, j), taken);
      CandidateIsCode(cleaned, j);
    }
    SuffixIsSmall(cleaned, taken, suffix);
  }
}
