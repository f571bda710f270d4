/** Lists of what is picked from another list, in its order. */
module Listings {
  import opened Ids

  /** `at` holds the positions of the members of `s` that satisfy `p`, each once, in order. */
  ghost predicate Positions<T>(at: seq<nat>, s: seq<T>, p: T -> bool) {
    Ascending(at) && forall i :: i in at <==> 0 <= i < |s| && p(s[i])
  }

  ghost predicate PickedAt<T, U>(r: seq<U>, s: seq<T>, p: T -> bool, f: T -> U, at: seq<nat>) {
    Positions(at, s, p) && |r| == |at| && forall k :: 0 <= k < |at| ==> at[k] < |s| && r[k] == f(s[at[k]])
  }

  /** `r` lists `f` of every member of `s` that satisfies `p`, in order, and nothing else. */
  ghost predicate Picked<T, U>(r: seq<U>, s: seq<T>, p: T -> bool, f: T -> U) {
    forall u :: Unfold(u, TheListing) ==> exists at :: PickedAt(r, s, p, f, at)
  }

  lemma PickedNone<T, U>(p: T -> bool, f: T -> U)
    ensures Picked([], [], p, f)
  {
    var s: seq<T>, r: seq<U> := [], [];
    assert PickedAt(r, s, p, f, []);
  }

  lemma PositionsByOne<T>(at: seq<nat>, s: seq<T>, p: T -> bool, x: T)
    requires Positions(at, s, p)
    ensures Positions(if p(x) then at + [|s|] else at, s + [x], p)
  {
    var more, longer := if p(x) then at + [|s|] else at, s + [x];
    assert forall k :: 0 <= k < |at| ==> at[k] in at;
    forall i ensures i in more <==> 0 <= i < |longer| && p(longer[i]) {
      assert i in more <==> i in at || (p(x) && i == |s|);
    }
  }

  /** One more member at the end. */
  lemma PickedByOne<T, U>(r: seq<U>, s: seq<T>, p: T -> bool, f: T -> U, x: T)
    requires Picked(r, s, p, f)
    ensures Picked(if p(x) then r + [f(x)] else r, s + [x], p, f)
  {
    assert Unfold(0, TheListing);
    var at: seq<nat> :| PickedAt(r, s, p, f, at);
    PositionsByOne(at, s, p, x);
    var more, longer := if p(x) then at + [|s|] else at, if p(x) then r + [f(x)] else r;
    assert PickedAt(longer, s + [x], p, f, more);
  }

  /** The same for a list and its front. */
  lemma PickedNext<T, U>(front: seq<U>, r: seq<U>, s: seq<T>, p: T -> bool, f: T -> U)
    requires s != [] && Picked(front, s[..|s| - 1], p, f)
    requires r == if p(s[|s| - 1]) then front + [f(s[|s| - 1])] else front
    ensures Picked(r, s, p, f)
  {
    PickedByOne(front, s[..|s| - 1], p, f, s[|s| - 1]);
    assert s == s[..|s| - 1] + [s[|s| - 1]];
  }

  /** The list is determined. */
  lemma PickedUnique<T, U>(r: seq<U>, other: seq<U>, s: seq<T>, p: T -> bool, f: T -> U)
    requires Picked(r, s, p, f) && Picked(other, s, p, f)
    ensures r == other
  {
    assert Unfold(0, TheListing);
    var at: seq<nat> :| PickedAt(r, s, p, f, at);
    var at': seq<nat> :| PickedAt(other, s, p, f, at');
    SortedUnique(Smaller, at, at', set i | 0 <= i < |s| && p(s[i]));
  }
}
