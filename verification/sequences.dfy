/** Ordered-unique sequences: the behaviour of `Array.from(new Set(xs))`, which
    keeps the first occurrence of every value and lists the survivors in the
    order in which they were first inserted.
 */
module Sequences {

  /** No value occurs twice. */
  predicate Distinct(s: seq<int>) {
    forall i, j :: 0 <= i < j < |s| ==> s[i] != s[j]
  }

  /** Every later element is strictly greater than every earlier one. */
  predicate StrictlyAscending(s: seq<int>) {
    forall i, j :: 0 <= i < j < |s| ==> s[i] < s[j]
  }

  /** Every later element is at least every earlier one. */
  predicate NonDecreasing(s: seq<int>) {
    forall i, j :: 0 <= i < j < |s| ==> s[i] <= s[j]
  }

  /** The position at which `x` first occurs in `s`. */
  function FirstIndex(s: seq<int>, x: int): (k: nat)
    requires x in s
    ensures k < |s| && s[k] == x
    ensures forall j :: 0 <= j < k ==> s[j] != x
  {
    if s[0] == x then 0 else 1 + FirstIndex(s[1..], x)
  }

  /** Dropping the last element does not move the first occurrence of a value
      that the shorter sequence still holds. */
  lemma FirstIndexOfPrefix(s: seq<int>, x: int)
    requires |s| > 0 && x in s[..|s| - 1]
    ensures FirstIndex(s, x) == FirstIndex(s[..|s| - 1], x)
  {
  }

  /** A sequence that holds no value is empty. */
  lemma EmptyWithoutMembers(s: seq<int>)
    ensures (forall x :: x !in s) ==> s == []
  {
    if |s| > 0 {
      var y := s[0];
      assert y in s;
    }
  }

  /** The values of `s` with repetitions removed, in order of first occurrence:
      a value is kept when the values before it do not already contain it. */
  function Dedup(s: seq<int>): (r: seq<int>)
    ensures forall x :: x in r <==> x in s
    ensures Distinct(r)
    ensures forall i, j :: 0 <= i < j < |r| ==> FirstIndex(s, r[i]) < FirstIndex(s, r[j])
    ensures |r| <= |s|
  {
    if |s| == 0 then []
    else
      var p := s[..|s| - 1];
      var last := s[|s| - 1];
      var r := Dedup(p);
      assert forall x :: x in p ==> FirstIndex(s, x) == FirstIndex(p, x) by {
        forall x | x in p
          ensures FirstIndex(s, x) == FirstIndex(p, x)
        {
          FirstIndexOfPrefix(s, x);
        }
      }
      if last in r then r else r + [last]
  }

  /** Removing repetitions from a non-decreasing sequence leaves a strictly
      ascending one: values are kept in order of first occurrence, and in a
      non-decreasing sequence a smaller value first occurs earlier. */
  lemma DedupOfNonDecreasingAscends(s: seq<int>)
    requires NonDecreasing(s)
    ensures StrictlyAscending(Dedup(s))
  {
  }

  /** The insertion loop behind `new Set(xs)` followed by `Array.from`: each
      value is appended unless the set already holds it. */
  method DedupInsertionOrder(xs: seq<int>) returns (out: seq<int>)
    ensures out == Dedup(xs)
  {
    var seen: set<int> := {};
    out := [];
    var i := 0;
    while i < |xs|
      invariant 0 <= i <= |xs|
      invariant out == Dedup(xs[..i])
      invariant forall x :: x in seen <==> x in out
    {
      assert xs[..i + 1][..i] == xs[..i];
      if xs[i] !in seen {
        out := out + [xs[i]];
        seen := seen + {xs[i]};
      }
      i := i + 1;
    }
    assert xs[..i] == xs;
  }
}
