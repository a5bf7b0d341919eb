/** The two analyses of the `ArrayManipulator` class over a sequence of daily
    calorie values (`src/index.ts`). The class only stores the array and reads
    it, so each analysis is modelled as a function of that array; Dafny
    sequences are values, so no analysis can change the array it reads.
 */
module ArrayManipulator {
  import opened Sequences

  /** What `getIncreasingSequence` returns: 1-based day numbers, calorie values
      and the day count. */
  datatype IncreasingSequence = IncreasingSequence(indices: seq<int>, sequence: seq<int>, dayCount: int)

  function Max(x: int, y: int): int {
    if x < y then y else x
  }

  function Min(x: int, y: int): int {
    if x < y then x else y
  }

  /** The product of the adjacent pair at positions `i`, `i + 1`. */
  function AdjacentProduct(a: seq<int>, i: int): int
    requires 0 <= i < |a| - 1
  {
    a[i] * a[i + 1]
  }

  // ---------------------------------------------------------------------------
  // Maximum product of adjacent elements
  // ---------------------------------------------------------------------------

  /** The largest product `a[i] * a[i + 1]` over the adjacent pairs of `a`,
      computed as the running maximum of a left-to-right scan whose seed is the
      first pair's product. */
  function MaxAdjacentProduct(a: seq<int>): (r: int)
    requires |a| >= 2
    ensures exists i :: 0 <= i < |a| - 1 && r == AdjacentProduct(a, i)
    ensures forall i :: 0 <= i < |a| - 1 ==> AdjacentProduct(a, i) <= r
    decreases |a|
  {
    if |a| == 2 then AdjacentProduct(a, 0)
    else
      var p := a[..|a| - 1];
      var m := MaxAdjacentProduct(p);
      assert forall i :: 0 <= i < |p| - 1 ==> AdjacentProduct(p, i) == AdjacentProduct(a, i);
      Max(m, AdjacentProduct(a, |a| - 2))
  }

  /** The scan of `getMaxProductOfAdjacentElements` with a declared accumulator:
      the loop reads only `a[i]` and `a[i + 1]` for `i < |a| - 1`,
      and keeps the larger of the accumulator and the current product. The
      source's line `maxProduct = Math.max(product)` passes one argument and
      never declares `maxProduct`; this method models the running maximum the
      method's name promises (see `GetMaxProductAsWritten` for the literal
      line). */
  method GetMaxProductOfAdjacentElements(a: seq<int>) returns (maxProduct: int)
    requires |a| >= 2
    ensures maxProduct == MaxAdjacentProduct(a)
  {
    maxProduct := AdjacentProduct(a, 0);
    var i := 1;
    while i < |a| - 1
      invariant 1 <= i <= |a| - 1
      invariant maxProduct == MaxAdjacentProduct(a[..i + 1])
    {
      var product := AdjacentProduct(a, i);
      assert a[..i + 2][..i + 1] == a[..i + 1];
      maxProduct := Max(maxProduct, product);
      i := i + 1;
    }
    assert a[..i + 1] == a;
  }

  /** The loop of `getMaxProductOfAdjacentElements` with `maxProduct`
      declared (as written it is not, and the first assignment throws): `Math.max` of a single argument is that
      argument, so every iteration overwrites the accumulator with the current
      product and the last pair wins. */
  method GetMaxProductAsWritten(a: seq<int>) returns (maxProduct: int)
    requires |a| >= 2
    ensures maxProduct == AdjacentProduct(a, |a| - 2)
  {
    maxProduct := 0;
    var i := 0;
    while i < |a| - 1
      invariant 0 <= i <= |a| - 1
      invariant i > 0 ==> maxProduct == AdjacentProduct(a, i - 1)
    {
      var product := AdjacentProduct(a, i);
      maxProduct := product;
      i := i + 1;
    }
  }

  /** The last pair's product is not always the largest: on [5, 2, 8, 1] the
      loop with a declared accumulator yields 8 while the largest adjacent product is 16. */
  lemma AsWrittenMissesMaximum()
    ensures exists a: seq<int> :: |a| >= 2 && AdjacentProduct(a, |a| - 2) < MaxAdjacentProduct(a)
  {
    var a := [5, 2, 8, 1];
    assert AdjacentProduct(a, 1) == 16;
    assert AdjacentProduct(a, 2) < MaxAdjacentProduct(a);
  }

  // ---------------------------------------------------------------------------
  // Strictly increasing adjacent pairs
  // ---------------------------------------------------------------------------

  /** The adjacent pair at positions `i`, `i + 1` exists and strictly increases. */
  predicate IncreasingAt(a: seq<int>, i: int) {
    0 <= i < |a| - 1 && a[i] < a[i + 1]
  }

  /** `v` is one of the two values of some strictly increasing adjacent pair. */
  ghost predicate InIncreasingPair(a: seq<int>, v: int) {
    exists i :: IncreasingAt(a, i) && (v == a[i] || v == a[i + 1])
  }

  /** `k` is one of the two 1-based day numbers of some strictly increasing
      adjacent pair. */
  ghost predicate DayInIncreasingPair(a: seq<int>, k: int) {
    exists i :: IncreasingAt(a, i) && (k == i + 1 || k == i + 2)
  }

  /** The positions of the strictly increasing adjacent pairs. */
  ghost function IncreasingSet(a: seq<int>): set<int> {
    set i | 0 <= i < |a| - 1 && IncreasingAt(a, i)
  }

  /** No adjacent pair of `a` strictly increases. */
  ghost predicate NoIncrease(a: seq<int>) {
    forall i :: 0 <= i < |a| - 1 ==> a[i] >= a[i + 1]
  }

  /** The values pushed onto `currentSequence`, pair by pair, before
      de-duplication. */
  function PushedValues(a: seq<int>): seq<int>
    decreases |a|
  {
    if |a| < 2 then []
    else
      PushedValues(a[..|a| - 1])
      + (if a[|a| - 2] < a[|a| - 1] then [a[|a| - 2], a[|a| - 1]] else [])
  }

  /** The day numbers pushed onto `currentIndices`, pair by pair, before
      de-duplication. Pairs are pushed in increasing position, so the list
      never decreases and stays within the days 1 .. |a|. */
  function PushedDays(a: seq<int>): (r: seq<int>)
    ensures forall k :: k in r ==> 1 <= k <= |a|
    ensures NonDecreasing(r)
    decreases |a|
  {
    if |a| < 2 then []
    else
      var r := PushedDays(a[..|a| - 1]);
      assert forall j :: 0 <= j < |r| ==> r[j] <= |a| - 1 by {
        forall j | 0 <= j < |r|
          ensures r[j] <= |a| - 1
        {
          assert r[j] in r;
        }
      }
      r
      + (if a[|a| - 2] < a[|a| - 1] then [|a| - 1, |a|] else [])
  }

  /** The number of `dayCount++` steps: one per strictly increasing pair. */
  function IncreasingCount(a: seq<int>): (c: nat)
    ensures c == |IncreasingSet(a)|
    decreases |a|
  {
    if |a| < 2 then 0
    else
      var p := a[..|a| - 1];
      assert IncreasingSet(a) == IncreasingSet(p) + (if a[|a| - 2] < a[|a| - 1] then {|a| - 2} else {});
      IncreasingCount(p) + (if a[|a| - 2] < a[|a| - 1] then 1 else 0)
  }

  /** A value is pushed exactly when it belongs to a strictly increasing pair. */
  lemma {:induction false} PushedValuesMembers(a: seq<int>)
    ensures forall v :: v in PushedValues(a) <==> InIncreasingPair(a, v)
    decreases |a|
  {
    if |a| >= 2 {
      var p := a[..|a| - 1];
      PushedValuesMembers(p);
      forall v
        ensures v in PushedValues(a) <==> InIncreasingPair(a, v)
      {
        if InIncreasingPair(a, v) {
          var i :| IncreasingAt(a, i) && (v == a[i] || v == a[i + 1]);
          if i < |a| - 2 {
            assert IncreasingAt(p, i);
          }
        }
        if v in PushedValues(p) {
          var i :| IncreasingAt(p, i) && (v == p[i] || v == p[i + 1]);
          assert IncreasingAt(a, i);
        }
        if a[|a| - 2] < a[|a| - 1] {
          assert IncreasingAt(a, |a| - 2);
        }
      }
    }
  }

  /** A day number is pushed exactly when it is a day of a strictly increasing
      pair. */
  lemma {:induction false} PushedDaysMembers(a: seq<int>)
    ensures forall k :: k in PushedDays(a) <==> DayInIncreasingPair(a, k)
    decreases |a|
  {
    if |a| >= 2 {
      var p := a[..|a| - 1];
      PushedDaysMembers(p);
      forall k
        ensures k in PushedDays(a) <==> DayInIncreasingPair(a, k)
      {
        if DayInIncreasingPair(a, k) {
          var i :| IncreasingAt(a, i) && (k == i + 1 || k == i + 2);
          if i < |a| - 2 {
            assert IncreasingAt(p, i);
          }
        }
        if k in PushedDays(p) {
          var i :| IncreasingAt(p, i) && (k == i + 1 || k == i + 2);
          assert IncreasingAt(a, i);
        }
        if a[|a| - 2] < a[|a| - 1] {
          assert IncreasingAt(a, |a| - 2);
        }
      }
    }
  }

  /** `getIncreasingSequence` over the adjacent pairs `i < |a| - 1`: the
      pushed values and day numbers with repetitions removed in first-occurrence
      order, and the day count that starts at 1. */
  function GetIncreasingSequence(a: seq<int>): (r: IncreasingSequence)
    ensures forall v :: v in r.sequence <==> InIncreasingPair(a, v)
    ensures Distinct(r.sequence)
    ensures forall v :: v in r.sequence <==> v in PushedValues(a)
    ensures forall i, j :: 0 <= i < j < |r.sequence| ==>
      FirstIndex(PushedValues(a), r.sequence[i]) < FirstIndex(PushedValues(a), r.sequence[j])
    ensures forall k :: k in r.indices <==> DayInIncreasingPair(a, k)
    ensures forall k :: k in r.indices ==> 1 <= k <= |a|
    ensures StrictlyAscending(r.indices)
    ensures r.dayCount == 1 + |IncreasingSet(a)|
    ensures r.dayCount >= 1
  {
    PushedValuesMembers(a);
    PushedDaysMembers(a);
    DedupOfNonDecreasingAscends(PushedDays(a));
    IncreasingSequence(Dedup(PushedDays(a)), Dedup(PushedValues(a)), 1 + IncreasingCount(a))
  }

  /** Both lists are empty and the day count stays at 1 exactly when no
      adjacent pair strictly increases (in particular for fewer than two
      days). */
  lemma NoIncreaseIffEmpty(a: seq<int>)
    ensures NoIncrease(a) <==>
      (GetIncreasingSequence(a).sequence == []
       && GetIncreasingSequence(a).indices == []
       && GetIncreasingSequence(a).dayCount == 1)
  {
    var r := GetIncreasingSequence(a);
    EmptyWithoutMembers(r.sequence);
    EmptyWithoutMembers(r.indices);
    if NoIncrease(a) {
      assert IncreasingSet(a) == {};
      assert forall i :: !IncreasingAt(a, i);
    } else {
      var i :| 0 <= i < |a| - 1 && a[i] < a[i + 1];
      assert i in IncreasingSet(a);
    }
  }

  /** `this.array[i] < this.array[i + 1]` in JavaScript: reading one past the
      end yields `undefined`, and every comparison with `undefined` is false. */
  function LessThanNext(a: seq<int>, i: int): bool
    requires 0 <= i < |a|
  {
    if i + 1 < |a| then a[i] < a[i + 1] else false
  }

  /** The part of `a` whose adjacent pairs have been examined once the loop
      counter reaches `i`: pairs at positions below `i`. */
  function Scanned(a: seq<int>, i: int): seq<int>
    requires 0 <= i <= |a|
  {
    a[..Min(i + 1, |a|)]
  }

  /** One loop step at position `i` pushes the pair exactly when
      `LessThanNext` holds, and extends the examined prefix by that pair. */
  lemma ScanStep(a: seq<int>, i: int)
    requires 0 <= i < |a|
    ensures PushedValues(Scanned(a, i + 1))
      == PushedValues(Scanned(a, i)) + (if LessThanNext(a, i) then [a[i], a[i + 1]] else [])
    ensures PushedDays(Scanned(a, i + 1))
      == PushedDays(Scanned(a, i)) + (if LessThanNext(a, i) then [i + 1, i + 2] else [])
    ensures IncreasingCount(Scanned(a, i + 1))
      == IncreasingCount(Scanned(a, i)) + (if LessThanNext(a, i) then 1 else 0)
  {
    if i + 1 < |a| {
      assert Scanned(a, i + 1)[..i + 1] == Scanned(a, i);
    }
  }

  /** `getIncreasingSequence` as its loop is written, running `i` up to the
      last position (`i < |a|`) with JavaScript's comparison against the
      missing element after it. The extra last step never pushes, so the
      result is the one over the pairs `i < |a| - 1`. */
  method GetIncreasingSequenceScan(a: seq<int>) returns (r: IncreasingSequence)
    ensures r == GetIncreasingSequence(a)
  {
    var currentSequence: seq<int> := [];
    var currentIndices: seq<int> := [];
    var dayCount := 1;
    var i := 0;
    while i < |a|
      invariant 0 <= i <= |a|
      invariant currentSequence == PushedValues(Scanned(a, i))
      invariant currentIndices == PushedDays(Scanned(a, i))
      invariant dayCount == 1 + IncreasingCount(Scanned(a, i))
    {
      ScanStep(a, i);
      if LessThanNext(a, i) {
        currentSequence := currentSequence + [a[i], a[i + 1]];
        currentIndices := currentIndices + [i + 1, i + 2];
        dayCount := dayCount + 1;
      }
      i := i + 1;
    }
    assert Scanned(a, i) == a;
    var uniqueArray := DedupInsertionOrder(currentSequence);
    var uniqueIndices := DedupInsertionOrder(currentIndices);
    r := IncreasingSequence(uniqueIndices, uniqueArray, dayCount);
  }
}
