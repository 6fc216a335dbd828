/** Split arithmetic and index selection of
    `SystemDataManager.get_trajectory_split` and `get_trajectories`
    (`dair_pll/dataset_management.py`): how many trajectories each of train,
    valid and test receives, how a shuffled index range is cut into the three
    blocks, and why the blocks never share an index. */
module DatasetSplit {
  import opened PyLists

  /** Python's `round(x)` on an exactly held number: the nearest integer,
      ties to the even one. */
  function RoundHalfEven(x: real): (r: int)
    ensures r as real - 0.5 <= x <= r as real + 0.5
    ensures (x == r as real - 0.5 || x == r as real + 0.5) ==> r % 2 == 0
  {
    var f := x.Floor;
    var d := x - f as real;
    if d < 0.5 then f
    else if d > 0.5 then f + 1
    else if f % 2 == 0 then f
    else f + 1
  }

  /** `round(n * fraction)` */
  function Portion(n: int, fraction: real): int {
    RoundHalfEven(n as real * fraction)
  }

  /** A fraction in `[0, 1]` of `n >= 0` items is between 0 and `n`. */
  lemma PortionBounds(n: int, fraction: real)
    requires n >= 0 && 0.0 <= fraction <= 1.0
    ensures 0 <= Portion(n, fraction) <= n
  {
    var m := n as real;
    var rest := 1.0 - fraction;
    assert m * fraction >= 0.0;
    assert m * rest >= 0.0;
    assert m * fraction + m * rest == m;
  }

  datatype Fractions = Fractions(train: real, valid: real, test: real)

  /** The documented range of each fraction. */
  predicate FractionsOk(f: Fractions) {
    0.0 <= f.train <= 1.0 && 0.0 <= f.valid <= 1.0 && 0.0 <= f.test <= 1.0
  }

  datatype SplitSizes = SplitSizes(nTrain: int, nValid: int, nTest: int) {
    function Total(): int { nTrain + nValid + nTest }
  }

  /** Sizes of the first split of `n` trajectories: each set gets its rounded
      fraction, and test is clamped to what train and valid leave over. */
  function InitialSplitSizes(n: int, f: Fractions): (s: SplitSizes)
    ensures s.nTrain == Portion(n, f.train) && s.nValid == Portion(n, f.valid)
    ensures s.nTest <= Portion(n, f.test)
    ensures s.nTest <= n - s.nTrain - s.nValid
    ensures s.nTest == Portion(n, f.test) || s.nTest == n - s.nTrain - s.nValid
  {
    var nTrain := Portion(n, f.train);
    var nValid := Portion(n, f.valid);
    var nTest := Portion(n, f.test);
    SplitSizes(nTrain, nValid, Min(nTest, n - nTrain - nValid))
  }

  /** Sizes of the share of `delta` new trajectories: rounded fractions of
      `delta`, with no clamp on test. */
  function IncrementalSplitSizes(delta: int, f: Fractions): SplitSizes {
    SplitSizes(Portion(delta, f.train), Portion(delta, f.valid), Portion(delta, f.test))
  }

  /** With fractions in `[0, 1]` the first split never asks for more than `n`
      trajectories, and train and valid are each at most `n`. */
  lemma InitialSplitWithinPopulation(n: nat, f: Fractions)
    requires FractionsOk(f)
    ensures var s := InitialSplitSizes(n, f);
            && 0 <= s.nTrain <= n && 0 <= s.nValid <= n
            && s.Total() <= n
            && (s.nTrain + s.nValid <= n ==> 0 <= s.nTest)
  {
    PortionBounds(n, f.train);
    PortionBounds(n, f.valid);
    PortionBounds(n, f.test);
  }

  /** 100 trajectories split 0.5 / 0.25 / 0.25 give 50 / 25 / 25. */
  lemma InitialSplitExample()
    ensures InitialSplitSizes(100, Fractions(0.5, 0.25, 0.25)) == SplitSizes(50, 25, 25)
  {
    assert RoundHalfEven(50.0) == 50;
    assert RoundHalfEven(25.0) == 25;
  }

  // ---------------------------------------------------------------------
  // The three blocks.

  /** `selection[:nTrain]`, then `[:nValid]` and the rest of what follows. */
  function TrainBlock<T>(sel: seq<T>, s: SplitSizes): seq<T> { Take(sel, s.nTrain) }
  function ValidBlock<T>(sel: seq<T>, s: SplitSizes): seq<T> { Take(Drop(sel, s.nTrain), s.nValid) }
  function TestBlock<T>(sel: seq<T>, s: SplitSizes): seq<T> { Drop(Drop(sel, s.nTrain), s.nValid) }

  /** The three blocks are consecutive and together are the whole selection,
      whatever the sizes (negative ones included). */
  lemma BlocksPartition<T>(sel: seq<T>, s: SplitSizes)
    ensures TrainBlock(sel, s) + ValidBlock(sel, s) + TestBlock(sel, s) == sel
  {
    TakeDrop(sel, s.nTrain);
    TakeDrop(Drop(sel, s.nTrain), s.nValid);
  }

  /** With non-negative sizes: train gets `nTrain` and valid `nValid` as far as
      the selection reaches, and test gets whatever follows. */
  lemma BlockSizes<T>(sel: seq<T>, s: SplitSizes)
    requires s.nTrain >= 0 && s.nValid >= 0
    ensures |TrainBlock(sel, s)| == Min(s.nTrain, |sel|)
    ensures |ValidBlock(sel, s)| == Min(s.nValid, |sel| - Min(s.nTrain, |sel|))
    ensures |TestBlock(sel, s)| == |sel| - |TrainBlock(sel, s)| - |ValidBlock(sel, s)|
  {
    BlocksPartition(sel, s);
  }

  /** Asking for `min(nTest, n - nTrain - nValid)` instead of `nTest` changes
      nothing about the first `nTrain + nValid + nTest` of `n` shuffled indices
      when the sizes are non-negative: the clamp of the first split is already
      implied by slicing. */
  lemma ClampImmaterial<T>(order: seq<T>, a: int, b: int, c: int)
    requires a >= 0 && b >= 0 && c >= 0
    ensures Take(order, a + b + Min(c, |order| - a - b)) == Take(order, a + b + c)
  {
  }

  /** The unclamped test share of the split growth is capped all the same: out
      of a selection of `min(total, delta)` indices, test receives
      `min(nTest, max(0, delta - nTrain - nValid))`. */
  lemma IncrementalTestCapped<T>(sel: seq<T>, s: SplitSizes, delta: int)
    requires s.nTrain >= 0 && s.nValid >= 0 && s.nTest >= 0 && delta >= 0
    requires |sel| == Min(s.Total(), delta)
    ensures |TestBlock(sel, s)| == Min(s.nTest, Max(0, delta - s.nTrain - s.nValid))
    ensures |TrainBlock(sel, s)| + |ValidBlock(sel, s)| + |TestBlock(sel, s)| <= delta
  {
    BlockSizes(sel, s);
  }

  // ---------------------------------------------------------------------
  // Index selection.

  /** A value of `torch.randperm(m)`. */
  predicate IsPermutation(perm: seq<nat>, m: int) {
    && |perm| == m
    && (forall k :: 0 <= k < |perm| ==> perm[k] < m)
    && Distinct(perm)
  }

  /** A source of shuffles: for every `m`, a permutation of `0 .. m-1`. */
  ghost predicate IsShuffle(shuffle: nat -> seq<nat>) {
    forall m: nat :: PermutesRange(shuffle, m)
  }

  /** The shuffle of `m` indices is a permutation of `0 .. m-1`. */
  ghost predicate PermutesRange(shuffle: nat -> seq<nat>, m: nat) {
    IsPermutation(shuffle(m), m)
  }

  /** `(torch.randperm(hi - lo) + lo)[:nRequested]`, the shuffle drawn
      from `shuffle`. */
  function RangeSelection(shuffle: nat -> seq<nat>, lo: int, hi: int, nRequested: int): seq<int>
    requires lo <= hi
  {
    Selection(shuffle(hi - lo), lo, nRequested)
  }

  /** `(perm + base)[:nRequested]`. */
  function Selection(perm: seq<nat>, base: int, nRequested: int): seq<int> {
    Take(Shifted(perm, base), nRequested)
  }

  /** `perm + base`, element by element. */
  function Shifted(perm: seq<nat>, base: int): (r: seq<int>)
    ensures |r| == |perm|
  {
    if perm == [] then [] else [perm[0] + base] + Shifted(perm[1..], base)
  }

  lemma {:induction false} ShiftedAt(perm: seq<nat>, base: int)
    ensures forall k :: 0 <= k < |perm| ==> Shifted(perm, base)[k] == perm[k] + base
  {
    if perm != [] {
      ShiftedAt(perm[1..], base);
    }
  }

  /** Every index of `s` lies in `[lo, hi)`. */
  predicate InRange(s: seq<int>, lo: int, hi: int) {
    forall k :: 0 <= k < |s| ==> lo <= s[k] < hi
  }

  /** `get_trajectories` picks `min(nRequested, m)` distinct indices, all in
      `[base, base + m)`. */
  lemma SelectionProperties(perm: seq<nat>, m: int, base: int, nRequested: int)
    requires IsPermutation(perm, m)
    ensures var sel := Selection(perm, base, nRequested);
            && Distinct(sel)
            && InRange(sel, base, base + m)
            && (nRequested >= 0 ==> |sel| == Min(nRequested, m))
  {
    var shifted := Shifted(perm, base);
    ShiftedAt(perm, base);
    var sel := Selection(perm, base, nRequested);
    var a := SliceBound(0, |shifted|);
    var b := SliceBound(nRequested, |shifted|);
    assert sel == if a < b then shifted[a..b] else [];
    forall i, j | 0 <= i < j < |sel| ensures sel[i] != sel[j] {
      assert sel[i] == perm[a + i] + base && sel[j] == perm[a + j] + base;
    }
  }

  // ---------------------------------------------------------------------
  // Disjointness of the three index lists.

  /** Three index lists without repetitions and without an index in common. */
  predicate DisjointIndexLists(a: seq<int>, b: seq<int>, c: seq<int>) {
    && Distinct(a) && Distinct(b) && Distinct(c)
    && (forall i :: i in a ==> i !in b && i !in c)
    && (forall i :: i in b ==> i !in c)
  }

  lemma DistinctConcat(x: seq<int>, y: seq<int>)
    requires Distinct(x + y)
    ensures Distinct(x) && Distinct(y) && forall i :: i in x ==> i !in y
  {
    forall p, q | 0 <= p < |x| && 0 <= q < |y| ensures x[p] != y[q] {
      assert (x + y)[p] == x[p] && (x + y)[|x| + q] == y[q];
    }
    forall p, q | 0 <= p < q < |x| ensures x[p] != x[q] {
      assert (x + y)[p] == x[p] && (x + y)[q] == x[q];
    }
    forall p, q | 0 <= p < q < |y| ensures y[p] != y[q] {
      assert (x + y)[|x| + p] == y[p] && (x + y)[|x| + q] == y[q];
    }
  }

  /** Cutting a repetition-free selection into blocks gives three disjoint
      index lists. */
  lemma BlocksDisjoint(sel: seq<int>, s: SplitSizes)
    requires Distinct(sel)
    ensures DisjointIndexLists(TrainBlock(sel, s), ValidBlock(sel, s), TestBlock(sel, s))
  {
    var tr, va, te := TrainBlock(sel, s), ValidBlock(sel, s), TestBlock(sel, s);
    BlocksPartition(sel, s);
    assert tr + va + te == tr + (va + te);
    DistinctConcat(tr, va + te);
    DistinctConcat(va, te);
  }

  lemma DistinctAppendBelowAbove(x: seq<int>, y: seq<int>, bound: int)
    requires Distinct(x) && Distinct(y)
    requires forall i :: i in x ==> i < bound
    requires forall i :: i in y ==> bound <= i
    ensures Distinct(x + y)
  {
    forall p, q | 0 <= p < q < |x + y| ensures (x + y)[p] != (x + y)[q] {
      if p < |x| && q >= |x| {
        assert (x + y)[p] in x && (x + y)[q] in y;
      }
    }
  }

  /** The blocks of a selection drawn from `[lo, hi)` are drawn from it too. */
  lemma BlocksInRange(sel: seq<int>, s: SplitSizes, lo: int, hi: int)
    requires InRange(sel, lo, hi)
    ensures InRange(TrainBlock(sel, s), lo, hi) && InRange(ValidBlock(sel, s), lo, hi)
            && InRange(TestBlock(sel, s), lo, hi)
  {
    BlocksPartition(sel, s);
    PartsInRange(TrainBlock(sel, s), ValidBlock(sel, s), TestBlock(sel, s), lo, hi);
  }

  /** The consecutive parts of a list drawn from `[lo, hi)` are drawn from it. */
  lemma PartsInRange(x: seq<int>, y: seq<int>, z: seq<int>, lo: int, hi: int)
    requires InRange(x + y + z, lo, hi)
    ensures InRange(x, lo, hi) && InRange(y, lo, hi) && InRange(z, lo, hi)
  {
    var all := x + y + z;
    forall k | 0 <= k < |x| ensures lo <= x[k] < hi {
      assert x[k] == all[k];
    }
    forall k | 0 <= k < |y| ensures lo <= y[k] < hi {
      assert y[k] == all[|x| + k];
    }
    forall k | 0 <= k < |z| ensures lo <= z[k] < hi {
      assert z[k] == all[|x| + |y| + k];
    }
  }

  /** Appending new blocks drawn from `[mid, hi)` to lists drawn from
      `[lo, mid)` keeps the three lists disjoint: no index moves or is
      shared. */
  lemma ExtendDisjoint(a: seq<int>, b: seq<int>, c: seq<int>,
                       a': seq<int>, b': seq<int>, c': seq<int>, lo: int, mid: int, hi: int)
    requires DisjointIndexLists(a, b, c) && DisjointIndexLists(a', b', c')
    requires InRange(a, lo, mid) && InRange(b, lo, mid) && InRange(c, lo, mid)
    requires InRange(a', mid, hi) && InRange(b', mid, hi) && InRange(c', mid, hi)
    requires lo <= mid <= hi
    ensures DisjointIndexLists(a + a', b + b', c + c')
    ensures InRange(a + a', lo, hi) && InRange(b + b', lo, hi) && InRange(c + c', lo, hi)
  {
    DistinctAppendBelowAbove(a, a', mid);
    DistinctAppendBelowAbove(b, b', mid);
    DistinctAppendBelowAbove(c, c', mid);
    InRangeAppend(a, a', lo, mid, hi);
    InRangeAppend(b, b', lo, mid, hi);
    InRangeAppend(c, c', lo, mid, hi);
  }

  lemma InRangeAppend(x: seq<int>, y: seq<int>, lo: int, mid: int, hi: int)
    requires InRange(x, lo, mid) && InRange(y, mid, hi) && lo <= mid <= hi
    ensures InRange(x + y, lo, hi)
  {
    forall k | 0 <= k < |x + y| ensures lo <= (x + y)[k] < hi {
      if k >= |x| {
        assert (x + y)[k] == y[k - |x|];
      }
    }
  }
}
