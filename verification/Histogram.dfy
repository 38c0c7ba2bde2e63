/** crates/rc-agent/src/perf_histogram.rs: the fixed-width histogram and its upper quantile. */
module Histogram {
  import opened Protocol

  const WIDTH := 100
  const COUNT := 1001

  function Min(a: nat, b: nat): nat { if a <= b then a else b }

  /** The bucket of a sample. */
  function Bucket(us: nat): (i: nat)
    ensures i < COUNT
  {
    Min(us / 100, 1000)
  }

  // ---- What is recorded ----

  function Total(xs: seq<nat>): nat { if xs == [] then 0 else Total(xs[..|xs| - 1]) + xs[|xs| - 1] }

  function Largest(xs: seq<nat>): nat {
    if xs == [] then 0
    else if xs[|xs| - 1] > Largest(xs[..|xs| - 1]) then xs[|xs| - 1] else Largest(xs[..|xs| - 1])
  }

  /** How many samples fall into buckets `from` to `to`, the last excluded. */
  function Falling(xs: seq<nat>, from: nat, to: nat): nat {
    if xs == [] then 0
    else Falling(xs[..|xs| - 1], from, to) + if from <= Bucket(xs[|xs| - 1]) < to then 1 else 0
  }

  // ---- The exact order statistic ----

  predicate Sorted(xs: seq<nat>) { forall i, j :: 0 <= i < j < |xs| ==> xs[i] <= xs[j] }

  function Insert(x: nat, xs: seq<nat>): seq<nat> {
    if xs == [] || x <= xs[0] then [x] + xs else [xs[0]] + Insert(x, xs[1..])
  }

  function Sort(xs: seq<nat>): seq<nat> {
    if xs == [] then [] else Insert(xs[|xs| - 1], Sort(xs[..|xs| - 1]))
  }

  lemma {:induction false} InsertKeeps(x: nat, xs: seq<nat>)
    ensures multiset(Insert(x, xs)) == multiset(xs) + multiset{x}
  {
    if xs != [] && x > xs[0] {
      InsertKeeps(x, xs[1..]);
      assert xs == [xs[0]] + xs[1..];
    }
  }

  lemma SortedCons(x: nat, xs: seq<nat>)
    requires Sorted(xs) && (xs != [] ==> x <= xs[0])
    ensures Sorted([x] + xs)
  {
  }

  lemma {:induction false} InsertSorted(x: nat, xs: seq<nat>)
    requires Sorted(xs)
    ensures Sorted(Insert(x, xs))
  {
    if xs == [] || x <= xs[0] {
      SortedCons(x, xs);
    } else {
      InsertSorted(x, xs[1..]);
      SortedCons(xs[0], Insert(x, xs[1..]));
    }
  }

  lemma {:induction false} SortSorted(xs: seq<nat>)
    ensures Sorted(Sort(xs))
  {
    if xs != [] {
      SortSorted(xs[..|xs| - 1]);
      InsertSorted(xs[|xs| - 1], Sort(xs[..|xs| - 1]));
    }
  }

  lemma {:induction false} SortPermutes(xs: seq<nat>)
    ensures multiset(Sort(xs)) == multiset(xs)
  {
    if xs != [] {
      SortPermutes(xs[..|xs| - 1]);
      InsertKeeps(xs[|xs| - 1], Sort(xs[..|xs| - 1]));
      assert xs == xs[..|xs| - 1] + [xs[|xs| - 1]];
    }
  }

  lemma SortSorts(xs: seq<nat>)
    ensures Sorted(Sort(xs)) && multiset(Sort(xs)) == multiset(xs) && |Sort(xs)| == |xs|
  {
    SortSorted(xs);
    SortPermutes(xs);
    assert |multiset(Sort(xs))| == |multiset(xs)|;
  }

  /** The `rank`-th smallest sample, counted from one. */
  function Smallest(xs: seq<nat>, rank: nat): nat
    requires 1 <= rank <= |xs|
  {
    SortSorts(xs);
    Sort(xs)[rank - 1]
  }

  // ---- Counting in sorted samples ----

  lemma {:induction false} FallingInsert(x: nat, xs: seq<nat>, from: nat, to: nat)
    ensures FallingLeft(Insert(x, xs), from, to) == FallingLeft(xs, from, to) + if from <= Bucket(x) < to then 1 else 0
  {
    if xs == [] || x <= xs[0] {
      assert ([x] + xs)[1..] == xs;
    } else {
      FallingInsert(x, xs[1..], from, to);
      assert ([xs[0]] + Insert(x, xs[1..]))[1..] == Insert(x, xs[1..]);
    }
  }

  /** `Falling`, from the left. */
  function FallingLeft(xs: seq<nat>, from: nat, to: nat): nat {
    if xs == [] then 0 else (if from <= Bucket(xs[0]) < to then 1 else 0) + FallingLeft(xs[1..], from, to)
  }

  lemma {:induction false} FallingSort(xs: seq<nat>, from: nat, to: nat)
    ensures FallingLeft(Sort(xs), from, to) == Falling(xs, from, to)
  {
    if xs != [] {
      FallingSort(xs[..|xs| - 1], from, to);
      FallingInsert(xs[|xs| - 1], Sort(xs[..|xs| - 1]), from, to);
    }
  }

  /** In sorted samples at most `k` lie below the bucket of the one at `k`, and more than `k` within it or below. */
  lemma {:induction false} SortedCounts(xs: seq<nat>, k: nat)
    requires Sorted(xs) && k < |xs|
    ensures FallingLeft(xs, 0, Bucket(xs[k])) <= k
    ensures FallingLeft(xs, 0, Bucket(xs[k]) + 1) > k
  {
    if k == 0 {
      NoneBelow(xs, Bucket(xs[0]));
    } else {
      assert xs[0] <= xs[k];
      assert xs[1..][k - 1] == xs[k];
      SortedCounts(xs[1..], k - 1);
    }
  }

  lemma {:induction false} NoneBelow(xs: seq<nat>, to: nat)
    requires forall i :: 0 <= i < |xs| ==> Bucket(xs[i]) >= to
    ensures FallingLeft(xs, 0, to) == 0
  {
    if xs != [] {
      NoneBelow(xs[1..], to);
    }
  }

  lemma {:induction false} FallingSplit(xs: seq<nat>, i: nat)
    ensures Falling(xs, 0, i + 1) == Falling(xs, 0, i) + Falling(xs, i, i + 1)
  {
    if xs != [] {
      FallingSplit(xs[..|xs| - 1], i);
    }
  }

  lemma {:induction false} FallingMonotone(xs: seq<nat>, i: nat, j: nat)
    requires i <= j
    ensures Falling(xs, 0, i) <= Falling(xs, 0, j)
  {
    if xs != [] {
      FallingMonotone(xs[..|xs| - 1], i, j);
    }
  }

  lemma {:induction false} FallingAll(xs: seq<nat>)
    ensures Falling(xs, 0, 1001) == |xs| && Falling(xs, 0, 0) == 0
  {
    if xs != [] {
      FallingAll(xs[..|xs| - 1]);
    }
  }

  /** The first bucket where the running count reaches `rank` is that of the `rank`-th smallest sample. */
  lemma FirstBucket(xs: seq<nat>, rank: nat, i: nat)
    requires 1 <= rank <= |xs| && Falling(xs, 0, i) < rank <= Falling(xs, 0, i + 1)
    ensures i == Bucket(Smallest(xs, rank))
  {
    SortSorts(xs);
    var b := Bucket(Smallest(xs, rank));
    SortedCounts(Sort(xs), rank - 1);
    FallingSort(xs, 0, b);
    FallingSort(xs, 0, b + 1);
    if b < i {
      FallingMonotone(xs, b + 1, i);
    } else if i < b {
      FallingMonotone(xs, i + 1, b);
    }
  }

  // ---- The quantile ----

  /** The rank asked for by `p`: rounded up, and brought into 1 to `count`. `as u64` takes a negative to 0. */
  function Rank(p: real, count: nat): (r: nat)
    requires count > 0
    ensures 1 <= r <= count
  {
    var up := -(-(p * count as real)).Floor;
    if up < 1 then 1 else if up > count then count else up
  }

  /** The rank is the least number from 1 that is no less than the fraction `p` of the samples, or the last if none is. */
  lemma RankExactly(p: real, count: nat, k: nat)
    requires 1 <= k <= count
    ensures Rank(p, count) <= k <==> k as real >= p * count as real || k == count
  {
    var x := p * count as real;
    var up := -(-x).Floor;
    assert up as real >= x && (up - 1) as real < x;
  }

  /** What a bucket reports for a sample in it. */
  function Reported(us: nat, largest: nat): nat {
    if us >= 100_000 then largest else Min(us / 100 * 100 + 99, largest)
  }

  /** `upper_quantile`, from the samples themselves. */
  function UpperQuantile(xs: seq<nat>, p: real): Option<nat> {
    if xs == [] then None else Some(Reported(Smallest(xs, Rank(p, |xs|)), Largest(xs)))
  }

  class Histogram {
    var count: nat
    var maxUs: nat
    var sumUs: nat
    var buckets: seq<nat>
    ghost var samples: seq<nat>

    ghost predicate Valid()
      reads this
    {
      && |buckets| == COUNT && count == |samples| && sumUs == Total(samples) && maxUs == Largest(samples)
      && forall i :: 0 <= i < COUNT ==> buckets[i] == Falling(samples, i, i + 1)
    }

    constructor ()
      ensures Valid() && samples == []
    {
      count, maxUs, sumUs := 0, 0, 0;
      buckets := seq(COUNT, _ => 0);
      samples := [];
    }

    method Record(us: nat)
      requires Valid()
      modifies this
      ensures Valid() && samples == old(samples) + [us]
    {
      count := count + 1;
      sumUs := sumUs + us;
      if us > maxUs {
        maxUs := us;
      }
      var idx := Min(us / WIDTH, COUNT - 1);
      buckets := buckets[idx := buckets[idx] + 1];
      samples := samples + [us];
      assert samples[..|samples| - 1] == old(samples);
    }

    method Quantile(p: real) returns (q: Option<nat>)
      requires Valid()
      ensures q == UpperQuantile(samples, p)
    {
      if count == 0 {
        return None;
      }
      var rank := Rank(p, count);
      var cumulative := 0;
      FallingAll(samples);
      for idx := 0 to COUNT
        invariant cumulative == Falling(samples, 0, idx) < rank
      {
        FallingSplit(samples, idx);
        cumulative := cumulative + buckets[idx];
        if cumulative >= rank {
          FirstBucket(samples, rank, idx);
          return Some(if idx == COUNT - 1 then maxUs else Min(idx * WIDTH + (WIDTH - 1), maxUs));
        }
      }
      assert false;
    }
  }

  // ---- Bounds ----

  /** `Largest` is a sample, and none is larger. */
  lemma {:induction false} LargestIsSample(xs: seq<nat>)
    requires xs != []
    ensures Largest(xs) in xs
  {
    var front, last := xs[..|xs| - 1], xs[|xs| - 1];
    assert front == [] ==> Largest(front) == 0;
    if Largest(xs) == last {
      assert xs[|xs| - 1] == Largest(xs);
    } else {
      LargestIsSample(front);
      var i :| 0 <= i < |front| && front[i] == Largest(front);
      assert xs[i] == Largest(xs);
    }
  }

  lemma {:induction false} LargestAbove(xs: seq<nat>, i: nat)
    requires i < |xs|
    ensures xs[i] <= Largest(xs)
  {
    if i < |xs| - 1 {
      LargestAbove(xs[..|xs| - 1], i);
    }
  }

  lemma SmallestIsSample(xs: seq<nat>, rank: nat)
    requires 1 <= rank <= |xs|
    ensures Smallest(xs, rank) in xs
  {
    SortSorts(xs);
    assert Smallest(xs, rank) in multiset(Sort(xs));
  }

  /** The quantile is at least the exact order statistic and at most the largest sample, and less than 100 above the
      exact value whenever that is below 100000. */
  lemma QuantileBound(xs: seq<nat>, p: real)
    requires xs != []
    ensures var exact := Smallest(xs, Rank(p, |xs|)); var q := UpperQuantile(xs, p);
            q.Some? && exact <= q.value <= Largest(xs) && (exact < 100_000 ==> q.value < exact + 100)
    ensures Largest(xs) in xs && forall i :: 0 <= i < |xs| ==> xs[i] <= Largest(xs)
  {
    var exact := Smallest(xs, Rank(p, |xs|));
    SmallestIsSample(xs, Rank(p, |xs|));
    LargestIsSample(xs);
    forall i | 0 <= i < |xs| ensures xs[i] <= Largest(xs) {
      LargestAbove(xs, i);
    }
  }

  /** At 100000 and above the quantile is the maximum, however far off. */
  lemma OverflowReportsMaximum(xs: seq<nat>, p: real)
    requires xs != [] && Smallest(xs, Rank(p, |xs|)) >= 100_000
    ensures UpperQuantile(xs, p) == Some(Largest(xs))
  {
  }
}
