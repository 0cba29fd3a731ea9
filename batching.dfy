/** Pure specification of how a data generator cuts an index pool into batches:
    the batch count, Python's list slicing, concatenation of index lists and the
    reference partition of a pool into fixed-size contiguous chunks. */
module Batching {

  datatype Option<T> = None | Some(value: T)

  function Min(a: int, b: int): int { if a <= b then a else b }

  /** `math.ceil(n / b)`: the number of batches of size `b` needed for `n` instances,
      counted one full batch at a time. The result is the least count that covers
      `n`. */
  function CeilDiv(n: nat, b: nat): (r: nat)
    requires b > 0
    ensures r * b >= n
    ensures r > 0 ==> (r - 1) * b < n
    ensures r == 0 <==> n == 0
    decreases n
  {
    if n == 0 then 0
    else if n <= b then 1
    else
      var c := CeilDiv(n - b, b);
      MulSucc(c, b);
      c + 1
  }

  /** Multiplying out one more batch: `(i + 1) * b == i * b + b`. */
  lemma MulSucc(i: nat, b: nat)
    ensures (i + 1) * b == i * b + b
  {
  }

  /** The two bounds of `CeilDiv` pin its value down: no other count is both large
      enough and least. */
  lemma CeilDivUnique(n: nat, b: nat, r: nat)
    requires b > 0
    requires r * b >= n && (r > 0 ==> (r - 1) * b < n)
    ensures r == CeilDiv(n, b)
  {
    var c := CeilDiv(n, b);
    if r < c {
      MulMono(r, c - 1, b);
    } else if r > c {
      MulMono(c, r - 1, b);
    }
  }

  lemma MulMono(x: nat, y: nat, b: nat)
    requires x <= y
    ensures x * b <= y * b
  {
  }

  /** Python's `list(range(lo, hi))`. */
  function Range(lo: nat, hi: nat): (r: seq<nat>)
    ensures |r| == if lo <= hi then hi - lo else 0
    ensures forall k :: 0 <= k < |r| ==> r[k] == lo + k
    decreases hi - lo
  {
    if lo >= hi then [] else [lo] + Range(lo + 1, hi)
  }

  /** Where a slice bound lands in a list of length `len` (Python semantics for
      step 1): `None` takes `default`, a negative bound counts from the end, and
      every bound is clamped into `[0, len]`. */
  function SliceIndex(bound: Option<int>, default: nat, len: nat): (r: nat)
    requires default <= len
    ensures r <= len
  {
    match bound
    case None => default
    case Some(x) =>
      if x < 0 then (if x + len < 0 then 0 else x + len)
      else if x > len then len
      else x
  }

  /** Python's `s[start:stop]` with step 1: never fails, an empty result when the
      normalised stop does not exceed the normalised start. */
  function ListSlice<T>(s: seq<T>, start: Option<int>, stop: Option<int>): (r: seq<T>)
    ensures var lo := SliceIndex(start, 0, |s|);
            var hi := SliceIndex(stop, |s|, |s|);
            |r| == (if hi <= lo then 0 else hi - lo) &&
            forall k :: 0 <= k < |r| ==> r[k] == s[lo + k]
  {
    var lo := SliceIndex(start, 0, |s|);
    var hi := SliceIndex(stop, |s|, |s|);
    s[lo .. if hi < lo then lo else hi]
  }

  /** Python's `sum(lists, [])`: the in-order concatenation of index lists. The
      first list opens the result (`FlattenLast` shows that the last one closes it). */
  function Flatten(bs: seq<seq<nat>>): (r: seq<nat>)
    ensures |bs| > 0 ==> bs[0] <= r
  {
    if bs == [] then [] else bs[0] + Flatten(bs[1..])
  }

  /** Reference partition: the first `b` elements of the pool form a batch, and the
      rest is partitioned the same way; the last batch takes what is left. */
  function Partition(pool: seq<nat>, b: nat): seq<seq<nat>>
    requires b > 0
    decreases |pool|
  {
    if |pool| == 0 then []
    else if |pool| <= b then [pool]
    else [pool[..b]] + Partition(pool[b..], b)
  }

  /** The entries of the pool that batches `lo` to `hi` (exclusive) cover when each
      batch takes `b` entries and the last one takes what is left. */
  function BatchWindow(pool: seq<nat>, b: nat, lo: nat, hi: nat): seq<nat>
    requires lo <= hi
  {
    MulMono(lo, hi, b);
    pool[Min(lo * b, |pool|) .. Min(hi * b, |pool|)]
  }

  /** Slice `k` the partition loop takes from the pool: `pool[b*k : b*(k+1)]`,
      with the end written `b*k + b`. It holds the next `b` entries from `b*k` on,
      fewer at the end of the pool, none past it. */
  function Chunk(pool: seq<nat>, b: nat, k: nat): (r: seq<nat>)
    ensures var lower := b * k;
            |r| == (if lower < |pool| then Min(lower + b, |pool|) - lower else 0) &&
            r <= pool[Min(lower, |pool|)..]
  {
    SliceFrom(pool, b * k, b);
    ListSlice(pool, Some(b * k), Some(b * k + b))
  }

  /** `pool[lower : lower + width]` is the first `width` entries of the pool from
      `lower` on, or fewer when the pool ends first. */
  lemma SliceFrom(pool: seq<nat>, lower: nat, width: nat)
    ensures var r := ListSlice(pool, Some(lower), Some(lower + width));
            |r| == (if lower < |pool| then Min(lower + width, |pool|) - lower else 0) &&
            r <= pool[Min(lower, |pool|)..]
  {
  }

  /** `pool` holds every instance index of `[0, n)` exactly once, in some order. */
  ghost predicate IsPermutation(pool: seq<nat>, n: nat)
  {
    multiset(pool) == multiset(Range(0, n))
  }

  // ---------------------------------------------------------------- slicing

  /** Slicing a pool with the bounds the partition loop uses, `[lower:upper]` with
      `lower <= upper`, keeps the elements from `lower` up to `upper` or the end. */
  lemma ListSliceWithin(pool: seq<nat>, lower: nat, upper: nat)
    requires lower <= upper && lower <= |pool|
    ensures ListSlice(pool, Some(lower), Some(upper)) == pool[lower .. Min(upper, |pool|)]
  {
  }

  /** A window of the identity pool is itself a range. */
  lemma RangeWindow(n: nat, lo: nat, hi: nat)
    requires lo <= hi <= n
    ensures Range(0, n)[lo .. hi] == Range(lo, hi)
  {
  }

  // ---------------------------------------------------------------- flattening

  lemma {:induction false} FlattenAppend(a: seq<seq<nat>>, c: seq<seq<nat>>)
    ensures Flatten(a + c) == Flatten(a) + Flatten(c)
  {
    if a == [] {
      assert a + c == c;
    } else {
      assert (a + c)[1..] == a[1..] + c;
      FlattenAppend(a[1..], c);
    }
  }

  /** The last index list closes the concatenation: read in order, the batches
      end with the last one. */
  lemma {:induction false} FlattenLast(bs: seq<seq<nat>>)
    requires |bs| > 0
    ensures var last := bs[|bs| - 1];
            |last| <= |Flatten(bs)| && Flatten(bs)[|Flatten(bs)| - |last|..] == last
  {
    if |bs| > 1 {
      FlattenLast(bs[1..]);
      assert bs[1..][|bs| - 2] == bs[|bs| - 1];
    }
  }

  // ---------------------------------------------------------------- permutations

  /** Each index of `[lo, hi)` occurs once in `Range(lo, hi)`, and nothing else occurs. */
  lemma {:induction false} RangeCount(lo: nat, hi: nat, k: nat)
    ensures multiset(Range(lo, hi))[k] == if lo <= k < hi then 1 else 0
    decreases hi - lo
  {
    if lo < hi {
      RangeCons(lo, hi, k);
      RangeCount(lo + 1, hi, k);
    }
  }

  /** `range(lo, hi)` counts `lo` once more than `range(lo + 1, hi)` and every
      other value as often. */
  lemma RangeCons(lo: nat, hi: nat, k: nat)
    requires lo < hi
    ensures multiset(Range(lo, hi))[k] == multiset(Range(lo + 1, hi))[k] + if k == lo then 1 else 0
  {
    var rest := Range(lo + 1, hi);
    assert Range(lo, hi) == [lo] + rest;
    ConsCount(lo, rest, k);
  }

  /** Putting `x` in front of a pool adds one occurrence of `x` and no other. */
  lemma ConsCount(x: nat, rest: seq<nat>, k: nat)
    ensures multiset([x] + rest)[k] == multiset(rest)[k] + if k == x then 1 else 0
  {
    var first: seq<nat> := [x];
    assert multiset(first + rest) == multiset(first) + multiset(rest);
  }

  /** A permutation of `[0, n)` has `n` entries, every entry is an index below `n`,
      and every index below `n` occurs exactly once. */
  lemma PermutationCoversOnce(pool: seq<nat>, n: nat)
    requires IsPermutation(pool, n)
    ensures |pool| == n
    ensures forall i :: 0 <= i < |pool| ==> pool[i] < n
    ensures forall k: nat :: k < n ==> multiset(pool)[k] == 1
  {
    assert |multiset(pool)| == |pool|;
    assert |multiset(Range(0, n))| == |Range(0, n)|;
    forall i | 0 <= i < |pool| ensures pool[i] < n {
      assert pool[i] in multiset(pool);
      RangeCount(0, n, pool[i]);
    }
    forall k: nat | k < n ensures multiset(pool)[k] == 1 {
      RangeCount(0, n, k);
    }
  }

  /** The identity pool `list(range(n))` is a permutation of `[0, n)`, as is any
      pool with the same elements. */
  lemma IdentityIsPermutation(n: nat)
    ensures IsPermutation(Range(0, n), n)
    ensures forall k: nat :: k < n ==> multiset(Range(0, n))[k] == 1
  {
    PermutationCoversOnce(Range(0, n), n);
  }

  // ---------------------------------------------------------------- partition

  /** The partition has `ceil(|pool| / b)` batches. */
  lemma {:induction false} PartitionLength(pool: seq<nat>, b: nat)
    requires b > 0
    ensures |Partition(pool, b)| == CeilDiv(|pool|, b)
    decreases |pool|
  {
    if |pool| > b {
      var rest := pool[b..];
      PartitionLength(rest, b);
      assert Partition(pool, b) == [pool[..b]] + Partition(rest, b);
    }
  }

  /** Flattening the partition gives back the pool exactly, in order. */
  lemma {:induction false} PartitionFlatten(pool: seq<nat>, b: nat)
    requires b > 0
    ensures Flatten(Partition(pool, b)) == pool
    decreases |pool|
  {
    if |pool| > b {
      var p := Partition(pool, b);
      assert p[0] == pool[..b] && p[1..] == Partition(pool[b..], b);
      PartitionFlatten(pool[b..], b);
      assert pool[..b] + pool[b..] == pool;
    }
  }

  /** Every batch holds between 1 and `b` indices, and every batch but the last
      holds exactly `b`. */
  lemma {:induction false} PartitionShape(pool: seq<nat>, b: nat)
    requires b > 0
    ensures forall i :: 0 <= i < |Partition(pool, b)| ==> 0 < |Partition(pool, b)[i]| <= b
    ensures forall i :: 0 <= i < |Partition(pool, b)| - 1 ==> |Partition(pool, b)[i]| == b
    decreases |pool|
  {
    if |pool| > b {
      PartitionShape(pool[b..], b);
      var p := Partition(pool, b);
      var rest := Partition(pool[b..], b);
      assert p == [pool[..b]] + rest;
      forall i | 0 < i < |p| ensures p[i] == rest[i - 1] {
      }
    }
  }

  /** Batch `i` of the partition is the pool's window `[i*b, min((i+1)*b, |pool|))`,
      and that window starts inside the pool. */
  lemma {:induction false} PartitionAt(pool: seq<nat>, b: nat, i: nat)
    requires b > 0 && i < |Partition(pool, b)|
    ensures i * b < |pool|
    ensures Partition(pool, b)[i] == pool[i * b .. Min((i + 1) * b, |pool|)]
    decreases |pool|
  {
    if i > 0 {
      var rest := pool[b..];
      assert Partition(pool, b)[i] == Partition(rest, b)[i - 1];
      PartitionAt(rest, b, i - 1);
      MulSucc(i - 1, b);
      MulSucc(i, b);
      var start := (i - 1) * b;
      ShiftedWindow(pool, b, start, Min(start + b, |rest|));
    }
  }

  /** A window of the pool with its first `b` entries dropped is the window `b`
      further along in the pool. */
  lemma ShiftedWindow(pool: seq<nat>, b: nat, lo: nat, hi: nat)
    requires b <= |pool| && lo <= hi <= |pool| - b
    ensures pool[b..][lo .. hi] == pool[lo + b .. hi + b]
  {
  }

  /** Concatenating the first `i` batches gives the first `min(i*b, |pool|)` entries of
      the pool. */
  lemma {:induction false} PartitionPrefix(pool: seq<nat>, b: nat, i: nat)
    requires b > 0 && i <= |Partition(pool, b)|
    ensures Flatten(Partition(pool, b)[..i]) == pool[.. Min(i * b, |pool|)]
  {
    var p := Partition(pool, b);
    if i == 0 {
      assert p[..0] == [];
    } else {
      PartitionPrefix(pool, b, i - 1);
      PartitionAt(pool, b, i - 1);
      assert p[..i] == p[..i - 1] + [p[i - 1]];
      FlattenAppend(p[..i - 1], [p[i - 1]]);
      assert Flatten([p[i - 1]]) == p[i - 1] + Flatten([]);
      assert (i - 1) * b + b == i * b;
      assert pool[.. (i - 1) * b] + pool[(i - 1) * b .. Min(i * b, |pool|)] == pool[.. Min(i * b, |pool|)];
    }
  }

  /** Concatenating batches `lo` to `hi` (exclusive) gives the pool's window
      `[min(lo*b, |pool|), min(hi*b, |pool|))`. */
  lemma PartitionSegment(pool: seq<nat>, b: nat, lo: nat, hi: nat)
    requires b > 0 && lo <= hi <= |Partition(pool, b)|
    ensures Flatten(Partition(pool, b)[lo .. hi]) == BatchWindow(pool, b, lo, hi)
  {
    var p := Partition(pool, b);
    PartitionPrefix(pool, b, lo);
    PartitionPrefix(pool, b, hi);
    assert p[..hi] == p[..lo] + p[lo .. hi];
    FlattenAppend(p[..lo], p[lo .. hi]);
    MulMono(lo, hi, b);
    assert pool[.. Min(hi * b, |pool|)]
        == pool[.. Min(lo * b, |pool|)] + pool[Min(lo * b, |pool|) .. Min(hi * b, |pool|)];
  }

  /** The first `i` slices the partition loop appends, in order. */
  function Chunks(pool: seq<nat>, b: nat, i: nat): (r: seq<seq<nat>>)
    ensures |r| == i
  {
    if i == 0 then [] else Chunks(pool, b, i - 1) + [Chunk(pool, b, i - 1)]
  }

  /** One more round of the loop appends slice `i`. */
  lemma ChunksStep(pool: seq<nat>, b: nat, i: nat)
    ensures Chunks(pool, b, i + 1) == Chunks(pool, b, i) + [ListSlice(pool, Some(b * i), Some(b * (i + 1)))]
  {
    MulSucc(i, b);
  }

  /** Entry `k` of the appended slices is slice `k`. */
  lemma {:induction false} ChunksAt(pool: seq<nat>, b: nat, i: nat, k: nat)
    requires k < i
    ensures Chunks(pool, b, i)[k] == Chunk(pool, b, k)
  {
    if k < i - 1 {
      ChunksAt(pool, b, i - 1, k);
    }
  }

  /** The loop that appends the slices `pool[b*k : b*(k+1)]` for each of the
      `ceil(|pool| / b)` batches builds exactly the reference partition. */
  lemma SlicesArePartition(pool: seq<nat>, b: nat)
    requires b > 0
    ensures Chunks(pool, b, CeilDiv(|pool|, b)) == Partition(pool, b)
  {
    var bs := Chunks(pool, b, CeilDiv(|pool|, b));
    var p := Partition(pool, b);
    PartitionLength(pool, b);
    forall k | 0 <= k < |bs| ensures bs[k] == p[k] {
      ChunksAt(pool, b, |bs|, k);
      ChunkIsBatch(pool, b, k);
    }
  }

  /** Slice `k` taken by the loop is batch `k` of the reference partition. */
  lemma ChunkIsBatch(pool: seq<nat>, b: nat, k: nat)
    requires b > 0 && k < |Partition(pool, b)|
    ensures Chunk(pool, b, k) == Partition(pool, b)[k]
  {
    var lower := b * k;
    PartitionAt(pool, b, k);
    assert (k + 1) * b == lower + b by {
      MulSucc(k, b);
    }
    ListSliceWithin(pool, lower, lower + b);
  }

  /** Batch `i` of a permutation's partition is window `i` of the pool, holds
      between 1 and `b` indices (exactly `b` unless it is the last), and names only
      instances below `n`. */
  lemma PermutationBatch(pool: seq<nat>, n: nat, b: nat, i: nat)
    requires IsPermutation(pool, n)
    requires b > 0 && i < |Partition(pool, b)|
    ensures Partition(pool, b)[i] == BatchWindow(pool, b, i, i + 1)
    ensures 0 < |Partition(pool, b)[i]| <= b
    ensures i < |Partition(pool, b)| - 1 ==> |Partition(pool, b)[i]| == b
    ensures forall j :: 0 <= j < |Partition(pool, b)[i]| ==> Partition(pool, b)[i][j] < n
  {
    var batch := Partition(pool, b)[i];
    PartitionAt(pool, b, i);
    assert batch == BatchWindow(pool, b, i, i + 1) by {
      MulSucc(i, b);
    }
    PartitionShape(pool, b);
    assert forall j :: 0 <= j < |batch| ==> batch[j] < n by {
      PermutationCoversOnce(pool, n);
      WindowBelow(pool, n, i * b, Min((i + 1) * b, |pool|));
    }
  }

  /** Every entry of a window of a pool whose entries are below `n` is below `n`. */
  lemma WindowBelow(pool: seq<nat>, n: nat, lo: nat, hi: nat)
    requires lo <= hi <= |pool|
    requires forall i :: 0 <= i < |pool| ==> pool[i] < n
    ensures forall j :: 0 <= j < hi - lo ==> pool[lo .. hi][j] < n
  {
  }

  /** Without shuffling, batch `i` is `range(i*b, min((i+1)*b, n))`, ascending. */
  lemma IdentityBatch(n: nat, b: nat, i: nat)
    requires b > 0 && i < CeilDiv(n, b)
    ensures i * b < n
    ensures |Partition(Range(0, n), b)| == CeilDiv(n, b)
    ensures Partition(Range(0, n), b)[i] == Range(i * b, Min((i + 1) * b, n))
  {
    PartitionLength(Range(0, n), b);
    PartitionAt(Range(0, n), b, i);
    RangeWindow(n, i * b, Min((i + 1) * b, n));
  }
}
