/** The batch-index generator: it owns a dataset size, a batch size and a shuffle
    flag, keeps the current partition of instance indices into batches, rebuilds it
    at construction, on reset and at the end of every epoch, and answers indexed
    and sliced access with the selected batches' index lists. */
module DataGenerators {
  import opened Batching

  class DataGenerator {
    /** Number of instances in the dataset, `len(data_pack)`. */
    const n: nat
    /** Number of instances per batch. */
    const batchSize: nat
    /** Whether each rebuild draws a fresh permutation of the instances. */
    const shuffle: bool
    /** The current partition: one index list per batch. */
    var batches: seq<seq<nat>>

    /** The object invariant: the batches, read in order, are a permutation of the
        instance indices (the identity when not shuffling), cut into batches of
        `batchSize` by the reference partition. */
    ghost predicate Valid()
      reads this
    {
      batchSize > 0 &&
      IsPermutation(Flatten(batches), n) &&
      (!shuffle ==> Flatten(batches) == Range(0, n)) &&
      batches == Partition(Flatten(batches), batchSize)
    }

    /** The pool a rebuild cuts up: the drawn permutation when shuffling, otherwise
        `list(range(n))`. */
    function Pool(perm: seq<nat>): (r: seq<nat>)
      reads this
      ensures (shuffle ==> IsPermutation(perm, n)) ==> IsPermutation(r, n)
      ensures !shuffle ==> |r| == n && forall k :: 0 <= k < |r| ==> r[k] == k
    {
      IdentityIsPermutation(n);
      if shuffle then perm else Range(0, n)
    }

    /** Builds the generator and its first partition. `perm` stands for the
        permutation the random source would draw; it is only read when shuffling. */
    constructor (n: nat, batchSize: nat, shuffle: bool, perm: seq<nat>)
      requires batchSize > 0
      requires shuffle ==> IsPermutation(perm, n)
      ensures this.n == n && this.batchSize == batchSize && this.shuffle == shuffle
      ensures Valid()
      ensures batches == Partition(Pool(perm), batchSize)
    {
      this.n := n;
      this.batchSize := batchSize;
      this.shuffle := shuffle;
      batches := [];
      new;
      SetIndices(perm);
    }

    /** `len(generator)`: the number of batches, `ceil(n / batchSize)`, which is
        the number of batches currently stored. */
    function Len(): (r: nat)
      reads this
      requires batchSize > 0
      ensures r * batchSize >= n && (r > 0 ==> (r - 1) * batchSize < n)
      ensures Valid() ==> r == |batches|
    {
      StoredBatchCount();
      CeilDiv(n, batchSize)
    }

    /** A valid partition stores `ceil(n / batchSize)` batches. */
    lemma StoredBatchCount()
      requires batchSize > 0
      ensures Valid() ==> |batches| == CeilDiv(n, batchSize)
    {
      if Valid() {
        PermutationCoversOnce(Flatten(batches), n);
        PartitionLength(Flatten(batches), batchSize);
      }
    }

    /** Read in order, the batches hold every instance index of `[0, n)` exactly
        once and nothing else, whether or not the generator shuffles. */
    lemma CoversEveryInstanceOnce()
      requires Valid()
      ensures |Flatten(batches)| == n
      ensures forall k: nat :: k < n ==> multiset(Flatten(batches))[k] == 1
      ensures forall j :: 0 <= j < |Flatten(batches)| ==> Flatten(batches)[j] < n
    {
      PermutationCoversOnce(Flatten(batches), n);
    }

    /** Without shuffling, stored batch `i` is `range(i * batchSize,
        min((i + 1) * batchSize, n))` in ascending order. */
    lemma UnshuffledBatch(i: nat)
      requires Valid() && !shuffle
      requires i < |batches|
      ensures batches[i] == Range(i * batchSize, Min((i + 1) * batchSize, n))
    {
      StoredBatchCount();
      IdentityBatch(n, batchSize, i);
    }

    /** `num_instance`: the dataset size, which is the number of indices held by
        the batches together. */
    function NumInstance(): (r: nat)
      reads this
      requires Valid()
      ensures r == |Flatten(batches)|
    {
      PermutationCoversOnce(Flatten(batches), n);
      n
    }

    /** Rebuilds the partition: takes the pool and appends its slices
        `[batchSize * i : batchSize * (i + 1)]` for each of the `Len()` batches.
        Only `batches` changes. */
    method SetIndices(perm: seq<nat>)
      requires batchSize > 0
      requires shuffle ==> IsPermutation(perm, n)
      modifies this`batches
      ensures batches == Partition(Pool(perm), batchSize)
      ensures Valid()
    {
      var pool := Pool(perm);
      var count := Len();
      batches := [];
      var i := 0;
      while i < count
        invariant i <= count
        invariant batches == Chunks(pool, batchSize, i)
      {
        var lower := batchSize * i;
        var upper := batchSize * (i + 1);
        ChunksStep(pool, batchSize, i);
        batches := batches + [ListSlice(pool, Some(lower), Some(upper))];
        i := i + 1;
      }
      IdentityIsPermutation(n);
      PermutationCoversOnce(pool, n);
      SlicesArePartition(pool, batchSize);
      PartitionFlatten(pool, batchSize);
    }

    /** `reset()`: recomputes the whole partition from a fresh pool. Without
        shuffling the partition comes out as it was. */
    method Reset(perm: seq<nat>)
      requires Valid()
      requires shuffle ==> IsPermutation(perm, n)
      modifies this`batches
      ensures Valid()
      ensures batches == Partition(Pool(perm), batchSize)
      ensures !shuffle ==> batches == old(batches)
    {
      SetIndices(perm);
    }

    /** `on_epoch_end()`: the same rebuild as `Reset`, called by the training loop
        after each pass over the data. */
    method OnEpochEnd(perm: seq<nat>)
      requires Valid()
      requires shuffle ==> IsPermutation(perm, n)
      modifies this`batches
      ensures Valid()
      ensures batches == Partition(Pool(perm), batchSize)
      ensures !shuffle ==> batches == old(batches)
    {
      SetIndices(perm);
    }

    /** `generator[item]` for an integer `item`: the index list of that batch. It
        is the window `[item * batchSize, min((item + 1) * batchSize, n))` of the
        pool, holds between 1 and `batchSize` indices, and every index names an
        instance. */
    method GetItem(item: nat) returns (indices: seq<nat>)
      requires Valid()
      requires item < |batches|
      ensures indices == batches[item]
      ensures indices == BatchWindow(Flatten(batches), batchSize, item, item + 1)
      ensures 0 < |indices| <= batchSize
      ensures item < |batches| - 1 ==> |indices| == batchSize
      ensures forall j :: 0 <= j < |indices| ==> indices[j] < n
    {
      indices := batches[item];
      PermutationBatch(Flatten(batches), n, batchSize, item);
    }

    /** `generator[start:stop]`: the in-order concatenation of the selected batches'
        index lists, which is the window of the pool from the first selected
        batch's start to the last selected batch's end. */
    method GetSlice(start: Option<int>, stop: Option<int>) returns (indices: seq<nat>)
      requires Valid()
      ensures indices == Flatten(ListSlice(batches, start, stop))
      ensures var lo := SliceIndex(start, 0, |batches|);
              var hi := SliceIndex(stop, |batches|, |batches|);
              indices == if hi <= lo then []
                         else BatchWindow(Flatten(batches), batchSize, lo, hi)
    {
      indices := Flatten(ListSlice(batches, start, stop));
      var pool := Flatten(batches);
      var lo := SliceIndex(start, 0, |batches|);
      var hi := SliceIndex(stop, |batches|, |batches|);
      PermutationCoversOnce(pool, n);
      if lo < hi {
        PartitionSegment(pool, batchSize, lo, hi);
        PartitionAt(pool, batchSize, lo);
      } else {
        assert ListSlice(batches, start, stop) == [];
      }
    }
  }

  /** Any dataset of at least two instances with batch size 1 and no shuffling:
      one batch per instance, batch 0 is instance 0, and the first two batches
      together are instances 0 and 1. */
  lemma UnitBatches(size: nat)
    requires size >= 2
    ensures CeilDiv(size, 1) == size
    ensures |Partition(Range(0, size), 1)| == size
    ensures Partition(Range(0, size), 1)[0] == [0]
    ensures Flatten(Partition(Range(0, size), 1)[..2]) == [0, 1]
  {
    var p := Partition(Range(0, size), 1);
    CeilDivUnique(size, 1, size);
    assert |p| == size by {
      PartitionLength(Range(0, size), 1);
    }
    assert p[0] == [0] by {
      IdentityBatch(size, 1, 0);
      assert Range(0, 1) == [0];
    }
    assert Flatten(p[..2]) == [0, 1] by {
      PartitionPrefix(Range(0, size), 1, 2);
      RangeWindow(size, 0, 2);
      assert Range(0, size)[.. 2] == Range(0, size)[0 .. 2];
      assert Range(0, 2) == [0, 1];
    }
  }

  /** The same 49 instances with the default batch size 32: two batches, the full
      `[0, 32)` and the short `[32, 49)`. */
  lemma ToyBatchSizeDefault()
    ensures CeilDiv(49, 32) == 2
    ensures Partition(Range(0, 49), 32) == [Range(0, 32), Range(32, 49)]
  {
    var p := Partition(Range(0, 49), 32);
    IdentityBatch(49, 32, 0);
    IdentityBatch(49, 32, 1);
    assert p == [p[0], p[1]];
  }

  /** An unshuffled generator with batch size 1 over at least two instances. */
  ghost predicate UnitGenerator(g: DataGenerator)
    reads g
  {
    g.Valid() && !g.shuffle && g.batchSize == 1 && g.n >= 2
  }

  /** On such a generator, batch 0 is instance 0. */
  method FirstUnitBatch(g: DataGenerator) returns (first: seq<nat>)
    requires UnitGenerator(g)
    ensures first == [0]
  {
    g.StoredBatchCount();
    UnitBatches(g.n);
    first := g.GetItem(0);
  }

  /** On such a generator, `[:2]` and `[0:2]` both give instances 0 and 1. */
  method UnitHead(g: DataGenerator, start: Option<int>) returns (head: seq<nat>)
    requires UnitGenerator(g)
    requires start == None || start == Some(0)
    ensures head == [0, 1]
  {
    UnitBatches(g.n);
    head := g.GetSlice(start, Some(2));
    assert ListSlice(g.batches, start, Some(2)) == Partition(Range(0, g.n), 1)[..2];
  }

  /** The documented session, for any dataset of at least two instances with batch
      size 1 and no shuffling: construct, read the length, the instance count and
      batch 0, reset and take `[:2]`, end the epoch and take `[0:2]`. */
  method UnitBatchSession(size: nat) returns (len: nat, count: nat, first: seq<nat>, head: seq<nat>, again: seq<nat>)
    requires size >= 2
    ensures len == size && count == size
    ensures first == [0]
    ensures head == [0, 1] && again == head
  {
    var g := new DataGenerator(size, 1, false, []);
    len := g.Len();
    count := g.NumInstance();
    first := FirstUnitBatch(g);
    g.Reset([]);
    head := UnitHead(g, None);
    g.OnEpochEnd([]);
    again := UnitHead(g, Some(0));
  }

  /** The toy classification set of 49 instances run through that session. */
  method ToySession() returns (len: nat, count: nat, first: seq<nat>, head: seq<nat>, again: seq<nat>)
    ensures len == 49 && count == 49
    ensures first == [0]
    ensures head == [0, 1] && again == head
  {
    len, count, first, head, again := UnitBatchSession(49);
  }
}
