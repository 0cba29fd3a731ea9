# MatchZoo `DataGenerator` batch partition, in Dafny

This project models the index side of MatchZoo's `DataGenerator`
(`matchzoo/data_generator/data_generator.py`): a generator holds a dataset size,
a batch size and a shuffle flag, and keeps `_batch_indices`, the current
partition of the instance indices `[0, n)` into batches. The partition is built
at construction and rebuilt in full by `reset` and `on_epoch_end`: the index pool
(the identity `list(range(n))`, or a random permutation when shuffling) is cut by
a loop into `ceil(n / batch_size)` contiguous slices, the last possibly short.
`len(generator)` is the batch count, `num_instance` the dataset size, and
`generator[i]` / `generator[start:stop]` select one batch's index list or the
in-order concatenation of several.

Two files:

- `batching.dfy`, module `Batching`: the pure side. `CeilDiv` (the batch count),
  `Range` (`list(range(lo, hi))`), `Chunks` (the slices the rebuild loop has appended so far), `SliceIndex`/`ListSlice` (Python list slicing
  with step 1: `None`, negative and out-of-range bounds), `Flatten`
  (`sum(lists, [])`), `Partition` (an independent, recursive reference
  definition of "cut the pool into chunks of `b`"), `IsPermutation`, and the
  lemmas relating them.
- `data_generator.dfy`, module `DataGenerators`: class `DataGenerator` with
  `const` fields `n`, `batchSize`, `shuffle` (set once at construction, never
  changed) and the mutable field `batches`. `SetIndices` is the source's loop
  that appends slices; it is proved to build exactly `Partition(pool, batchSize)`
  and to establish the object invariant `Valid()`: the batches, read in order,
  are a permutation of `[0, n)` (the identity without shuffling) cut by the
  reference partition. `Reset` and `OnEpochEnd` only call it and may change
  nothing but `batches`. `GetItem` and `GetSlice` return index lists.

The random permutation drawn when shuffling is a parameter `perm` of the
constructor, `Reset` and `OnEpochEnd`, required to be a permutation of `[0, n)`
only when `shuffle` is set.

## Model

| member | source | states |
|---|---|---|
| `Batching.CeilDiv` | matchzoo/data_generator/data_generator.py:96 | the batch count is the least `r` with `r * b >= n`: `(r - 1) * b < n` when `r > 0`, and it is 0 exactly when `n` is 0 |
| `Batching.CeilDivUnique` | matchzoo/data_generator/data_generator.py:96 | any count that covers `n` and is least equals `ceil(n / b)` |
| `Batching.Range` | matchzoo/data_generator/data_generator.py:120 | `list(range(lo, hi))` has `hi - lo` entries (none when `lo >= hi`) and entry `k` is `lo + k` |
| `Batching.SliceIndex` | matchzoo/data_generator/data_generator.py:125 | a normalised slice bound always lies within `[0, len]` |
| `Batching.ListSlice` | matchzoo/data_generator/data_generator.py:78 | Python's `s[start:stop]` with step 1: with both bounds normalised by `SliceIndex`, it has `stop - start` entries (none when `stop <= start`) and entry `k` is `s[start + k]` |
| `Batching.ListSliceWithin` | matchzoo/data_generator/data_generator.py:123-125 | `pool[lower:upper]` with `lower <= upper` and `lower` inside the pool keeps entries from `lower` to `min(upper, len)` |
| `Batching.RangeWindow` | matchzoo/data_generator/data_generator.py:120 | a window of `list(range(n))` is the range of its bounds |
| `Batching.Flatten` | matchzoo/data_generator/data_generator.py:78 | `sum(lists, [])`: the first list opens the concatenation |
| `Batching.FlattenLast` | matchzoo/data_generator/data_generator.py:78 | the last list closes the concatenation |
| `Batching.FlattenAppend` | matchzoo/data_generator/data_generator.py:78 | concatenating two runs of batches concatenates their index lists |
| `Batching.RangeCount` | matchzoo/data_generator/data_generator.py:120 | in `range(lo, hi)` each index of `[lo, hi)` occurs once and no other value occurs |
| `Batching.PermutationCoversOnce` | matchzoo/data_generator/data_generator.py:117-120 | a permutation pool has `n` entries, each below `n`, and each index below `n` occurs exactly once |
| `Batching.IdentityIsPermutation` | matchzoo/data_generator/data_generator.py:119-120 | each index below `n` occurs exactly once in `list(range(n))`, so the unshuffled pool is a permutation of `[0, n)` |
| `Batching.PartitionLength` | matchzoo/data_generator/data_generator.py:121-122 | the partition of a pool has `ceil(len(pool) / b)` batches |
| `Batching.PartitionFlatten` | matchzoo/data_generator/data_generator.py:117-125 | concatenating the batches in order gives back the pool exactly |
| `Batching.PartitionShape` | matchzoo/data_generator/data_generator.py:122-125 | no batch is empty, none exceeds `b`, and every batch but the last has exactly `b` indices |
| `Batching.PartitionAt` | matchzoo/data_generator/data_generator.py:123-125 | batch `i` is the pool window `[i*b, min((i+1)*b, len(pool)))` and starts inside the pool |
| `Batching.PartitionPrefix` | matchzoo/data_generator/data_generator.py:77-78 | the first `i` batches concatenated are the pool's first `min(i*b, len(pool))` entries |
| `Batching.PartitionSegment` | matchzoo/data_generator/data_generator.py:77-78 | batches `lo` to `hi` concatenated are the pool window `[min(lo*b, len), min(hi*b, len))` |
| `Batching.Chunk` | matchzoo/data_generator/data_generator.py:123-125 | `pool[b*k : b*(k+1)]` holds the next `b` entries of the pool from `b*k` on, fewer at the end of the pool and none past it |
| `Batching.Chunks` | matchzoo/data_generator/data_generator.py:122-125 | after `i` rounds the loop has appended exactly `i` slices |
| `Batching.ChunksAt` | matchzoo/data_generator/data_generator.py:122-125 | the `k`-th appended entry is the slice `pool[b*k : b*(k+1)]` |
| `Batching.ChunkIsBatch` | matchzoo/data_generator/data_generator.py:123-125 | the slice `pool[b*k : b*(k+1)]` is batch `k` of the reference partition |
| `Batching.SlicesArePartition` | matchzoo/data_generator/data_generator.py:121-125 | appending `pool[b*k : b*(k+1)]` for each of the `ceil(len / b)` batches builds exactly the reference partition |
| `Batching.PermutationBatch` | matchzoo/data_generator/data_generator.py:122-125 | a batch of a permutation's partition is its window of the pool, holds 1 to `b` indices (exactly `b` unless last), all below `n` |
| `Batching.IdentityBatch` | matchzoo/data_generator/data_generator.py:119-125 | without shuffling batch `i` is `range(i*b, min((i+1)*b, n))` and there are `ceil(n / b)` batches |
| `DataGenerators.DataGenerator.Pool` | matchzoo/data_generator/data_generator.py:117-120 | the pool a rebuild cuts is a permutation of `[0, n)` whenever the drawn one is, and without shuffling it is `list(range(n))`: `n` entries, entry `k` equal to `k` |
| `DataGenerators.DataGenerator.constructor` | matchzoo/data_generator/data_generator.py:51-70 | stores size, batch size and flag, and builds the partition of the identity or drawn pool, establishing the invariant |
| `DataGenerators.DataGenerator.Len` | matchzoo/data_generator/data_generator.py:94-96 | `len(generator)` is `ceil(n / batch_size)` and equals the number of stored batches |
| `DataGenerators.DataGenerator.StoredBatchCount` | matchzoo/data_generator/data_generator.py:121-122 | a valid generator stores `ceil(n / batch_size)` batches |
| `DataGenerators.DataGenerator.CoversEveryInstanceOnce` | matchzoo/data_generator/data_generator.py:117-125 | the stored batches hold every index of `[0, n)` exactly once and nothing else, shuffled or not |
| `DataGenerators.DataGenerator.UnshuffledBatch` | matchzoo/data_generator/data_generator.py:119-125 | without shuffling stored batch `i` is `range(i*b, min((i+1)*b, n))` in ascending order |
| `DataGenerators.DataGenerator.NumInstance` | matchzoo/data_generator/data_generator.py:106-109 | `num_instance` equals the number of indices the batches hold together |
| `DataGenerators.DataGenerator.SetIndices` | matchzoo/data_generator/data_generator.py:111-125 | the loop replaces `batches` (and only it) by the reference partition of the pool and re-establishes the invariant |
| `DataGenerators.DataGenerator.Reset` | matchzoo/data_generator/data_generator.py:102-104 | recomputes the partition in full; without shuffling the result equals the previous one |
| `DataGenerators.DataGenerator.OnEpochEnd` | matchzoo/data_generator/data_generator.py:98-100 | the same rebuild as `Reset`; without shuffling nothing changes |
| `DataGenerators.DataGenerator.GetItem` | matchzoo/data_generator/data_generator.py:72-80 | `generator[item]` is the stored batch, i.e. pool window `item`, with 1 to `batch_size` indices (exactly `batch_size` unless last), all below `n` |
| `DataGenerators.DataGenerator.GetSlice` | matchzoo/data_generator/data_generator.py:77-78 | `generator[start:stop]` is the in-order concatenation of the selected batches, which is the pool window from the first selected batch to the end of the last |
| `DataGenerators.UnitBatches` | matchzoo/data_generator/data_generator.py:21-41 | for `n >= 2` instances with batch size 1 and no shuffling: `n` batches, batch 0 is `[0]`, and the first two batches together are `[0, 1]` |
| `DataGenerators.ToyBatchSizeDefault` | matchzoo/data_generator/data_generator.py:54 | 49 instances with the default batch size 32: batches `range(0, 32)` and `range(32, 49)` |
| `DataGenerators.FirstUnitBatch` | matchzoo/data_generator/data_generator.py:26 | on an unshuffled generator with batch size 1 over at least two instances, `generator[0]` selects instance 0 alone |
| `DataGenerators.UnitHead` | matchzoo/data_generator/data_generator.py:39-46 | on such a generator, `generator[:2]` and `generator[0:2]` select instances 0 and 1 |
| `DataGenerators.UnitBatchSession` | matchzoo/data_generator/data_generator.py:21-47 | for `n >= 2`, batch size 1, no shuffling: `len == n`, `num_instance == n`, batch 0 is `[0]`, and `[:2]` after `reset` and `[0:2]` after `on_epoch_end` both give `[0, 1]` |
| `DataGenerators.ToySession` | matchzoo/data_generator/data_generator.py:21-47 | the documented session on the 49-instance toy set: lengths 49 and 49, batch 0 `[0]`, both two-batch slices `[0, 1]` |

## Left out

- `_get_batch_of_transformed_samples` (lines 83-92): `DataPack` indexing and `.unpack()` are calls into a class that is not part of this model; `GetItem` and `GetSlice` return the index lists that would be passed to it.
- `np.random.permutation` (line 118): the random draw is the parameter `perm`, constrained to be a permutation of `[0, n)`; uniformity, seeding and the process-wide random state are not modelled.
- The `keras.utils.Sequence` base class and its iteration protocol (line 12) belong to the host framework.
- GetItem: Python's negative indices and the `IndexError` for an index out of range are not modelled; the method requires `0 <= item < |batches|`.
- GetSlice: slices with a step other than 1 are not modelled; `start` and `stop` follow Python's rules for `None`, negative and out-of-range bounds.
- The dataset size is the constant field `n`: `num_instance` is read live from the data pack in the source, and a data pack that changes size between rebuilds is not modelled.
- DataGenerators.DataGenerator.constructor: requires a positive batch size; the source does not check it (a batch size of 0 raises `ZeroDivisionError` in `__len__`; a negative one makes construction raise `ValueError` from `len()`, which refuses a negative `__len__`, unless its magnitude exceeds the dataset size, in which case the length is 0 and there are no batches).
- The default arguments `batch_size=32` and `shuffle=True` (lines 54-55) are not modelled: the constructor takes the batch size and the flag explicitly.
- CeilDiv: computes the exact integer ceiling; the source divides in floating point (`math.ceil(n / b)`), which agrees when the dataset size is below 2^53 and the batch size is below `n * 2^1075`; for a larger batch size `n / b` underflows to `0.0`, and the source builds no batches and loses every instance, where the model builds one batch holding the whole pool.
- The text and label values printed by the doctest (lines 27-47) depend on the toy dataset's contents; only the counts and indices are modelled.
