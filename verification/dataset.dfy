/** The world model's training data (`rl/data/dataset.py`): the environment
    buffer seen as a map-style dataset (`RLDataset`) and as an iterable one
    (`RLDataset_iter`), and the data module (`RLDataModule`) that splits the
    dataset at random into training and validation subsets and serves them
    in unshuffled batches.

    The buffer's contents are passed in; the random permutation drawn by
    `random_split` is an input. */
module Dataset {
  import opened Numerics

  /** The replay buffer's parallel arrays (`obs_buf`, `act_buf`, `rew_buf`,
      `obs_next_buf`, `ter_buf`), each as long as the buffer's capacity, and
      its fill level `size`. */
  datatype Buffer = Buffer(obs: seq<Row>, act: seq<Row>, rew: seq<real>, obsNext: seq<Row>, ter: seq<bool>, size: nat)

  /** One transition `(o, a, r, o_next, d)`. */
  datatype Item = Item(obs: Row, act: Row, rew: real, obsNext: Row, ter: bool)

  datatype DataError =
    | IndexError        // an index outside the arrays
    | NoSplit           // a loader requested before `update_dataset` set the subsets
    | InvalidBatchSize  // a loader with a batch size that is not positive

  /** The five arrays have one slot per buffer position and the fill level
      does not exceed the capacity. */
  predicate Aligned(buf: Buffer) {
    |buf.obs| == |buf.act| == |buf.rew| == |buf.obsNext| == |buf.ter| && buf.size <= |buf.obs|
  }

  /** `RLDataset.__len__`: the buffer's fill level, not its capacity. */
  function Len(buf: Buffer): nat {
    buf.size
  }

  /** The slot Python's `a[idx]` reads in an array of length `n`: negative
      indices count from the end; anything else is out of range. */
  function PyIndex(idx: int, n: nat): (r: Option<nat>)
    ensures r.Some? <==> -(n as int) <= idx < n
    ensures r.Some? ==> r.value < n && (r.value == idx || r.value == idx + n)
  {
    if 0 <= idx < n then Some(idx)
    else if -(n as int) <= idx < 0 then Some(idx + n)
    else None
  }

  /** `RLDataset.__getitem__`: the five fields of one slot. */
  function GetItem(buf: Buffer, idx: int): (r: Result<Item, DataError>)
    requires Aligned(buf)
    ensures r.Ok? <==> -|buf.obs| <= idx < |buf.obs|
    ensures r.Err? ==> r.error == IndexError
    ensures r.Ok? ==> exists j :: 0 <= j < |buf.obs| && (j == idx || j == idx + |buf.obs|) &&
                                  r.value == Item(buf.obs[j], buf.act[j], buf.rew[j], buf.obsNext[j], buf.ter[j])
  {
    match PyIndex(idx, |buf.obs|)
    case None => Err(IndexError)
    case Some(j) => Ok(Item(buf.obs[j], buf.act[j], buf.rew[j], buf.obsNext[j], buf.ter[j]))
  }

  /** Every index below `__len__` is readable, and a negative index reads
      the same transition as its non-negative counterpart. */
  lemma IndicesBelowLen(buf: Buffer, idx: int)
    requires Aligned(buf) && 0 <= idx < Len(buf)
    ensures GetItem(buf, idx).Ok?
    ensures GetItem(buf, idx - |buf.obs|) == GetItem(buf, idx)
  {
  }

  // ---------------------------------------------------------------------
  // The iterable dataset

  /** What the buffer's `return_all()` hands to `__iter__`. */
  datatype AllData = AllData(obs: seq<Row>, act: seq<Row>, rew: seq<real>, obsNext: seq<Row>, ter: seq<bool>)

  /** The length of the shortest of the four arrays other than the terminals. */
  function Shortest(data: AllData): nat {
    Min(Min(|data.obs|, |data.act|), Min(|data.rew|, |data.obsNext|))
  }

  /** `RLDataset_iter.__iter__`: one aligned tuple per terminal flag, in
      order; when another array is shorter than the terminals the generator
      raises `IndexError` (`failed`) after yielding the tuples it could. */
  method Iterate(data: AllData) returns (items: seq<Item>, failed: bool)
    ensures failed <==> Shortest(data) < |data.ter|
    ensures |items| == Min(Shortest(data), |data.ter|)
    ensures forall i :: 0 <= i < |items| ==>
              items[i] == Item(data.obs[i], data.act[i], data.rew[i], data.obsNext[i], data.ter[i])
  {
    items := [];
    failed := false;
    var i := 0;
    while i < |data.ter|
      invariant 0 <= i <= |data.ter| && i <= Shortest(data) && |items| == i
      invariant forall k :: 0 <= k < i ==>
                  items[k] == Item(data.obs[k], data.act[k], data.rew[k], data.obsNext[k], data.ter[k])
    {
      if i >= |data.obs| || i >= |data.act| || i >= |data.rew| || i >= |data.obsNext| {
        failed := true;
        break;
      }
      items := items + [Item(data.obs[i], data.act[i], data.rew[i], data.obsNext[i], data.ter[i])];
      i := i + 1;
    }
  }

  /** The iterable dataset yields, for arrays of one length, exactly the
      transitions the map-style dataset returns at indices `0 .. len - 1`. */
  lemma IterateAgreesWithGetItem(buf: Buffer, items: seq<Item>)
    requires Aligned(buf)
    requires |items| == buf.size
    requires forall i :: 0 <= i < |items| ==>
               items[i] == Item(buf.obs[i], buf.act[i], buf.rew[i], buf.obsNext[i], buf.ter[i])
    ensures forall i :: 0 <= i < Len(buf) ==> GetItem(buf, i) == Ok(items[i])
  {
  }

  /** `super(C, obj)` needs `obj` to be an instance of `C`; the classes
      involved and their base-class chains. */
  datatype PyClass = RLDatasetIterClass | RLDatasetClass | IterableDatasetClass | DatasetClass

  function Mro(c: PyClass): (chain: seq<PyClass>)
    ensures |chain| >= 1 && chain[0] == c
  {
    match c
    case RLDatasetIterClass => [RLDatasetIterClass, IterableDatasetClass, DatasetClass]
    case RLDatasetClass => [RLDatasetClass, DatasetClass]
    case IterableDatasetClass => [IterableDatasetClass, DatasetClass]
    case DatasetClass => [DatasetClass]
  }

  /** The iterable dataset over a buffer. */
  datatype IterDataset = IterDataset(buffer: Buffer)

  /** The outcome of `super(cls, self).__init__()` for an object of class `objClass`. */
  function SuperInit(cls: PyClass, objClass: PyClass): (ok: bool)
    ensures ok <==> cls in Mro(objClass)
  {
    cls in Mro(objClass)
  }

  /** `RLDataset_iter.__init__` as written: it calls
      `super(RLDataset, self).__init__()`, and an `RLDataset_iter` is not an
      `RLDataset`. */
  function NewIterDatasetAsWritten(buf: Buffer): (r: Option<IterDataset>)
    ensures r.Some? ==> r.value.buffer == buf
  {
    if SuperInit(RLDatasetClass, RLDatasetIterClass) then Some(IterDataset(buf)) else None
  }

  /** Constructing the iterable dataset always raises `TypeError`. */
  lemma IterDatasetNeverConstructed(buf: Buffer)
    ensures NewIterDatasetAsWritten(buf).None?
  {
    assert Mro(RLDatasetIterClass) == [RLDatasetIterClass, IterableDatasetClass, DatasetClass];
  }

  /** `RLDataset_iter.__init__` with the evidently intended
      `super(RLDataset_iter, self).__init__()`. */
  function NewIterDataset(buf: Buffer): (r: Option<IterDataset>)
    ensures r.Some? ==> r.value.buffer == buf
  {
    if SuperInit(RLDatasetIterClass, RLDatasetIterClass) then Some(IterDataset(buf)) else None
  }

  /** The corrected constructor succeeds for every buffer, and the dataset
      reports the buffer's fill level as its length. */
  lemma IterDatasetConstructed(buf: Buffer)
    ensures NewIterDataset(buf).Some?
    ensures Len(NewIterDataset(buf).value.buffer) == buf.size
  {
    assert Mro(RLDatasetIterClass)[0] == RLDatasetIterClass;
  }

  // ---------------------------------------------------------------------
  // The data module

  /** `val = int(val_ratio * len)` and `train = len - val`. */
  function SplitSizes(valRatio: real, n: nat): (sizes: (int, int))
    ensures sizes.0 + sizes.1 == n
    ensures 0.0 <= valRatio <= 1.0 ==>
              0 <= sizes.1 <= n && sizes.1 as real <= valRatio * n as real < sizes.1 as real + 1.0
  {
    var val := Trunc(valRatio * n as real);
    assert 0.0 <= valRatio <= 1.0 ==> 0.0 <= valRatio * n as real <= n as real by {
      if 0.0 <= valRatio <= 1.0 {
        ScaledWithin(valRatio, n as real);
      }
    }
    (n - val, val)
  }

  /** The configured ratio 0.2 keeps 200 of 1000 transitions for validation. */
  lemma ExampleSplitSizes()
    ensures SplitSizes(0.2, 1000) == (800, 200)
  {
    assert 0.2 * 1000.0 == 200.0;
  }

  /** `perm` lists `0 .. n - 1` in some order (`torch.randperm(n)`): every
      entry is below `n`, every number below `n` occurs, and none twice. */
  predicate IsPermutation(perm: seq<nat>, n: nat) {
    && |perm| == n
    && (forall i :: 0 <= i < n ==> perm[i] < n)
    && (forall k :: 0 <= k < n ==> k in perm)
    && (forall i, j :: 0 <= i < j < n ==> perm[i] != perm[j])
  }

  /** The two subsets: dataset indices for training and for validation. */
  datatype Split = Split(train: seq<nat>, val: seq<nat>)

  /** A `DataLoader` over a subset. */
  datatype Loader = Loader(indices: seq<nat>, batchSize: nat, shuffle: bool)

  /** `random_split(dataset, [train, val])` with the permutation `perm`:
      the first `train` entries of the permutation, then the rest. */
  function RandomSplit(perm: seq<nat>, valRatio: real): (s: Split)
    requires 0.0 <= valRatio <= 1.0
    ensures s.train + s.val == perm
    ensures (|s.train|, |s.val|) == SplitSizes(valRatio, |perm|)
  {
    var (train, _) := SplitSizes(valRatio, |perm|);
    Split(perm[..train], perm[train..])
  }

  /** The split partitions the dataset: every index below `len` lands in
      exactly one of the two subsets. */
  lemma SplitPartitions(perm: seq<nat>, n: nat, valRatio: real, k: nat)
    requires IsPermutation(perm, n) && 0.0 <= valRatio <= 1.0 && k < n
    ensures var s := RandomSplit(perm, valRatio);
            (k in s.train) != (k in s.val)
  {
    var s := RandomSplit(perm, valRatio);
    var t := |s.train|;
    assert s.train == perm[..t] && s.val == perm[t..];
    var p := Position(perm, n, k);
    if p < t {
      assert k in s.train by { assert perm[..t][p] == k; }
      assert k !in s.val by { NotInOtherPart(perm, n, t, n, p); }
    } else {
      assert k in s.val by { assert perm[t..][p - t] == k; }
      assert k !in s.train by { NotInOtherPart(perm, n, 0, t, p); }
    }
  }

  /** Where a dataset index sits in the permutation. */
  lemma Position(perm: seq<nat>, n: nat, k: nat) returns (p: nat)
    requires IsPermutation(perm, n) && k < n
    ensures p < n && perm[p] == k
  {
    assert k in perm;
    p :| 0 <= p < n && perm[p] == k;
  }

  /** Both subsets hold only dataset indices. */
  lemma SplitWithinRange(perm: seq<nat>, n: nat, valRatio: real)
    requires IsPermutation(perm, n) && 0.0 <= valRatio <= 1.0
    ensures var s := RandomSplit(perm, valRatio);
            (forall i :: 0 <= i < |s.train| ==> s.train[i] < n) && (forall i :: 0 <= i < |s.val| ==> s.val[i] < n)
  {
    var s := RandomSplit(perm, valRatio);
    assert forall i :: 0 <= i < |s.train| ==> s.train[i] == perm[i];
    assert forall i :: 0 <= i < |s.val| ==> s.val[i] == perm[|s.train| + i];
  }

  /** An entry of a permutation does not occur again outside its position. */
  lemma NotInOtherPart(perm: seq<nat>, n: nat, lo: nat, hi: nat, p: nat)
    requires IsPermutation(perm, n) && lo <= hi <= n && p < n && !(lo <= p < hi)
    ensures perm[p] !in perm[lo..hi]
  {
    forall q | lo <= q < hi
      ensures perm[q] != perm[p]
    {
      if q < p { assert perm[q] != perm[p]; } else { assert perm[p] != perm[q]; }
    }
    assert forall x :: x in perm[lo..hi] ==> exists q :: lo <= q < hi && perm[q] == x by {
      forall x | x in perm[lo..hi]
        ensures exists q :: lo <= q < hi && perm[q] == x
      {
        var r :| 0 <= r < hi - lo && perm[lo..hi][r] == x;
        assert perm[lo + r] == x;
      }
    }
  }

  /** `RLDataModule`: the configuration it reads and the subsets that
      `update_dataset` assigns. */
  class DataModule {
    const valRatio: real          // configs['model_val_ratio']
    const modelBatchSize: int     // configs['model_batch_size']
    var split: Option<Split>      // train_set / val_set, once assigned

    constructor(valRatio: real, modelBatchSize: int)
      ensures this.valRatio == valRatio && this.modelBatchSize == modelBatchSize
      ensures split.None?
    {
      this.valRatio := valRatio;
      this.modelBatchSize := modelBatchSize;
      split := None;
    }

    /** `update_dataset`: a fresh dataset over the buffer as it is now, split
        at random by the permutation `perm`. */
    method UpdateDataset(buf: Buffer, perm: seq<nat>)
      requires IsPermutation(perm, Len(buf)) && 0.0 <= valRatio <= 1.0
      modifies this
      ensures split == Some(RandomSplit(perm, valRatio))
    {
      split := Some(RandomSplit(perm, valRatio));
    }

    /** `train_dataloader`: the training subset in batches of
        `model_batch_size`, unshuffled. */
    function TrainLoader(): (r: Result<Loader, DataError>)
      reads this
      ensures r.Ok? <==> split.Some? && modelBatchSize > 0
      ensures r.Ok? ==> r.value == Loader(split.value.train, modelBatchSize, false)
      ensures split.None? ==> r == Err(NoSplit)
    {
      LoaderOver(if split.Some? then Some(split.value.train) else None, modelBatchSize)
    }

    /** `val_dataloader`: the validation subset, the same way. */
    function ValLoader(): (r: Result<Loader, DataError>)
      reads this
      ensures r.Ok? <==> split.Some? && modelBatchSize > 0
      ensures r.Ok? ==> r.value == Loader(split.value.val, modelBatchSize, false)
      ensures split.None? ==> r == Err(NoSplit)
    {
      LoaderOver(if split.Some? then Some(split.value.val) else None, modelBatchSize)
    }
  }

  /** A `DataLoader(subset, batch_size, shuffle=False)`. */
  function LoaderOver(subset: Option<seq<nat>>, batchSize: int): Result<Loader, DataError> {
    match subset
    case None => Err(NoSplit)
    case Some(indices) => if batchSize <= 0 then Err(InvalidBatchSize) else Ok(Loader(indices, batchSize, false))
  }

  /** The batches an unshuffled loader yields, in order; the last one may
      be short (`drop_last=False`). */
  function Batches(indices: seq<nat>, batchSize: nat): (bs: seq<seq<nat>>)
    requires batchSize > 0
    ensures forall i :: 0 <= i < |bs| ==> 0 < |bs[i]| <= batchSize
    ensures forall i :: 0 <= i < |bs| - 1 ==> |bs[i]| == batchSize
    decreases |indices|
  {
    if |indices| == 0 then []
    else if |indices| <= batchSize then [indices]
    else [indices[..batchSize]] + Batches(indices[batchSize..], batchSize)
  }

  function Concat(bs: seq<seq<nat>>): seq<nat> {
    if |bs| == 0 then [] else bs[0] + Concat(bs[1..])
  }

  /** An epoch over an unshuffled loader visits the subset exactly once, in order. */
  lemma {:induction false} BatchesCoverInOrder(indices: seq<nat>, batchSize: nat)
    requires batchSize > 0
    ensures Concat(Batches(indices, batchSize)) == indices
    decreases |indices|
  {
    if |indices| == 0 {
    } else if |indices| <= batchSize {
      assert Concat([indices]) == indices + Concat([]);
    } else {
      var rest := Batches(indices[batchSize..], batchSize);
      BatchesCoverInOrder(indices[batchSize..], batchSize);
      assert ([indices[..batchSize]] + rest)[1..] == rest;
      assert indices[..batchSize] + indices[batchSize..] == indices;
    }
  }

  function ItemAt(buf: Buffer, j: nat): Item
    requires Aligned(buf) && j < |buf.obs|
  {
    Item(buf.obs[j], buf.act[j], buf.rew[j], buf.obsNext[j], buf.ter[j])
  }

  /** The transitions of one loader batch. */
  function BatchItems(buf: Buffer, batch: seq<nat>): (items: seq<Item>)
    requires Aligned(buf) && forall i :: 0 <= i < |batch| ==> batch[i] < Len(buf)
    ensures |items| == |batch|
    ensures forall i :: 0 <= i < |batch| ==> GetItem(buf, batch[i]) == Ok(items[i])
  {
    assert Len(buf) <= |buf.obs|;
    seq(|batch|, i requires 0 <= i < |batch| => ItemAt(buf, batch[i]))
  }
}
