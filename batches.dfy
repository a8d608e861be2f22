/**
 * Batch delivery: the prefix slice of BaseTrainer.dataloader, the batches a
 * torch DataLoader with drop_last=True yields, and the random batch indices
 * drawn by compile_trainer for fixed-cycle training.
 */
module Batches {
  import opened Outcomes
  import opened Schedule

  /** One sample (an image or a spectrum) of a tensor, flattened. */
  type Sample = seq<real>

  /** A mini-batch of inputs and targets. */
  datatype Batch = Batch(features: seq<Sample>, targets: seq<Sample>)

  /** The four per-batch lists array2list and its relatives produce for fixed-cycle training. */
  datatype BatchLists = BatchLists(
    xTrain: seq<seq<Sample>>, yTrain: seq<seq<Sample>>,
    xTest: seq<seq<Sample>>, yTest: seq<seq<Sample>>)

  /**
   * Python's `s[:n]`: the first n elements, all of s when it is shorter, and
   * for a negative n everything but the last -n elements.
   */
  function Prefix<T>(s: seq<T>, n: int): (r: seq<T>)
    ensures |r| == if n >= 0 then Min(n, |s|) else Max(|s| + n, 0)
    ensures r == s[..|r|]
  {
    if n >= 0 then (if n <= |s| then s[..n] else s)
    else if |s| + n >= 0 then s[..|s| + n]
    else []
  }

  /** The batches a DataLoader over (xs, ys) yields with drop_last=True, in dataset order. */
  function Chunks(xs: seq<Sample>, ys: seq<Sample>, size: nat): seq<Batch>
    requires size > 0 && |xs| == |ys|
    decreases |xs|
  {
    if |xs| < size then []
    else [Batch(xs[..size], ys[..size])] + Chunks(xs[size..], ys[size..], size)
  }

  /** All inputs of a sequence of batches, concatenated. */
  function FeaturesOf(bs: seq<Batch>): seq<Sample> {
    if bs == [] then [] else bs[0].features + FeaturesOf(bs[1..])
  }

  /** All targets of a sequence of batches, concatenated. */
  function TargetsOf(bs: seq<Batch>): seq<Sample> {
    if bs == [] then [] else bs[0].targets + TargetsOf(bs[1..])
  }

  lemma DivSubtract(n: int, size: int)
    requires size > 0 && n >= size
    ensures n / size == (n - size) / size + 1 && n % size == (n - size) % size
  {
    var m, r := (n - size) / size, (n - size) % size;
    assert n - size == m * size + r && 0 <= r < size;
    assert n == (m + 1) * size + r;
    DivUnique(n, size, m + 1, r);
  }

  /**
   * drop_last=True: there are |xs| / size batches, each exactly `size` long,
   * and together they are the dataset without its last |xs| % size samples.
   */
  lemma {:induction false} ChunksShape(xs: seq<Sample>, ys: seq<Sample>, size: nat)
    requires size > 0 && |xs| == |ys|
    ensures |Chunks(xs, ys, size)| == |xs| / size
    ensures forall b :: b in Chunks(xs, ys, size) ==> |b.features| == size && |b.targets| == size
    ensures FeaturesOf(Chunks(xs, ys, size)) == xs[..|xs| - |xs| % size]
    ensures TargetsOf(Chunks(xs, ys, size)) == ys[..|xs| - |xs| % size]
    decreases |xs|
  {
    var n := |xs|;
    if n < size {
      DivUnique(n, size, 0, n);
    } else {
      var xs', ys' := xs[size..], ys[size..];
      ChunksShape(xs', ys', size);
      DivSubtract(n, size);
      var k := n - n % size;
      var c := Chunks(xs, ys, size);
      assert c == [Batch(xs[..size], ys[..size])] + Chunks(xs', ys', size);
      assert c[1..] == Chunks(xs', ys', size);
      assert FeaturesOf(c) == xs[..size] + xs'[..k - size];
      assert xs[..size] + xs'[..k - size] == xs[..k];
      assert TargetsOf(c) == ys[..size] + ys'[..k - size];
      assert ys[..size] + ys'[..k - size] == ys[..k];
    }
  }

  /**
   * `DataLoader(TensorDataset(xs, ys), batch_size=size, shuffle=shuffle, drop_last=True)`:
   * TensorDataset refuses tensors of different lengths; DataLoader refuses a
   * batch size that is not positive, and with shuffle its random sampler
   * refuses an empty dataset. Reshuffling of the training set at every pass
   * is not modelled: the batches come in dataset order.
   */
  function MakeLoader(xs: seq<Sample>, ys: seq<Sample>, size: int, shuffle: bool): (r: Result<seq<Batch>>)
    ensures r.Success? <==> |xs| == |ys| && size > 0 && !(shuffle && xs == [])
    ensures |xs| != |ys| ==> r == Failure(AssertionError)
    ensures |xs| == |ys| && (size <= 0 || (shuffle && xs == [])) ==> r == Failure(ValueError)
    ensures r.Success? ==> r.value == Chunks(xs, ys, size)
  {
    if |xs| != |ys| then Failure(AssertionError)
    else if shuffle && xs == [] then Failure(ValueError)
    else if size <= 0 then Failure(ValueError)
    else Success(Chunks(xs, ys, size))
  }

  /**
   * `np.random.randint(0, high, size)`, with the generator's raw output given
   * as the stream `draw` and folded into [0, high). A draw of size 0 gives
   * the empty array before the range is looked at; otherwise it raises when
   * the range is empty or the size negative.
   */
  function RandInt(high: int, size: int, draw: nat -> nat): (r: Result<seq<nat>>)
    ensures r.Success? <==> size == 0 || (high > 0 && size >= 0)
    ensures r.Failure? ==> r.error == ValueError
    ensures r.Success? ==> |r.value| == size && forall i :: 0 <= i < size ==> r.value[i] < high
  {
    if size == 0 then Success([])
    else if high <= 0 || size < 0 then Failure(ValueError)
    else Success(seq(size, i requires 0 <= i => draw(i) % high))
  }

  /** Every index sequence the bounds allow is one the generator can produce. */
  lemma RandIntCovers(high: int, idx: seq<nat>)
    requires forall i :: 0 <= i < |idx| ==> idx[i] < high
    ensures exists draw: nat -> nat :: RandInt(high, |idx|, draw) == Success(idx)
  {
    var draw := (i: nat) => if i < |idx| then idx[i] else 0;
    var r := RandInt(high, |idx|, draw);
    if idx == [] {
      assert r == Success(idx);
      return;
    }
    assert high > idx[0] >= 0;
    forall i | 0 <= i < |idx|
      ensures r.value[i] == idx[i]
    {
      DivUnique(idx[i], high, 0, idx[i]);
    }
    assert r.value == idx;
  }
}
