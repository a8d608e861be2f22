/** The per-batch values train_step and test_step return, and the averages step_full records. */
module Metrics {

  /** The loss and the accuracy score of one batch (the score is used only when accuracy is computed). */
  datatype StepResult = StepResult(loss: real, accuracy: real)

  /** The losses of a sequence of step results, in order. */
  function Losses(rs: seq<StepResult>): (ls: seq<real>)
    ensures |ls| == |rs|
    ensures forall i :: 0 <= i < |rs| ==> ls[i] == rs[i].loss
  {
    seq(|rs|, i requires 0 <= i < |rs| => rs[i].loss)
  }

  /** The accuracy scores of a sequence of step results, in order. */
  function Accuracies(rs: seq<StepResult>): (as_: seq<real>)
    ensures |as_| == |rs|
    ensures forall i :: 0 <= i < |rs| ==> as_[i] == rs[i].accuracy
  {
    seq(|rs|, i requires 0 <= i < |rs| => rs[i].accuracy)
  }

  /** The running total `losses += loss[0]`, accumulated from the first batch on. */
  function Sum(xs: seq<real>): real {
    if xs == [] then 0.0 else Sum(xs[..|xs| - 1]) + xs[|xs| - 1]
  }

  lemma SumAppend(xs: seq<real>, x: real)
    ensures Sum(xs + [x]) == Sum(xs) + x
  {
    assert (xs + [x])[..|xs|] == xs;
  }

  lemma ResultsAppend(rs: seq<StepResult>, x: StepResult)
    ensures Losses(rs + [x]) == Losses(rs) + [x.loss]
    ensures Accuracies(rs + [x]) == Accuracies(rs) + [x.accuracy]
  {
    assert forall i :: 0 <= i < |rs| ==> (rs + [x])[i] == rs[i];
  }

  /** `losses / c`: the arithmetic mean of a non-empty sequence, unweighted by batch size. */
  function Mean(xs: seq<real>): (m: real)
    requires |xs| > 0
    ensures m * |xs| as real == Sum(xs)
  {
    Sum(xs) / |xs| as real
  }

  lemma {:induction false} SumBounds(xs: seq<real>, lo: real, hi: real)
    requires forall i :: 0 <= i < |xs| ==> lo <= xs[i] <= hi
    ensures |xs| as real * lo <= Sum(xs) <= |xs| as real * hi
  {
    if xs != [] {
      SumBounds(xs[..|xs| - 1], lo, hi);
    }
  }

  /** A mean lies between the smallest and the largest value averaged. */
  lemma MeanBounds(xs: seq<real>, lo: real, hi: real)
    requires |xs| > 0
    requires forall i :: 0 <= i < |xs| ==> lo <= xs[i] <= hi
    ensures lo <= Mean(xs) <= hi
  {
    SumBounds(xs, lo, hi);
    var n := |xs| as real;
    assert Mean(xs) * n == Sum(xs);
    assert Mean(xs) * n >= lo * n;
    assert Mean(xs) * n <= hi * n;
  }

  /** The mean of batches that all have the same loss is that loss. */
  lemma MeanOfConstant(xs: seq<real>, v: real)
    requires |xs| > 0
    requires forall i :: 0 <= i < |xs| ==> xs[i] == v
    ensures Mean(xs) == v
  {
    MeanBounds(xs, v, v);
  }
}
