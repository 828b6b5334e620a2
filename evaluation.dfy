/** The evaluation loop shared by both drivers' `test`: over every batch of a
    loader, add the batch's summed loss and the number of samples whose
    highest-scoring class equals the label, then divide by the dataset length.
    The scores and the per-batch loss sums are what the model and the loss
    function produced; they are inputs here. */
module Evaluation {
  import opened Wrappers

  /** One batch as the loop sees it: a score row per sample, the integer
      labels, and the batch's summed loss (`reduction='sum'`). */
  datatype Batch = Batch(scores: seq<seq<real>>, labels: seq<nat>, lossSum: real)

  /** The model emits one non-empty score row per sample of the batch. */
  predicate WellFormed(b: Batch)
  {
    |b.scores| == |b.labels| && forall i :: 0 <= i < |b.scores| ==> |b.scores[i]| > 0
  }

  predicate AllWellFormed(batches: seq<Batch>)
  {
    forall j :: 0 <= j < |batches| ==> WellFormed(batches[j])
  }

  /** `output.argmax(dim=1)` for one row: the first index holding the
      largest score. */
  function ArgMax(row: seq<real>): (r: nat)
    requires |row| > 0
    ensures r < |row|
    ensures forall j :: 0 <= j < |row| ==> row[j] <= row[r]
    ensures forall j :: 0 <= j < r ==> row[j] < row[r]
  {
    if |row| == 1 then 0
    else
      var m := ArgMax(row[..|row| - 1]);
      if row[|row| - 1] > row[m] then |row| - 1 else m
  }

  /** The samples of a batch whose prediction equals the label. */
  function Hits(scores: seq<seq<real>>, labels: seq<nat>): set<nat>
    requires |scores| == |labels| && forall i :: 0 <= i < |scores| ==> |scores[i]| > 0
  {
    set i: nat | i < |labels| && ArgMax(scores[i]) == labels[i]
  }

  /** `pred.eq(target.view_as(pred)).sum()`: the number of correct samples. */
  function CountCorrect(scores: seq<seq<real>>, labels: seq<nat>): (c: nat)
    requires |scores| == |labels| && forall i :: 0 <= i < |scores| ==> |scores[i]| > 0
    ensures c <= |labels|
  {
    if |labels| == 0 then 0
    else
      var n := |labels| - 1;
      CountCorrect(scores[..n], labels[..n]) + (if ArgMax(scores[n]) == labels[n] then 1 else 0)
  }

  /** The count is the number of samples whose argmax equals the label. */
  lemma {:induction false} CountCorrectIsHits(scores: seq<seq<real>>, labels: seq<nat>)
    requires |scores| == |labels| && forall i :: 0 <= i < |scores| ==> |scores[i]| > 0
    ensures CountCorrect(scores, labels) == |Hits(scores, labels)|
  {
    if |labels| > 0 {
      var n := |labels| - 1;
      CountCorrectIsHits(scores[..n], labels[..n]);
      var before := Hits(scores[..n], labels[..n]);
      var after := Hits(scores, labels);
      assert n !in before;
      forall i: nat | i < n
        ensures i in after <==> i in before
      {
        assert scores[..n][i] == scores[i] && labels[..n][i] == labels[i];
      }
      if ArgMax(scores[n]) == labels[n] {
        assert after == before + {n};
      } else {
        assert after == before;
      }
    }
  }

  /** Counting two groups of samples separately and adding gives the count
      over all of them. */
  lemma {:induction false} CountCorrectAppend(s1: seq<seq<real>>, l1: seq<nat>, s2: seq<seq<real>>, l2: seq<nat>)
    requires |s1| == |l1| && forall i :: 0 <= i < |s1| ==> |s1[i]| > 0
    requires |s2| == |l2| && forall i :: 0 <= i < |s2| ==> |s2[i]| > 0
    ensures CountCorrect(s1 + s2, l1 + l2) == CountCorrect(s1, l1) + CountCorrect(s2, l2)
  {
    if |l2| > 0 {
      var n := |l2| - 1;
      CountCorrectAppend(s1, l1, s2[..n], l2[..n]);
      assert (s1 + s2)[..|s1| + n] == s1 + s2[..n];
      assert (l1 + l2)[..|l1| + n] == l1 + l2[..n];
    } else {
      assert s1 + s2 == s1 && l1 + l2 == l1;
    }
  }

  /** `len(loader.dataset)`: the loader yields every sample exactly once. */
  function Total(batches: seq<Batch>): nat
  {
    if batches == [] then 0 else Total(batches[..|batches| - 1]) + |batches[|batches| - 1].labels|
  }

  /** The summed loss over every batch. */
  function LossSum(batches: seq<Batch>): real
  {
    if batches == [] then 0.0 else LossSum(batches[..|batches| - 1]) + batches[|batches| - 1].lossSum
  }

  /** The correct count, accumulated batch by batch. */
  function Correct(batches: seq<Batch>): (c: nat)
    requires AllWellFormed(batches)
    ensures c <= Total(batches)
  {
    if batches == [] then 0
    else
      var b := batches[|batches| - 1];
      Correct(batches[..|batches| - 1]) + CountCorrect(b.scores, b.labels)
  }

  /** Every sample of the loader, in order. */
  function AllScores(batches: seq<Batch>): (r: seq<seq<real>>)
    requires AllWellFormed(batches)
    ensures |r| == Total(batches) && forall i :: 0 <= i < |r| ==> |r[i]| > 0
  {
    if batches == [] then [] else AllScores(batches[..|batches| - 1]) + batches[|batches| - 1].scores
  }

  function AllLabels(batches: seq<Batch>): (r: seq<nat>)
    ensures |r| == Total(batches)
  {
    if batches == [] then [] else AllLabels(batches[..|batches| - 1]) + batches[|batches| - 1].labels
  }

  /** How the loader cuts the dataset into batches does not change the
      correct count: it is the count over the whole dataset. */
  lemma {:induction false} CorrectIsDatasetCount(batches: seq<Batch>)
    requires AllWellFormed(batches)
    ensures Correct(batches) == CountCorrect(AllScores(batches), AllLabels(batches))
  {
    if batches != [] {
      var n := |batches| - 1;
      CorrectIsDatasetCount(batches[..n]);
      CountCorrectAppend(AllScores(batches[..n]), AllLabels(batches[..n]), batches[n].scores, batches[n].labels);
    }
  }

  /** A count out of `n` is a percentage between 0 and 100. */
  lemma PercentBounded(c: nat, n: nat)
    requires 0 < n && c <= n
    ensures 0.0 <= 100.0 * c as real / n as real <= 100.0
  {
    var x := c as real / n as real;
    assert x <= 1.0 by {
      assert c as real <= n as real;
    }
    assert 100.0 * c as real / n as real == 100.0 * x;
  }

  /** What `test` computes: mean loss, the correct count, the dataset length
      and the accuracy percentage `100 * correct / N`. */
  datatype EvalReport = EvalReport(meanLoss: real, correct: nat, total: nat, accuracy: real)

  /** The evaluation loop. An empty dataset makes `test_loss /= 0` raise. */
  method Evaluate(batches: seq<Batch>) returns (r: Result<EvalReport>)
    requires AllWellFormed(batches)
    ensures r.Err? <==> Total(batches) == 0
    ensures r.Err? ==> r.error == ZeroDivision
    ensures r.Ok? ==> r.value.total == Total(batches) && r.value.correct == Correct(batches)
    ensures r.Ok? ==> r.value.meanLoss == LossSum(batches) / Total(batches) as real
    ensures r.Ok? ==> r.value.accuracy == 100.0 * r.value.correct as real / r.value.total as real
    ensures r.Ok? ==> 0.0 <= r.value.accuracy <= 100.0
  {
    var testLoss := 0.0;
    var correct := 0;
    for i := 0 to |batches|
      invariant testLoss == LossSum(batches[..i])
      invariant correct == Correct(batches[..i])
    {
      assert batches[..i + 1][..i] == batches[..i];
      var b := batches[i];
      testLoss := testLoss + b.lossSum;
      correct := correct + CountCorrect(b.scores, b.labels);
    }
    assert batches[..|batches|] == batches;
    var n := Total(batches);
    if n == 0 {
      return Err(ZeroDivision);
    }
    testLoss := testLoss / n as real;
    var accuracy := 100.0 * correct as real / n as real;
    PercentBounded(correct, n);
    r := Ok(EvalReport(testLoss, correct, n, accuracy));
  }
}
