/** The control logic of the keyword-spotting fine-tune driver: the
    piecewise-constant learning-rate schedule, the batch loop of `train`, and
    the best-epoch checkpoint selection of `main`. Accuracies are what the
    evaluation loop (module Evaluation) returned; they are inputs here. */
module FineTune {
  import opened Wrappers
  import opened Training

  /** The tier chosen by `adjust_learning_rate` for an epoch. */
  function Rate(epoch: int): (r: real)
    ensures 0.001 <= r <= 0.01
    ensures r == 0.01 <==> epoch < 50
    ensures r == 0.001 <==> 150 <= epoch
    ensures 50 <= epoch < 150 ==> r == 0.01 / 2.0 || r == 0.01 / 4.0
  {
    if epoch < 50 then 0.01
    else if epoch < 100 then 0.005
    else if epoch < 150 then 0.0025
    else 0.001
  }

  /** The exact tier boundaries. */
  lemma RateBoundaries()
    ensures Rate(1) == 0.01 && Rate(49) == 0.01
    ensures Rate(50) == 0.005 && Rate(99) == 0.005
    ensures Rate(100) == 0.0025 && Rate(149) == 0.0025
    ensures Rate(150) == 0.001 && Rate(200) == 0.001
  {
  }

  /** The schedule never raises the rate. */
  lemma RateNonIncreasing(e1: int, e2: int)
    requires e1 <= e2
    ensures Rate(e2) <= Rate(e1)
  {
  }

  /** `adjust_learning_rate(optimizer, epoch)`: every param group's 'lr'
      entry is overwritten with the tier, and nothing else in any group
      changes. */
  method AdjustLearningRate(groups: array<map<string, real>>, epoch: int)
    modifies groups
    ensures forall i :: 0 <= i < groups.Length ==> groups[i] == old(groups[i])["lr" := Rate(epoch)]
  {
    var lr := Rate(epoch);
    for i := 0 to groups.Length
      invariant forall j :: 0 <= j < i ==> groups[j] == old(groups[j])["lr" := lr]
      invariant forall j :: i <= j < groups.Length ==> groups[j] == old(groups[j])
    {
      groups[i] := groups[i]["lr" := lr];
    }
  }

  /** After AdjustLearningRate every group holds the same rate, and each
      group's other settings are what they were. */
  lemma AdjustedGroupsAgree(before: seq<map<string, real>>, after: seq<map<string, real>>, epoch: int)
    requires |before| == |after|
    requires forall i :: 0 <= i < |after| ==> after[i] == before[i]["lr" := Rate(epoch)]
    ensures forall i, j :: 0 <= i < |after| && 0 <= j < |after| ==> after[i]["lr"] == after[j]["lr"]
    ensures forall i, key :: 0 <= i < |after| && key != "lr" ==> (key in after[i] <==> key in before[i])
    ensures forall i, key :: 0 <= i < |after| && key != "lr" && key in before[i] ==> after[i][key] == before[i][key]
  {
  }

  /** The rate that training in `epoch` runs at. `main` calls
      `adjust_learning_rate(optimizer, epoch)` after that epoch's training, so
      epoch 1 runs at the optimizer's initial rate and epoch e >= 2 at the
      tier of epoch e - 1. */
  function RateInEpoch(lr: real, epoch: nat): (r: real)
    requires epoch >= 1
    ensures epoch == 1 ==> r == lr
    ensures 2 <= epoch <= 50 ==> r == 0.01
    ensures 51 <= epoch <= 100 ==> r == 0.005
    ensures 101 <= epoch <= 150 ==> r == 0.0025
    ensures 151 <= epoch ==> r == 0.001
  {
    if epoch == 1 then lr else Rate(epoch - 1)
  }

  /** `train`: the batch loop over a loader of `n` batches. */
  method Train(n: nat, logInterval: int, dryRun: bool) returns (run: EpochRun)
    ensures run == TrainControl(n, logInterval, dryRun)
  {
    var steps, logged := 0, [];
    var batchIdx := 0;
    while batchIdx < n
      invariant batchIdx <= n && steps == batchIdx
      invariant logInterval == 0 || dryRun ==> batchIdx == 0
      invariant logInterval != 0 ==> logged == LoggedUpTo(batchIdx, logInterval)
      invariant logInterval == 0 ==> logged == []
    {
      // optimizer.zero_grad(); forward; loss.backward(); optimizer.step()
      steps := steps + 1;
      if logInterval == 0 {
        // `batch_idx % args.log_interval` raises ZeroDivisionError
        return EpochRun(steps, logged, true);
      }
      if batchIdx % logInterval == 0 {
        logged := logged + [batchIdx];
        if dryRun {
          break;
        }
      }
      batchIdx := batchIdx + 1;
    }
    run := EpochRun(steps, logged, false);
  }

  /** The checkpoint selector's reference: the running best epoch over the
      validation accuracies `s`, indexed by epoch, with `s[0]` the sentinel.
      Epoch e replaces the best when its accuracy is >= the best's. */
  function Best(s: seq<real>): (b: nat)
    requires |s| > 0
    ensures b < |s|
  {
    if |s| == 1 then 0
    else
      var b' := Best(s[..|s| - 1]);
      if s[|s| - 1] >= s[b'] then |s| - 1 else b'
  }

  /** `b` is the last index holding the maximum of `s`. */
  predicate IsLastMax(s: seq<real>, b: nat)
  {
    b < |s| && (forall j :: 0 <= j < |s| ==> s[j] <= s[b]) && (forall j :: b < j < |s| ==> s[j] < s[b])
  }

  /** The best epoch is the last one holding the highest validation
      accuracy (sentinel included), and no other index is. */
  lemma {:induction false} BestIsLastMax(s: seq<real>)
    requires |s| > 0
    ensures IsLastMax(s, Best(s))
    ensures forall b: nat :: IsLastMax(s, b) ==> b == Best(s)
  {
    if |s| > 1 {
      BestIsLastMax(s[..|s| - 1]);
    }
  }

  /** The epochs on which `torch.save` fires, in order. */
  function Saves(s: seq<real>): seq<nat>
    requires |s| > 0
  {
    if |s| == 1 then []
    else
      var p := s[..|s| - 1];
      Saves(p) + (if s[|s| - 1] >= s[Best(p)] then [|s| - 1] else [])
  }

  /** Epoch e's validation accuracy is at least every earlier one's. */
  predicate IsRecord(s: seq<real>, e: nat)
    requires e < |s|
  {
    forall j :: 0 <= j < e ==> s[j] <= s[e]
  }

  /** A checkpoint is saved on epoch e exactly when e's validation accuracy is
      at least every earlier one's, the sentinel included. */
  lemma {:induction false} SavesExactly(s: seq<real>)
    requires |s| > 0
    ensures forall e: nat :: e in Saves(s) <==> 1 <= e < |s| && IsRecord(s, e)
  {
    if |s| > 1 {
      var n := |s| - 1;
      var p := s[..n];
      SavesExactly(p);
      BestIsLastMax(p);
      assert s[n] >= s[Best(p)] <==> IsRecord(s, n);
      forall e: nat | e < n
        ensures IsRecord(p, e) <==> IsRecord(s, e)
      {
      }
      assert Saves(s) == Saves(p) + (if IsRecord(s, n) then [n] else []);
    }
  }

  /** Saves are strictly increasing epochs in 1 .. |s| - 1. */
  lemma {:induction false} SavesIncreasing(s: seq<real>)
    requires |s| > 0
    ensures forall i :: 0 <= i < |Saves(s)| ==> 1 <= Saves(s)[i] < |s|
    ensures forall i, j :: 0 <= i < j < |Saves(s)| ==> Saves(s)[i] < Saves(s)[j]
  {
    if |s| > 1 {
      var n := |s| - 1;
      var p := s[..n];
      SavesIncreasing(p);
      var t := Saves(p);
      if s[n] >= s[Best(p)] {
        assert Saves(s) == t + [n];
        forall i, j | 0 <= i < j < |t| + 1
          ensures (t + [n])[i] < (t + [n])[j]
        {
          if j == |t| {
            assert (t + [n])[i] == t[i];
          }
        }
      } else {
        assert Saves(s) == t;
      }
    }
  }

  /** No save happens only when the best is still the sentinel; otherwise
      the last save is the best epoch, so the file left on disk holds the
      best epoch's weights. */
  lemma {:induction false} SavesEndAtBest(s: seq<real>)
    requires |s| > 0
    ensures Saves(s) == [] <==> Best(s) == 0
    ensures Saves(s) != [] ==> Saves(s)[|Saves(s)| - 1] == Best(s)
  {
    if |s| > 1 {
      var n := |s| - 1;
      var p := s[..n];
      SavesEndAtBest(p);
      if s[n] >= s[Best(p)] {
        assert Saves(s) == Saves(p) + [n] && Best(s) == n;
      } else {
        assert Saves(s) == Saves(p) && Best(s) == Best(p);
      }
    }
  }

  /** Validation accuracies are percentages, never below the sentinel 0.0, so
      epoch 1 always becomes best and is always saved. */
  lemma FirstEpochSaves(s: seq<real>)
    requires |s| > 1 && s[0] == 0.0 && s[1] >= 0.0
    ensures 1 <= Best(s) && Saves(s) != [] && Saves(s)[0] == 1
  {
    SavesExactly(s);
    assert IsRecord(s, 1);
    SavesIncreasing(s);
    SavesEndAtBest(s);
    var t := Saves(s);
    assert 1 in t;
    var k :| 0 <= k < |t| && t[k] == 1;
    assert t[0] <= t[k];
  }

  /** The final report of `main`: the best epoch, its validation accuracy,
      and its test accuracy, which is a KeyError when the best epoch is the
      sentinel (no epoch ran), because `test_acc` has no entry for epoch 0. */
  datatype BestReport = BestReport(epoch: nat, valAcc: real, testAcc: Result<real>)

  /** The bookkeeping of `main`: `val_acc` and `test_acc` keyed by epoch,
      `best_epoch`, and the epochs on which a checkpoint was written. The keys
      of `val_acc` are always 0 .. epoch, so it is held as a sequence indexed
      by epoch; `test_acc` has keys 1 .. epoch only. */
  class CheckpointSelector {
    var valAcc: seq<real>
    var testAcc: map<nat, real>
    var bestEpoch: nat
    var saves: seq<nat>

    ghost predicate Valid()
      reads this
    {
      && |valAcc| > 0 && valAcc[0] == 0.0
      && (forall e: nat :: e in testAcc <==> 1 <= e < |valAcc|)
      && bestEpoch == Best(valAcc)
      && saves == Saves(valAcc)
    }

    /** `val_acc = {}; test_acc = {}; best_epoch = 0; val_acc['0'] = 0.0`. */
    constructor ()
      ensures Valid()
      ensures valAcc == [0.0] && testAcc == map[] && bestEpoch == 0 && saves == []
    {
      valAcc := [0.0];
      testAcc := map[];
      bestEpoch := 0;
      saves := [];
    }

    /** One epoch's bookkeeping: store both accuracies, then move the best
        epoch (and save) when the new validation accuracy is >= the best's. */
    method RecordEpoch(epoch: nat, v: real, t: real)
      requires Valid() && epoch == |valAcc|
      modifies this
      ensures Valid()
      ensures valAcc == old(valAcc) + [v] && testAcc == old(testAcc)[epoch := t]
      ensures bestEpoch == (if v >= old(valAcc)[old(bestEpoch)] then epoch else old(bestEpoch))
      ensures old(bestEpoch) <= bestEpoch
      ensures saves == old(saves) + (if bestEpoch != old(bestEpoch) then [epoch] else [])
    {
      valAcc := valAcc + [v];
      testAcc := testAcc[epoch := t];
      assert valAcc[..|valAcc| - 1] == old(valAcc);
      if valAcc[epoch] >= valAcc[bestEpoch] {
        bestEpoch := epoch;
        saves := saves + [epoch];
      }
    }

    /** The two result lines: the best epoch's validation accuracy, then its
        test accuracy. */
    method Report() returns (r: BestReport)
      requires Valid()
      ensures r.epoch == bestEpoch && r.valAcc == valAcc[bestEpoch]
      ensures r.testAcc == if bestEpoch == 0 then Err(KeyError(0)) else Ok(testAcc[bestEpoch])
    {
      var t := if bestEpoch in testAcc then Ok(testAcc[bestEpoch]) else Err(KeyError(bestEpoch));
      r := BestReport(bestEpoch, valAcc[bestEpoch], t);
    }
  }

  /** The epoch loop of `main`. Epoch e's validation and test accuracies are
      `valAccs[e - 1]` and `testAccs[e - 1]`; `ratesUsed[e - 1]` is the rate
      the optimizer held while epoch e trained. The loop runs
      `range(1, epochs + 1)`, which is empty for `epochs <= 0`. */
  method Run(epochs: int, lr: real, valAccs: seq<real>, testAccs: seq<real>)
    returns (report: BestReport, saves: seq<nat>, ratesUsed: seq<real>)
    requires |valAccs| == |testAccs| == if epochs > 0 then epochs else 0
    ensures report.epoch == Best([0.0] + valAccs)
    ensures report.valAcc == ([0.0] + valAccs)[report.epoch]
    ensures report.testAcc == if report.epoch == 0 then Err(KeyError(0)) else Ok(testAccs[report.epoch - 1])
    ensures saves == Saves([0.0] + valAccs)
    ensures |ratesUsed| == |valAccs|
    ensures forall e :: 1 <= e <= |ratesUsed| ==> ratesUsed[e - 1] == RateInEpoch(lr, e)
  {
    var sel := new CheckpointSelector();
    // optim.Adam(model.parameters(), lr=args.lr, weight_decay=1e-4): one group
    var groups := new map<string, real>[1];
    groups[0] := map["lr" := lr, "weight_decay" := 0.0001];
    ratesUsed := [];
    var n := |valAccs|;
    var epoch := 1;
    while epoch <= n
      invariant 1 <= epoch <= n + 1
      invariant sel.Valid() && sel.valAcc == [0.0] + valAccs[..epoch - 1]
      invariant forall e :: 1 <= e < epoch ==> sel.testAcc[e] == testAccs[e - 1]
      invariant groups.Length == 1 && "lr" in groups[0] && groups[0]["lr"] == RateInEpoch(lr, epoch)
      invariant |ratesUsed| == epoch - 1
      invariant forall e :: 1 <= e < epoch ==> ratesUsed[e - 1] == RateInEpoch(lr, e)
    {
      // train(...) runs at the optimizer's current rate
      ratesUsed := ratesUsed + [groups[0]["lr"]];
      AdjustLearningRate(groups, epoch);
      sel.RecordEpoch(epoch, valAccs[epoch - 1], testAccs[epoch - 1]);
      assert [0.0] + valAccs[..epoch] == [0.0] + valAccs[..epoch - 1] + [valAccs[epoch - 1]];
      epoch := epoch + 1;
    }
    assert valAccs[..n] == valAccs;
    report := sel.Report();
    saves := sel.saves;
  }

  /** With at least one epoch, the final report always names a real epoch
      and both of its accuracies: the KeyError path needs `epochs <= 0`. */
  lemma ReportHasTestAccuracy(valAccs: seq<real>)
    requires |valAccs| > 0 && forall e :: 0 <= e < |valAccs| ==> 0.0 <= valAccs[e] <= 100.0
    ensures 1 <= Best([0.0] + valAccs)
  {
    FirstEpochSaves([0.0] + valAccs);
  }
}
