# Search and fine-tune control loops of a multi-objective NAS repository

This project models, in Dafny, the sequential control logic of the two driver
scripts of a differentiable neural-architecture-search repository:

- `mnist/search.py` searches a channel-pruned architecture. Its training loss
  is the classification loss plus a size penalty
  `cd_size * |aggregate size - size_target|` and an ops penalty
  `cd_ops * aggregate ops`. The learning rate decays geometrically through
  `StepLR(step_size=1, gamma)`, stepped once per epoch. The script reports the
  model's aggregate size, ops and per-layer alive channels before and after
  the search.
- `kws/fine-tune.py` fine-tunes a searched architecture. It uses a
  piecewise-constant learning rate and keeps the checkpoint of the epoch with
  the best validation accuracy. Ties go to the later epoch, and a sentinel
  epoch 0 has accuracy 0.0.

Both scripts share the batch loop of `train`: one zero-grad/step pair per
batch, a progress line when `batch_idx % log_interval == 0`, and a dry-run
`break` inside the logging branch. They also share the accounting of `test`:
the argmax/label matches and `100 * correct / N`.

Tensors, autodiff and the model's complexity tracker are treated as opaque.
Per-batch losses, score rows and per-layer size/ops/alive figures are inputs,
and rates and losses are exact `real`s.

Modules:
- `Wrappers` (wrappers.dfy): the Python exceptions the modelled paths can raise, and `Result`.
- `Training` (training.dfy): the reference behaviour of one training epoch's batch loop.
- `Evaluation` (evaluation.dfy): argmax, the correct count and the evaluation loop.
- `Complexity` (complexity.dfy): per-layer figures, their sums and the channel report.
- `FineTune` (fine_tune.dfy): the rate schedule, param-group update, `train`, the checkpoint selector and `main`.
- `Search` (search.dfy): the search loss, `train`, the `StepLR` scheduler and `main`.

The fine-tune schedule is easy to read as "epoch e trains at the tier of
epoch e". The model follows the code instead.
`adjust_learning_rate(optimizer, epoch)` runs after epoch `epoch` has trained
(kws/fine-tune.py:158-161). So epoch 1 trains at `--lr` and epoch e >= 2 trains
at the tier of epoch e - 1: the switch to 5e-3 is first used by epoch 51.
`FineTune.RateInEpoch` states this.

The `test` of mnist/search.py (lines 158-174) runs the same loop as the `test`
of kws/fine-tune.py. It prints the result instead of returning it.
`Evaluation.Evaluate` models both.

## Model

| member | source | states |
|---|---|---|
| `Training.TrainControl` | kws/fine-tune.py:186-201 | Reference epoch behaviour. At most n steps, and at least one when n > 0. The call raises exactly when there are batches and `log_interval == 0`. In that case it makes exactly one step and logs nothing before the raise. With dry-run there is exactly one step and at most one line. Without dry-run, a completed epoch steps every batch. A processed batch logs exactly when its index is a multiple of the interval. |
| `Training.LoggedUpToExactly` | kws/fine-tune.py:196 | The logged indices below m are exactly the multiples of the logging interval below m. |
| `Training.LoggedUpToIncreasing` | kws/fine-tune.py:186-196 | Progress lines come in strictly increasing batch order, so no batch logs twice. |
| `Training.LoggedUpToCount` | mnist/search.py:151 | Without dry-run, m batches print ceil(m / abs(log_interval)) progress lines. |
| `Training.DryRunSingleBatch` | mnist/search.py:151-156 | With dry-run, a non-empty loader and a nonzero interval: exactly one optimizer step and one progress line (batch 0), whatever the loader length. |
| `FineTune.Rate` | kws/fine-tune.py:172-180 | The tier lies in [1e-3, 1e-2]. It is 1e-2 exactly when epoch < 50 and 1e-3 exactly when epoch >= 150. Between those it is half or a quarter of 1e-2. |
| `FineTune.RateBoundaries` | kws/fine-tune.py:173-180 | Exact values at the boundaries: 49 gives 1e-2, 50 gives 5e-3, 99 gives 5e-3, 100 gives 2.5e-3, 149 gives 2.5e-3, 150 gives 1e-3. |
| `FineTune.RateNonIncreasing` | kws/fine-tune.py:172-180 | The schedule never raises the rate as the epoch grows. |
| `FineTune.AdjustLearningRate` | kws/fine-tune.py:172-182 | Every param group becomes its old dict with only 'lr' overwritten by the tier. |
| `FineTune.AdjustedGroupsAgree` | kws/fine-tune.py:181-182 | After the update all groups hold the same rate, and every other key and value of every group is unchanged. |
| `FineTune.RateInEpoch` | kws/fine-tune.py:157-161 | The rate epoch e trains at. Epoch 1 trains at `--lr`. Epochs 2-50 train at 1e-2, 51-100 at 5e-3, 101-150 at 2.5e-3, and 151 onward at 1e-3. This is the tier of epoch e − 1, because the rate is adjusted after training. |
| `FineTune.Train` | kws/fine-tune.py:184-201 | The batch loop (with its `break` and the ZeroDivisionError of a zero interval) returns exactly `TrainControl` of the loader length, interval and dry-run flag. |
| `FineTune.Best` | kws/fine-tune.py:155-163 | The running best epoch, seeded with the sentinel 0 and moved on `>=`, is a valid epoch index. |
| `FineTune.BestIsLastMax` | kws/fine-tune.py:155-163 | `best_epoch` is the last index whose validation accuracy equals the maximum (sentinel included), and it is the only index with that property. |
| `FineTune.SavesExactly` | kws/fine-tune.py:162-166 | A checkpoint is written on epoch e exactly when e's validation accuracy is >= that of every earlier epoch and of the sentinel. |
| `FineTune.SavesIncreasing` | kws/fine-tune.py:157-166 | Save epochs lie in 1..epochs and strictly increase, so no epoch is saved twice. |
| `FineTune.SavesEndAtBest` | kws/fine-tune.py:162-166 | No save happens exactly when the best is still the sentinel. Otherwise the last save is the best epoch, so the file left behind holds the best epoch's weights. |
| `FineTune.FirstEpochSaves` | kws/fine-tune.py:156-166 | With the sentinel 0.0 and a non-negative epoch-1 accuracy, epoch 1 becomes best and is the first save. |
| `FineTune.CheckpointSelector.constructor` | kws/fine-tune.py:153-156 | Starts with `val_acc = {0: 0.0}`, an empty `test_acc`, best epoch 0 and no saves. |
| `FineTune.CheckpointSelector.RecordEpoch` | kws/fine-tune.py:159-166 | Stores both accuracies. Moves the best epoch to this epoch exactly when its accuracy is >= the best's. Appends a save exactly when the best moved. The best never decreases, and the selector invariant (best = `Best`, saves = `Saves` of the history) is kept. |
| `FineTune.CheckpointSelector.Report` | kws/fine-tune.py:169-170 | Reports the best epoch and its validation accuracy. The test accuracy is the stored entry, or a KeyError when the best is the sentinel epoch 0. |
| `FineTune.Run` | kws/fine-tune.py:152-170 | Over `range(1, epochs + 1)`, the final report names `Best([0.0] + accuracies)` with that epoch's validation and test accuracies. The KeyError occurs exactly when that best is 0. Saves are `Saves(...)`, and epoch e trains at `RateInEpoch(lr, e)`. |
| `FineTune.ReportHasTestAccuracy` | kws/fine-tune.py:155-170 | With at least one epoch and accuracies in [0, 100], the best epoch is a real epoch, so the test-accuracy line does not raise. |
| `Evaluation.ArgMax` | kws/fine-tune.py:212 | The prediction is an index holding the row's largest score, and no earlier index holds it (torch returns the first maximum). |
| `Evaluation.CountCorrect` | kws/fine-tune.py:213 | A batch's correct count is at most its number of samples. |
| `Evaluation.CountCorrectIsHits` | kws/fine-tune.py:212-213 | The count equals the number of samples whose argmax equals the label. |
| `Evaluation.CountCorrectAppend` | kws/fine-tune.py:208-213 | Counting two groups of samples separately and adding gives the count over both. |
| `Evaluation.Correct` | mnist/search.py:163-168 | The correct count accumulated over the loader is at most the dataset length N. |
| `Evaluation.CorrectIsDatasetCount` | mnist/search.py:163-168 | The accumulated count equals the argmax/label count over the whole dataset, however it is cut into batches. |
| `Evaluation.PercentBounded` | kws/fine-tune.py:221 | `100 * correct / N` lies in [0, 100] when correct <= N. |
| `Evaluation.Evaluate` | kws/fine-tune.py:203-221 | An empty dataset gives ZeroDivisionError. Otherwise the result holds: correct = the accumulated count, N = the dataset length, mean loss = summed loss / N, and accuracy = 100 * correct / N in [0, 100]. |
| `Complexity.TotalSize` | mnist/search.py:107 | The aggregate size fails exactly for an empty size dict and is non-negative for non-negative layers. |
| `Complexity.TotalOps` | mnist/search.py:108 | The aggregate ops fails exactly for an empty ops dict and is non-negative for non-negative layers. |
| `Complexity.SumNonNegative` | mnist/search.py:142-146 | A sum of non-negative per-layer figures is non-negative. |
| `Complexity.SumMonotone` | mnist/search.py:145 | Lowering per-layer figures, with the same number of layers, never raises their sum. |
| `Complexity.SumUpdate` | mnist/search.py:142 | Changing one layer's figure changes the aggregate by exactly the difference. |
| `Complexity.ShrinkingLayerShrinksTotals` | mnist/search.py:123-124 | A layer whose size and ops do not grow, with the others fixed, does not raise the aggregate size or ops. |
| `Complexity.Trunc` | mnist/search.py:112 | `int(v)` truncates toward zero: it is within 1 of v and on the zero side of it. |
| `Complexity.ChannelReport` | mnist/search.py:110-112 | One line per layer, in dict order, with the layer's name and `int(alive) + 1`. For non-negative alive values the reported count c satisfies c - 1 <= alive < c. |
| `Complexity.ChannelReportOfCount` | mnist/search.py:111-112 | A layer whose alive entry is the whole number n is reported with n + 1 channels. |
| `Search.Loss` | mnist/search.py:140-148 | Fails exactly without layers. The total is nll + size penalty + ops penalty. The size penalty is >= 0 for cd_size >= 0. The ops penalty is 0 for cd_ops = 0, and >= 0 for cd_ops >= 0 with non-negative layers. The size penalty is 0 exactly when cd_size = 0 or the aggregate size hits the target. |
| `Search.SizeLossAtZeroTarget` | mnist/search.py:142-143 | With size_target = 0, cd_size = 1 and non-negative sizes, the size penalty equals the aggregate size. |
| `Search.SizeLossPullsToTarget` | mnist/search.py:142-143 | With cd_size > 0, one model's size penalty is below another's exactly when its aggregate size is closer to the target. |
| `Search.OpsLossMonotone` | mnist/search.py:145-146 | With cd_ops >= 0, lowering layers' op counts never raises the ops penalty. |
| `Search.SearchControl` | mnist/search.py:136-156 | The epoch raises exactly when there is a first batch and either the model has no searchable layers or the log interval is 0. Without layers, the raise comes before any step or line, because `torch.abs` gets a plain 0. A zero interval raises after batch 0's step. A dry run with layers and a nonzero interval makes one step and logs batch 0. A run that does not raise steps through every batch, or through one under dry run. With layers, the control is exactly the common `TrainControl`. |
| `Search.Train` | mnist/search.py:134-156 | The batch loop returns exactly `SearchControl`: a model without layers raises on batch 0 before any step. Each progress line names a logged batch and carries that batch's total loss, size penalty and ops penalty. |
| `Search.GeometricNonIncreasing` | mnist/search.py:103 | With gamma in [0, 1] and lr >= 0, `lr * gamma^n` is non-negative and never rises as n grows. |
| `Search.StepLR.constructor` | mnist/search.py:103 | The scheduler starts at the optimizer's initial rate with no steps taken. |
| `Search.StepLR.Step` | mnist/search.py:120 | One step multiplies the rate by gamma and keeps the invariant rate = lr * gamma^(steps). |
| `Search.Run` | mnist/search.py:105-132 | An empty complexity dict fails. Otherwise the initial report is the aggregate size, ops and channel report. With `--eval-complexity` the run exits right after it: no epoch, no save. Otherwise it runs max(epochs, 0) epochs, epoch e training at lr * gamma^(e-1). The final report has the final aggregates and, per layer, the final and initial `int(alive) + 1`. |

## Left out

- Argument parsing, dataset download and preparation, shuffling, `np.vstack` reshaping and `DataLoader` batching, workers and pinning are library plumbing. Loaders appear only as sequences of batches. The dataset wrapper (`data_wrapper`) is not part of this model.
- Forward passes, cross-entropy and NLL values, `backward()` and the Adam/Adadelta update rules are autodiff inside torch. Score rows and per-batch losses are inputs.
- The complexity tracker (`size_dict`, `ops_dict`, `alive_ch`) lives in the `models` package, which is not part of this model. Per-layer figures are inputs, as one ordered sequence of layers standing for the three dicts, which share their keys.
- `torch.save`, checkpoint path formatting, device choice and the random seed are side effects and environment. A save is recorded as the epoch it happens on (fine-tune) or as a `Completed` run (search).
- Print formatting is left out. A progress line is its batch index, plus the loss terms for the search.
- Floating point is left out: rates, losses and accuracies are exact reals, so float32 rounding and non-finite losses (NaN comparisons in the checkpoint choice) are not modelled.
- FineTune.Run: each epoch's `train` and the two `test` calls are taken to complete. Their results are inputs (the validation and test accuracies). Their own failures, modelled in `FineTune.Train` and `Evaluation.Evaluate`, are not propagated through the epoch loop.
- FineTune.Run: Adam's param group holds only 'lr' and 'weight_decay'. Adam's other default entries are not represented; no code modelled here reads them.
- Search.Run: the dummy `test` call before the initial report and each epoch's `train` and `test` are taken to complete and are not repeated inside the loop. Their own failures are modelled in `Search.Train` and `Evaluation.Evaluate`.
- Search.StepLR: only `step_size = 1`, the value the driver uses, and the optimizer's single param group are modelled.
- Search.Train: requires every batch to report the same number of layers, since every forward pass of one model does. A model without layers therefore fails on batch 0.
- Evaluation.Evaluate: requires one non-empty score row per label. Shape mismatches that torch would reject are not modelled. The dataset length is the number of samples the loader yields, with no dropped last batch.
