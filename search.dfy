/** The control logic of the MNIST architecture-search driver: the loss that
    adds the size and ops penalties to the classification loss, the batch loop
    of `train`, the geometric learning-rate schedule stepped once per epoch,
    and the complexity report of `main`. */
module Search {
  import opened Wrappers
  import opened Training
  import opened Complexity

  /** The command-line settings the modelled code reads. */
  datatype Args = Args(
    epochs: int, lr: real, gamma: real,
    cdSize: real, cdOps: real, sizeTarget: real,
    evalComplexity: bool, dryRun: bool, logInterval: int)

  function Abs(x: real): (r: real)
    ensures r >= 0.0 && (r == x || r == -x)
  {
    if x < 0.0 then -x else x
  }

  /** The three loss terms of one batch: the total that is backpropagated,
      and the size and ops penalties that are logged beside it. */
  datatype LossTerms = LossTerms(total: real, size: real, ops: real)

  /** The search loss of one batch: the classification loss `nll` plus
      `cd_size * |aggregate size - size_target|` plus `cd_ops * aggregate ops`.
      It fails when the model has no searchable layer, because the empty sum
      is a plain 0 that `torch.abs` rejects. */
  function Loss(nll: real, layers: seq<Layer>, cdSize: real, cdOps: real, sizeTarget: real): (r: Result<LossTerms>)
    ensures r.Err? <==> |layers| == 0
    ensures r.Err? ==> r.error == NotATensor
    ensures r.Ok? ==> r.value.total == nll + r.value.size + r.value.ops
    ensures r.Ok? && cdSize >= 0.0 ==> r.value.size >= 0.0
    ensures r.Ok? && cdOps == 0.0 ==> r.value.ops == 0.0
    ensures r.Ok? && cdOps >= 0.0 && NonNegative(layers) ==> r.value.ops >= 0.0
    ensures r.Ok? ==> (r.value.size == 0.0 <==> cdSize == 0.0 || TotalSize(layers).value == sizeTarget)
  {
    match TotalSize(layers)
    case Err(e) => Err(e)
    case Ok(size) =>
      var lossSize := cdSize * Abs(size - sizeTarget);
      var lossOps := cdOps * TotalOps(layers).value;
      Ok(LossTerms(nll + (lossSize + lossOps), lossSize, lossOps))
  }

  /** With `size_target = 0` and `cd_size = 1` the size penalty is the
      aggregate size itself, so every remaining parameter is penalised. */
  lemma SizeLossAtZeroTarget(nll: real, layers: seq<Layer>, cdOps: real)
    requires |layers| > 0 && NonNegative(layers)
    ensures Loss(nll, layers, 1.0, cdOps, 0.0).value.size == TotalSize(layers).value
  {
    SumNonNegative(Sizes(layers));
  }

  /** The size penalty is an L1 pull toward the target, not toward zero: with
      a positive coefficient, one model has a smaller penalty than another
      exactly when its aggregate size is closer to the target. */
  lemma SizeLossPullsToTarget(nll: real, a: seq<Layer>, b: seq<Layer>, cdSize: real, cdOps: real, sizeTarget: real)
    requires |a| > 0 && |b| > 0 && cdSize > 0.0
    ensures var da := Abs(TotalSize(a).value - sizeTarget);
            var db := Abs(TotalSize(b).value - sizeTarget);
            Loss(nll, a, cdSize, cdOps, sizeTarget).value.size < Loss(nll, b, cdSize, cdOps, sizeTarget).value.size
            <==> da < db
  {
    var da := Abs(TotalSize(a).value - sizeTarget);
    var db := Abs(TotalSize(b).value - sizeTarget);
    assert Loss(nll, a, cdSize, cdOps, sizeTarget).value.size == cdSize * da;
    assert Loss(nll, b, cdSize, cdOps, sizeTarget).value.size == cdSize * db;
    assert da < db ==> cdSize * da < cdSize * db;
    assert cdSize * da < cdSize * db ==> da < db;
  }

  /** The ops penalty only discourages compute: with a non-negative
      coefficient, lowering any layers' op counts never raises it. */
  lemma OpsLossMonotone(nll: real, a: seq<Layer>, b: seq<Layer>, cdSize: real, cdOps: real, sizeTarget: real)
    requires |a| == |b| > 0 && cdOps >= 0.0
    requires forall i :: 0 <= i < |a| ==> a[i].ops <= b[i].ops
    ensures Loss(nll, a, cdSize, cdOps, sizeTarget).value.ops <= Loss(nll, b, cdSize, cdOps, sizeTarget).value.ops
  {
    SumMonotone(Ops(a), Ops(b));
  }

  /** One batch as `train` sees it: the classification loss and the
      complexity figures of the forward pass that produced it. */
  datatype SearchBatch = SearchBatch(nll: real, layers: seq<Layer>)

  /** A progress line: batch index, total loss, size and ops penalties. */
  datatype ProgressLine = ProgressLine(batch: nat, loss: real, sizeLoss: real, opsLoss: real)

  /** A progress line carries the loss terms of the batch it names. */
  predicate LineMatches(batches: seq<SearchBatch>, args: Args, line: ProgressLine)
  {
    && line.batch < |batches|
    && Loss(batches[line.batch].nll, batches[line.batch].layers, args.cdSize, args.cdOps, args.sizeTarget)
         == Ok(LossTerms(line.loss, line.sizeLoss, line.opsLoss))
  }

  /** Every forward pass of one model reports the same layers. */
  predicate SameLayers(batches: seq<SearchBatch>)
  {
    forall i :: 0 <= i < |batches| ==> |batches[i].layers| == |batches[0].layers|
  }

  /** Reference behaviour of `train`: a model without searchable layers
      raises on batch 0 before its step; otherwise the loop control is the
      common one. */
  function SearchControl(batches: seq<SearchBatch>, k: int, dryRun: bool): (r: EpochRun)
    ensures r.raised <==> |batches| > 0 && (|batches[0].layers| == 0 || k == 0)
    ensures |batches| > 0 && |batches[0].layers| == 0 ==> r.steps == 0 && r.logged == []
    ensures |batches| > 0 && |batches[0].layers| > 0 && k == 0 ==> r.steps == 1 && r.logged == []
    ensures dryRun && |batches| > 0 && |batches[0].layers| > 0 && k != 0 ==> r == EpochRun(1, [0], false)
    ensures !r.raised ==> r.steps == |batches| || (dryRun && r.steps == 1)
    ensures |batches| > 0 && |batches[0].layers| > 0 ==> r == TrainControl(|batches|, k, dryRun)
  {
    if |batches| > 0 && |batches[0].layers| == 0 then EpochRun(0, [], true)
    else TrainControl(|batches|, k, dryRun)
  }

  /** `train`: per batch, compute the search loss, step, and log the three
      loss terms when the batch index is a multiple of the interval. */
  method Train(batches: seq<SearchBatch>, args: Args) returns (run: EpochRun, lines: seq<ProgressLine>)
    requires SameLayers(batches)
    ensures run == SearchControl(batches, args.logInterval, args.dryRun)
    ensures |lines| == |run.logged|
    ensures forall j :: 0 <= j < |lines| ==> lines[j].batch == run.logged[j] && LineMatches(batches, args, lines[j])
  {
    var k := args.logInterval;
    var steps, logged := 0, [];
    lines := [];
    var batchIdx := 0;
    while batchIdx < |batches|
      invariant batchIdx <= |batches| && steps == batchIdx
      invariant k == 0 || args.dryRun || (|batches| > 0 && |batches[0].layers| == 0) ==> batchIdx == 0
      invariant k != 0 ==> logged == LoggedUpTo(batchIdx, k)
      invariant k == 0 ==> logged == []
      invariant |lines| == |logged|
      invariant forall j :: 0 <= j < |lines| ==> lines[j].batch == logged[j] && LineMatches(batches, args, lines[j])
    {
      var b := batches[batchIdx];
      // optimizer.zero_grad(); output = model(data); loss = F.nll_loss(...)
      var terms := Loss(b.nll, b.layers, args.cdSize, args.cdOps, args.sizeTarget);
      if terms.Err? {
        return EpochRun(steps, logged, true), lines;
      }
      // loss.backward(); optimizer.step()
      steps := steps + 1;
      if k == 0 {
        return EpochRun(steps, logged, true), lines;
      }
      if batchIdx % k == 0 {
        logged := logged + [batchIdx];
        var line := ProgressLine(batchIdx, terms.value.total, terms.value.size, terms.value.ops);
        assert LineMatches(batches, args, line);
        lines := lines + [line];
        if args.dryRun {
          break;
        }
      }
      batchIdx := batchIdx + 1;
    }
    run := EpochRun(steps, logged, false);
  }

  /** gamma to the power n. */
  function Pow(g: real, n: nat): real
  {
    if n == 0 then 1.0 else Pow(g, n - 1) * g
  }

  /** The rate after n scheduler steps: `lr * gamma^n`. */
  function Geometric(lr: real, g: real, n: nat): real
  {
    lr * Pow(g, n)
  }

  /** With a decay factor in [0, 1] and a non-negative initial rate, the
      geometric schedule never rises and never goes negative. */
  lemma {:induction false} GeometricNonIncreasing(lr: real, g: real, m: nat, n: nat)
    requires lr >= 0.0 && 0.0 <= g <= 1.0 && m <= n
    ensures 0.0 <= Geometric(lr, g, n) <= Geometric(lr, g, m)
  {
    if n > 0 {
      var m' := if m < n then m else n - 1;
      GeometricNonIncreasing(lr, g, m', n - 1);
      var p := Geometric(lr, g, n - 1);
      assert Geometric(lr, g, n) == p * g;
      assert 0.0 <= p * g <= p;
    }
  }

  /** `StepLR(optimizer, step_size=1, gamma)` over the optimizer's single
      param group: `lr` is that group's rate, which `step()` multiplies by
      `gamma`. */
  class StepLR {
    var lr: real
    const baseLr: real
    const gamma: real
    var lastEpoch: nat

    ghost predicate Valid()
      reads this
    {
      lr == Geometric(baseLr, gamma, lastEpoch)
    }

    constructor (lr0: real, gamma: real)
      ensures Valid() && lr == lr0 && baseLr == lr0 && this.gamma == gamma && lastEpoch == 0
    {
      lr := lr0;
      baseLr := lr0;
      this.gamma := gamma;
      lastEpoch := 0;
    }

    method Step()
      requires Valid()
      modifies this
      ensures Valid() && lastEpoch == old(lastEpoch) + 1 && lr == old(lr) * gamma
    {
      lastEpoch := lastEpoch + 1;
      lr := lr * gamma;
      assert Geometric(baseLr, gamma, lastEpoch) == Geometric(baseLr, gamma, lastEpoch - 1) * gamma;
    }
  }

  /** The complexity report printed before and after the search. */
  datatype ComplexityReport = ComplexityReport(size: real, ops: real, channels: seq<ChannelCount>)

  /** One line of the final channel report: `final/initial` for a layer. */
  datatype ChannelChange = ChannelChange(layer: string, final: int, initial: int)

  /** How `main` ends: right after the initial report with
      `--eval-complexity`, or after every epoch with the final report and the
      checkpoint written. */
  datatype SearchRun =
    | ExitedEarly(initial: ComplexityReport)
    | Completed(initial: ComplexityReport, ratesUsed: seq<real>, finalSize: real, finalOps: real,
                changes: seq<ChannelChange>)

  /** The driver loop of `main`. `initial` and `final` are the model's
      complexity figures before the first and after the last epoch (the same
      layers, in the dicts' order). Each epoch trains and tests, which this
      method does not repeat, then steps the scheduler; `ratesUsed[e - 1]`
      is the rate that epoch e trained at: `lr * gamma^(e - 1)`. */
  method Run(args: Args, initial: seq<Layer>, final: seq<Layer>) returns (r: Result<SearchRun>)
    requires |final| == |initial| && forall i :: 0 <= i < |final| ==> final[i].name == initial[i].name
    ensures r.Err? <==> |initial| == 0
    ensures r.Ok? ==> r.value.initial.size == TotalSize(initial).value
    ensures r.Ok? ==> r.value.initial.ops == TotalOps(initial).value
    ensures r.Ok? ==> r.value.initial.channels == ChannelReport(initial)
    ensures r.Ok? ==> (r.value.ExitedEarly? <==> args.evalComplexity)
    ensures r.Ok? && r.value.Completed? ==>
      |r.value.ratesUsed| == (if args.epochs > 0 then args.epochs else 0)
      && (forall e :: 0 <= e < |r.value.ratesUsed| ==> r.value.ratesUsed[e] == Geometric(args.lr, args.gamma, e))
    ensures r.Ok? && r.value.Completed? ==>
      r.value.finalSize == TotalSize(final).value && r.value.finalOps == TotalOps(final).value
      && |r.value.changes| == |final|
      && forall i :: 0 <= i < |final| ==>
           r.value.changes[i] == ChannelChange(final[i].name, ChannelReport(final)[i].channels, ChannelReport(initial)[i].channels)
  {
    var sizeI, opsI := TotalSize(initial), TotalOps(initial);
    if sizeI.Err? {
      return Err(sizeI.error);
    }
    var report := ComplexityReport(sizeI.value, opsI.value, ChannelReport(initial));
    if args.evalComplexity {
      return Ok(ExitedEarly(report));
    }
    var scheduler := new StepLR(args.lr, args.gamma);
    var ratesUsed := [];
    var n := if args.epochs > 0 then args.epochs else 0;
    var epoch := 1;
    while epoch <= n
      invariant 1 <= epoch <= n + 1
      invariant scheduler.Valid() && scheduler.lastEpoch == epoch - 1
      invariant scheduler.baseLr == args.lr && scheduler.gamma == args.gamma
      invariant |ratesUsed| == epoch - 1
      invariant forall e :: 0 <= e < epoch - 1 ==> ratesUsed[e] == Geometric(args.lr, args.gamma, e)
    {
      // train(...); test(...)
      ghost var before := ratesUsed;
      ratesUsed := ratesUsed + [scheduler.lr];
      assert forall e :: 0 <= e < epoch - 1 ==> ratesUsed[e] == before[e];
      scheduler.Step();
      epoch := epoch + 1;
    }
    var initialChannels, finalChannels := ChannelReport(initial), ChannelReport(final);
    var changes := seq(|final|, i requires 0 <= i < |final| =>
      ChannelChange(final[i].name, finalChannels[i].channels, initialChannels[i].channels));
    r := Ok(Completed(report, ratesUsed, TotalSize(final).value, TotalOps(final).value, changes));
  }
}
