/** The control of one training epoch, as both `train` functions run it: for
    every batch one `zero_grad()`/`step()` pair, then a progress line when
    `batch_idx % log_interval == 0`, and inside that branch a `break` when the
    dry-run flag is set. Forward passes, losses and the optimizer's update rule
    are not modelled here; only which batches step and which ones log. */
module Training {

  /** What one call of `train` did: the number of optimizer steps, the batch
      indices that printed a progress line (in order), and whether the call
      raised instead of returning. */
  datatype EpochRun = EpochRun(steps: nat, logged: seq<nat>, raised: bool)

  /** Does batch `i` print a progress line under logging interval `k`?
      Python's `%` floors and Dafny's is Euclidean, but for a nonzero `k`
      both give 0 exactly when `k` divides `i`, which is all the condition asks. */
  predicate LogsAt(i: nat, k: int)
    requires k != 0
  {
    i % k == 0
  }

  /** The batch indices among 0 .. m-1 that print a progress line. */
  function LoggedUpTo(m: nat, k: int): seq<nat>
    requires k != 0
  {
    if m == 0 then [] else LoggedUpTo(m - 1, k) + (if LogsAt(m - 1, k) then [m - 1] else [])
  }

  /** Reference behaviour of one epoch over `n` batches with logging interval
      `k` and the dry-run flag:
      - an empty loader does nothing;
      - with `k == 0`, batch 0 steps and then `0 % 0` raises ZeroDivisionError;
      - with dry-run, batch 0 always logs (0 is a multiple of every `k`), so
        the loop breaks after exactly one step;
      - otherwise every batch steps and the multiples of `k` log. */
  function TrainControl(n: nat, k: int, dryRun: bool): (r: EpochRun)
    ensures r.steps <= n && (n > 0 ==> r.steps > 0)
    ensures r.raised <==> n > 0 && k == 0
    ensures n > 0 && k == 0 ==> r.steps == 1 && r.logged == []
    ensures dryRun && n > 0 ==> r.steps == 1 && |r.logged| <= 1
    ensures !dryRun && !r.raised ==> r.steps == n
    ensures forall j :: 0 <= j < |r.logged| ==> r.logged[j] < r.steps && k != 0 && LogsAt(r.logged[j], k)
    ensures forall i :: 0 <= i < r.steps && k != 0 ==> (LogsAt(i, k) <==> i in r.logged)
  {
    if n == 0 then EpochRun(0, [], false)
    else if k == 0 then EpochRun(1, [], true)
    else if dryRun then EpochRun(1, [0], false)
    else
      LoggedUpToExactly(n, k);
      assert forall j :: 0 <= j < |LoggedUpTo(n, k)| ==> LoggedUpTo(n, k)[j] in LoggedUpTo(n, k);
      EpochRun(n, LoggedUpTo(n, k), false)
  }

  /** The logged indices are exactly the multiples of `k` below `m`. */
  lemma {:induction false} LoggedUpToExactly(m: nat, k: int)
    requires k != 0
    ensures forall i: nat :: i in LoggedUpTo(m, k) <==> i < m && LogsAt(i, k)
  {
    if m > 0 {
      LoggedUpToExactly(m - 1, k);
    }
  }

  /** The logged indices come out in strictly increasing order, so no batch
      logs twice. */
  lemma {:induction false} LoggedUpToIncreasing(m: nat, k: int)
    requires k != 0
    ensures forall i, j :: 0 <= i < j < |LoggedUpTo(m, k)| ==> LoggedUpTo(m, k)[i] < LoggedUpTo(m, k)[j]
  {
    if m > 0 {
      var s := LoggedUpTo(m - 1, k);
      LoggedUpToIncreasing(m - 1, k);
      LoggedUpToExactly(m - 1, k);
      assert forall i :: 0 <= i < |s| ==> s[i] in s;
      forall i, j | 0 <= i < j < |LoggedUpTo(m, k)|
        ensures LoggedUpTo(m, k)[i] < LoggedUpTo(m, k)[j]
      {
        if j == |s| {
          assert LoggedUpTo(m, k)[j] == m - 1;
          assert LoggedUpTo(m, k)[i] == s[i];
        }
      }
    }
  }

  /** Division by a positive `a` is determined by quotient and remainder. */
  lemma DivByParts(x: int, a: int, q: int, r: int)
    requires a > 0 && 0 <= r < a && x == q * a + r
    ensures x / a == q
  {
    var q' := x / a;
    assert x == q' * a + x % a;
    if q' > q {
      MulMonotone(q + 1, q', a);
      assert false;
    } else if q' < q {
      MulMonotone(q' + 1, q, a);
      assert false;
    }
  }

  lemma MulMonotone(b: int, c: int, a: int)
    requires b <= c && a > 0
    ensures b * a <= c * a
  {
  }

  /** Euclidean remainder by `k` and by `-k` agree. */
  lemma ModNegate(x: nat, k: int)
    requires k < 0
    ensures x % k == x % -k
  {
    var q, r := x / -k, x % -k;
    assert x == (-q) * k + r;
    DivByParts(x, -k, q, r);
  }

  /** One more batch adds one to ceil(x / a) exactly when `a` divides `x`. */
  lemma CeilStep(x: nat, a: int)
    requires a > 0
    ensures (x + a) / a == (x + a - 1) / a + (if x % a == 0 then 1 else 0)
  {
    var q, r := x / a, x % a;
    assert x == q * a + r;
    if r == 0 {
      DivByParts(x + a - 1, a, q, a - 1);
    } else {
      DivByParts(x + a - 1, a, q + 1, r - 1);
    }
    DivByParts(x + a, a, q + 1, r);
  }

  /** Without dry-run, `m` batches log ceil(m / |k|) progress lines. */
  lemma {:induction false} LoggedUpToCount(m: nat, k: int)
    requires k != 0
    ensures |LoggedUpTo(m, k)| == (m + Magnitude(k) - 1) / Magnitude(k)
  {
    var a := Magnitude(k);
    if m > 0 {
      LoggedUpToCount(m - 1, k);
      var x := m - 1;
      if k < 0 {
        ModNegate(x, k);
      }
      assert LogsAt(x, k) <==> x % a == 0;
      assert |LoggedUpTo(m, k)| == |LoggedUpTo(x, k)| + (if LogsAt(x, k) then 1 else 0);
      CeilStep(x, a);
      assert x + a == m + a - 1;
    }
  }

  function Magnitude(k: int): (a: nat)
    ensures k != 0 ==> a > 0
  {
    if k < 0 then -k else k
  }

  /** The dry-run promise: one optimizer step and one progress line (batch 0),
      whatever the loader length and the (nonzero) logging interval. */
  lemma DryRunSingleBatch(n: nat, k: int)
    requires n > 0 && k != 0
    ensures TrainControl(n, k, true) == EpochRun(1, [0], false)
  {
  }
}
