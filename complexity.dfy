/** The per-layer complexity figures that a searchable model exposes after a
    forward pass (`size_dict`, `ops_dict`, `alive_ch`), and the reductions the
    drivers apply to them. The tracker that computes the figures lives in the
    model code, which is not part of this model: every figure is an input. */
module Complexity {
  import opened Wrappers

  /** One searchable layer: its entries in `size_dict`, `ops_dict` and
      `alive_ch`, which share the layer name as key. */
  datatype Layer = Layer(name: string, size: real, ops: real, alive: real)

  /** The tracker's invariant: sizes and op counts are never negative. */
  predicate NonNegative(layers: seq<Layer>)
  {
    forall i :: 0 <= i < |layers| ==> layers[i].size >= 0.0 && layers[i].ops >= 0.0
  }

  /** Python's `sum`: a left fold starting from 0. */
  function Sum(xs: seq<real>): real
  {
    if xs == [] then 0.0 else Sum(xs[..|xs| - 1]) + xs[|xs| - 1]
  }

  /** The values of `size_dict`, in layer order. */
  function Sizes(layers: seq<Layer>): seq<real>
  {
    seq(|layers|, i requires 0 <= i < |layers| => layers[i].size)
  }

  /** The values of `ops_dict`, in layer order. */
  function Ops(layers: seq<Layer>): seq<real>
  {
    seq(|layers|, i requires 0 <= i < |layers| => layers[i].ops)
  }

  /** `sum(model.size_dict.values())` as a tensor: the aggregate size, or a
      failure when the dict is empty and the sum is the plain int 0. */
  function TotalSize(layers: seq<Layer>): (r: Result<real>)
    ensures r.Err? <==> |layers| == 0
    ensures r.Ok? && NonNegative(layers) ==> r.value >= 0.0
  {
    if |layers| == 0 then Err(NotATensor)
    else
      var total := Sum(Sizes(layers));
      assert NonNegative(layers) ==> total >= 0.0 by {
        if NonNegative(layers) {
          SumNonNegative(Sizes(layers));
        }
      }
      Ok(total)
  }

  /** `sum(model.ops_dict.values())` as a tensor, as for TotalSize. */
  function TotalOps(layers: seq<Layer>): (r: Result<real>)
    ensures r.Err? <==> |layers| == 0
    ensures r.Ok? && NonNegative(layers) ==> r.value >= 0.0
  {
    if |layers| == 0 then Err(NotATensor)
    else
      var total := Sum(Ops(layers));
      assert NonNegative(layers) ==> total >= 0.0 by {
        if NonNegative(layers) {
          SumNonNegative(Ops(layers));
        }
      }
      Ok(total)
  }

  /** A sum of non-negative figures is non-negative. */
  lemma {:induction false} SumNonNegative(xs: seq<real>)
    requires forall i :: 0 <= i < |xs| ==> xs[i] >= 0.0
    ensures Sum(xs) >= 0.0
  {
    if xs != [] {
      SumNonNegative(xs[..|xs| - 1]);
    }
  }

  /** Sums are monotone: lowering any layers' figures, holding the number of
      layers fixed, never raises the aggregate. */
  lemma {:induction false} SumMonotone(xs: seq<real>, ys: seq<real>)
    requires |xs| == |ys|
    requires forall i :: 0 <= i < |xs| ==> xs[i] <= ys[i]
    ensures Sum(xs) <= Sum(ys)
  {
    if xs != [] {
      SumMonotone(xs[..|xs| - 1], ys[..|ys| - 1]);
    }
  }

  /** Changing one layer's figure changes the aggregate by exactly the
      difference, whatever the other layers hold. */
  lemma {:induction false} SumUpdate(xs: seq<real>, i: nat, v: real)
    requires i < |xs|
    ensures Sum(xs[i := v]) == Sum(xs) - xs[i] + v
  {
    var n := |xs|;
    if i < n - 1 {
      SumUpdate(xs[..n - 1], i, v);
      assert xs[i := v][..n - 1] == xs[..n - 1][i := v];
    } else {
      assert xs[i := v][..n - 1] == xs[..n - 1];
    }
  }

  /** When one layer loses alive channels its size and op count do not grow
      (the tracker's contract); then neither aggregate grows. */
  lemma ShrinkingLayerShrinksTotals(layers: seq<Layer>, i: nat, smaller: Layer)
    requires i < |layers|
    requires smaller.size <= layers[i].size && smaller.ops <= layers[i].ops
    ensures TotalSize(layers[i := smaller]).value <= TotalSize(layers).value
    ensures TotalOps(layers[i := smaller]).value <= TotalOps(layers).value
  {
    assert Sizes(layers[i := smaller]) == Sizes(layers)[i := smaller.size];
    assert Ops(layers[i := smaller]) == Ops(layers)[i := smaller.ops];
    SumUpdate(Sizes(layers), i, smaller.size);
    SumUpdate(Ops(layers), i, smaller.ops);
  }

  /** Python's `int(v)` on a number: truncation toward zero. */
  function Trunc(x: real): (r: int)
    ensures x >= 0.0 ==> r as real <= x < r as real + 1.0
    ensures x < 0.0 ==> r as real - 1.0 < x <= r as real
  {
    if x >= 0.0 then x.Floor else -((-x).Floor)
  }

  /** One line of the channel report: a layer and `int(v) + 1`. */
  datatype ChannelCount = ChannelCount(layer: string, channels: int)

  /** The report printed for `alive_ch`, in the dict's order. */
  function ChannelReport(layers: seq<Layer>): (r: seq<ChannelCount>)
    ensures |r| == |layers|
    ensures forall i :: 0 <= i < |r| ==> r[i].layer == layers[i].name
    ensures forall i :: 0 <= i < |r| ==>
      r[i].channels as real - 1.0 <= layers[i].alive < r[i].channels as real || layers[i].alive < 0.0
  {
    seq(|layers|, i requires 0 <= i < |layers| => ChannelCount(layers[i].name, Trunc(layers[i].alive) + 1))
  }

  /** A layer whose `alive_ch` entry is a whole number n is reported with
      n + 1 channels. */
  lemma ChannelReportOfCount(layers: seq<Layer>, i: nat, n: nat)
    requires i < |layers| && layers[i].alive == n as real
    ensures ChannelReport(layers)[i].channels == n + 1
  {
  }
}
