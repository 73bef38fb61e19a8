/** Splitting the daily history into 30-day regressions and projecting one
    line from them. */
module Segments {
  import opened Wrappers
  import opened SeqMath
  import opened RealAlgebra
  import opened Ols

  /** The slice width in days. */
  const Window: nat := 30

  function WindowEnd(start: nat, n: nat): (end: nat)
    requires start < n
    ensures start < end <= n && end - start <= Window
  {
    if start + Window > n then n else start + Window
  }

  /** The fits of the windows from `start` on, in order, keeping only the
      windows `Fit` accepts. */
  function WindowFits(days: seq<DayData>, income: seq<real>, start: nat): seq<Line>
    requires |income| >= |days|
    decreases |days| - start
  {
    if start >= |days| then []
    else
      var end := WindowEnd(start, |days|);
      var fit := FitLine(DayXs(days[start..end]), income[start..end]);
      (if fit.Ok? then [fit.value] else []) + WindowFits(days, income, end)
  }

  /** The regression columns of the window `[start, end)`: day numbers as
      the regressor and the income of those days as the observations. */
  method WindowColumns(days: seq<DayData>, income: seq<real>, start: nat, end: nat)
    returns (x: array<real>, y: array<real>)
    requires start <= end <= |days| && |days| <= |income|
    ensures fresh(x) && fresh(y)
    ensures x[..] == DayXs(days[start..end]) && y[..] == income[start..end]
  {
    var size := end - start;
    x := new real[size];
    y := new real[size];
    ghost var window := days[start..end];
    for i := 0 to size
      invariant forall k :: 0 <= k < i ==> x[k] == window[k].dayNumber as real
      invariant forall k :: 0 <= k < i ==> y[k] == income[start + k]
    {
      x[i] := days[start + i].dayNumber as real;
      y[i] := income[start + i];
    }
    assert x[..] == DayXs(window);
    assert y[..] == income[start..end];
  }

  /** `MonthSlicer`: one fresh model per window of 30 days, appended when
      its fit succeeds. */
  method MonthSlicer(days: seq<DayData>, income: seq<real>) returns (regs: seq<Line>)
    requires |income| >= |days|
    ensures regs == WindowFits(days, income, 0)
  {
    if |days| == 0 {
      return [];
    }
    regs := [];
    var start: nat := 0;
    while start < |days|
      invariant regs + WindowFits(days, income, start) == WindowFits(days, income, 0)
      decreases |days| - start
    {
      var end := start + Window;
      if end > |days| {
        end := |days|;
      }
      var x, y := WindowColumns(days, income, start, end);
      ghost var fit := FitLine(x[..], y[..]);
      ghost var kept := if fit.Ok? then [fit.value] else [];
      assert end == WindowEnd(start, |days|);
      assert WindowFits(days, income, start) == kept + WindowFits(days, income, end);
      ghost var before := regs;
      var model := new OlsModel();
      var err := model.Fit(x[..], y[..]);
      if err.None? {
        regs := regs + [model.Snapshot()];
      }
      assert regs == before + kept;
      ConcatAssoc(before, kept, WindowFits(days, income, end));
      start := start + Window;
    }
  }

  /** At most one regression per window. */
  lemma {:induction false} WindowFitsBound(days: seq<DayData>, income: seq<real>, start: nat)
    requires |income| >= |days| && start <= |days|
    ensures |WindowFits(days, income, start)| <= (|days| - start + Window - 1) / Window
    decreases |days| - start
  {
    if start < |days| {
      WindowFitsBound(days, income, WindowEnd(start, |days|));
    }
  }

  /** Number of windows of the `n` remaining days that hold two days or
      more. */
  function FittableWindows(n: nat): nat
  {
    n / Window + (if n % Window >= 2 then 1 else 0)
  }

  lemma {:induction false} FittableWindowsStep(n: nat)
    ensures n <= Window ==> FittableWindows(n) == (if n >= 2 then 1 else 0)
    ensures n > Window ==> FittableWindows(n) == 1 + FittableWindows(n - Window)
  {
  }

  /** With strictly increasing day numbers every window of two days or more
      is fitted and only a trailing single day is dropped. */
  lemma {:induction false} WindowFitsCount(days: seq<DayData>, income: seq<real>, start: nat)
    requires |income| >= |days| && start <= |days|
    requires forall i, j :: 0 <= i < j < |days| ==> days[i].dayNumber < days[j].dayNumber
    ensures |WindowFits(days, income, start)| == FittableWindows(|days| - start)
    decreases |days| - start
  {
    if start < |days| {
      var end := WindowEnd(start, |days|);
      var window := days[start..end];
      if end - start >= 2 {
        DistinctDaysFit(window, income[start..end], 0, 1);
      } else {
        SameDayFails(window, income[start..end]);
      }
      WindowFitsCount(days, income, end);
      FittableWindowsStep(|days| - start);
    }
  }

  // ---------------------------------------------------------------------
  // Projection
  // ---------------------------------------------------------------------

  function Weights(regs: seq<Line>): (ws: seq<real>)
    ensures |ws| == |regs| && forall i :: 0 <= i < |regs| ==> ws[i] == regs[i].weight
  {
    if |regs| == 0 then [] else Weights(regs[..|regs| - 1]) + [regs[|regs| - 1].weight]
  }

  function Biases(regs: seq<Line>): (bs: seq<real>)
    ensures |bs| == |regs| && forall i :: 0 <= i < |regs| ==> bs[i] == regs[i].bias
  {
    if |regs| == 0 then [] else Biases(regs[..|regs| - 1]) + [regs[|regs| - 1].bias]
  }

  /** The recency factor of slice `i` of `k`: `(1+i)/k` when weighted, else 1. */
  function Factor(i: nat, k: nat, weighted: bool): (f: real)
    requires k > 0
    ensures f > 0.0
  {
    if weighted then (1 + i) as real / k as real else 1.0
  }

  /** Σ w_i f_i over a prefix of the slices (unweighted: Σ w_i). */
  function WeightTotal(regs: seq<Line>, k: nat, weighted: bool): real
    requires k > 0
  {
    if |regs| == 0 then 0.0
    else
      var w := regs[|regs| - 1].weight;
      WeightTotal(regs[..|regs| - 1], k, weighted)
      + (if weighted then Mul(w, Factor(|regs| - 1, k, true)) else w)
  }

  /** Σ f_i over the first `n` slices. */
  function FactorTotal(n: nat, k: nat, weighted: bool): (total: real)
    requires k > 0
    ensures n > 0 ==> total > 0.0
  {
    if n == 0 then 0.0 else FactorTotal(n - 1, k, weighted) + Factor(n - 1, k, weighted)
  }

  /** The projected line: a single slice as it is, otherwise the
      factor-weighted mean slope and the plain mean intercept. */
  function Projection(regs: seq<Line>, weighted: bool): Line
    requires |regs| > 0
  {
    if |regs| == 1 then regs[0]
    else
      var k := |regs|;
      Line(WeightTotal(regs, k, weighted) / FactorTotal(k, k, weighted), Sum(Biases(regs)) / k as real)
  }

  /** `ProjectCashFlow`. */
  method ProjectCashFlow(regs: seq<Line>, weighted: bool) returns (projection: Line)
    requires |regs| > 0
    ensures projection == Projection(regs, weighted)
  {
    if |regs| == 1 {
      return regs[0];
    }
    var k := |regs|;
    var sumW, sumB, sumWeights := 0.0, 0.0, 0.0;
    for i := 0 to k
      invariant sumW == WeightTotal(regs[..i], k, weighted)
      invariant sumB == Sum(Biases(regs)[..i])
      invariant sumWeights == FactorTotal(i, k, weighted)
    {
      assert regs[..i + 1][..i] == regs[..i];
      SumExtend(Biases(regs), i);
      var w := regs[i].weight;
      var b := regs[i].bias;
      if weighted {
        var factor := (1 + i) as real / k as real;
        sumW := sumW + Mul(w, factor);
        sumWeights := sumWeights + factor;
      } else {
        sumW := sumW + w;
        sumWeights := sumWeights + 1.0;
      }
      sumB := sumB + b;
    }
    assert regs[..k] == regs && Biases(regs)[..k] == Biases(regs);
    projection := Line(sumW / sumWeights, sumB / k as real);
  }

  lemma {:induction false} WeightTotalBounds(regs: seq<Line>, k: nat, weighted: bool, lo: real, hi: real)
    requires k > 0
    requires forall i :: 0 <= i < |regs| ==> lo <= regs[i].weight <= hi
    ensures Mul(lo, FactorTotal(|regs|, k, weighted)) <= WeightTotal(regs, k, weighted)
                                                     <= Mul(hi, FactorTotal(|regs|, k, weighted))
  {
    if |regs| > 0 {
      var n := |regs| - 1;
      WeightTotalBounds(regs[..n], k, weighted, lo, hi);
      var w, f := regs[n].weight, Factor(n, k, weighted);
      if !weighted {
        assert Mul(w, f) == w;
      }
      BoundStep(WeightTotal(regs[..n], k, weighted), FactorTotal(n, k, weighted), w, f, lo, hi,
                WeightTotal(regs, k, weighted), FactorTotal(|regs|, k, weighted));
    }
  }

  lemma {:induction false} SingleSlice(regs: seq<Line>)
    requires |regs| == 1
    ensures Min(Weights(regs)) == regs[0].weight == Max(Weights(regs))
    ensures Sum(Biases(regs)) / |regs| as real == regs[0].bias
  {
    assert Biases(regs) == [regs[0].bias];
    assert Biases(regs)[..0] == [];
  }

  /** The factor-weighted mean slope of two or more slices is bounded by
      the extreme slopes. */
  lemma {:induction false} WeightedMeanBetween(regs: seq<Line>, weighted: bool)
    requires |regs| > 1
    ensures Min(Weights(regs)) <= WeightTotal(regs, |regs|, weighted) / FactorTotal(|regs|, |regs|, weighted)
                               <= Max(Weights(regs))
  {
    var lo, hi := Min(Weights(regs)), Max(Weights(regs));
    WeightTotalBounds(regs, |regs|, weighted, lo, hi);
    QuotientBetween(WeightTotal(regs, |regs|, weighted), FactorTotal(|regs|, |regs|, weighted), lo, hi);
  }

  /** The projected slope lies between the smallest and the largest slice
      slope, and the projected intercept is the mean slice intercept. */
  lemma {:induction false} ProjectionBetween(regs: seq<Line>, weighted: bool)
    requires |regs| > 0
    ensures Min(Weights(regs)) <= Projection(regs, weighted).weight <= Max(Weights(regs))
    ensures Projection(regs, weighted).bias == Sum(Biases(regs)) / |regs| as real
  {
    if |regs| == 1 {
      SingleSlice(regs);
      assert Projection(regs, weighted) == regs[0];
    } else {
      WeightedMeanBetween(regs, weighted);
      var k := |regs|;
      assert Projection(regs, weighted)
          == Line(WeightTotal(regs, k, weighted) / FactorTotal(k, k, weighted), Sum(Biases(regs)) / k as real);
    }
  }

  lemma {:induction false} UnweightedTotals(regs: seq<Line>, k: nat)
    requires k > 0
    ensures WeightTotal(regs, k, false) == Sum(Weights(regs))
    ensures FactorTotal(|regs|, k, false) == |regs| as real
  {
    if |regs| > 0 {
      UnweightedTotals(regs[..|regs| - 1], k);
      assert Weights(regs)[..|regs| - 1] == Weights(regs[..|regs| - 1]);
    }
  }

  /** Without recency weighting the projected slope is the mean slope. */
  lemma {:induction false} UnweightedIsMean(regs: seq<Line>)
    requires |regs| > 0
    ensures Projection(regs, false).weight == Sum(Weights(regs)) / |regs| as real
  {
    UnweightedTotals(regs, |regs|);
    if |regs| == 1 {
      assert Weights(regs) == [regs[0].weight];
      assert Weights(regs)[..0] == [];
    }
  }

  /** Slices that all agree project to that same line. */
  lemma {:induction false} AgreeingSlices(regs: seq<Line>, weighted: bool, l: Line)
    requires |regs| > 0
    requires forall i :: 0 <= i < |regs| ==> regs[i] == l
    ensures Projection(regs, weighted) == l
  {
    assert Min(Weights(regs)) == l.weight == Max(Weights(regs)) by {
      assert Weights(regs)[0] == l.weight;
    }
    assert Sum(Biases(regs)) / |regs| as real == l.bias by {
      MeanBetween(Biases(regs), l.bias, l.bias);
    }
    ProjectionBetween(regs, weighted);
  }
}
