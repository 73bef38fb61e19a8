/** The ordinary-least-squares engine: a single-variable line fitted in
    closed form, its predictions, R-squared and mean squared error. All
    arithmetic is over `real`, so the algebraic facts of least squares
    hold exactly. */
module Ols {
  import opened Wrappers
  import opened SeqMath
  import opened RealAlgebra

  /** The value of an `OLSModel`: `y = weight * x + bias`. */
  datatype Line = Line(weight: real, bias: real) {
    function Predict(x: real): real
    {
      Mul(weight, x) + bias
    }
  }

  /** One calendar day of transactions (Go's `DayData`); `date` is an
      instant in seconds since Go's zero time. */
  datatype DayData = DayData(dayNumber: int, date: int, amount: real, count: int)

  /** The regressor column built from day numbers: `float64(d.DayNumber)`. */
  function DayXs(days: seq<DayData>): (xs: seq<real>)
    ensures |xs| == |days|
    ensures forall i :: 0 <= i < |days| ==> xs[i] == days[i].dayNumber as real
  {
    if |days| == 0 then [] else DayXs(days[..|days| - 1]) + [days[|days| - 1].dayNumber as real]
  }

  const LengthMismatch := "X and y must have the same length"
  const NoPoints := "need at least one data point"
  const TooUniform := "cannot fit model: data is too uniform"

  /** The degeneracy threshold on the denominator, 1e-10. */
  const Tolerance: real := 0.0000000001

  function Abs(r: real): real
  {
    if r < 0.0 then -r else r
  }

  /** Sum of the products `xs[i] * ys[i]`. */
  function Dot(xs: seq<real>, ys: seq<real>): real
    requires |xs| == |ys|
  {
    if |xs| == 0 then 0.0
    else Dot(xs[..|xs| - 1], ys[..|ys| - 1]) + Mul(xs[|xs| - 1], ys[|ys| - 1])
  }

  /** `n Σx² - (Σx)²`. */
  function Denominator(xs: seq<real>): real
  {
    Mul(|xs| as real, Dot(xs, xs)) - Mul(Sum(xs), Sum(xs))
  }

  /** The closed form of `Fit` from its four running sums over `n` points. */
  function FitSums(n: real, sumX: real, sumY: real, sumXY: real, sumX2: real): Result<Line>
    requires n > 0.0
  {
    var denominator := Mul(n, sumX2) - Mul(sumX, sumX);
    if Abs(denominator) < Tolerance then Err(TooUniform)
    else
      var w := (Mul(n, sumXY) - Mul(sumX, sumY)) / denominator;
      Ok(Line(w, (sumY - Mul(w, sumX)) / n))
  }

  /** The least-squares line, or the error `Fit` returns. */
  function FitLine(xs: seq<real>, ys: seq<real>): Result<Line>
  {
    if |xs| != |ys| then Err(LengthMismatch)
    else if |xs| == 0 then Err(NoPoints)
    else FitSums(|xs| as real, Sum(xs), Sum(ys), Dot(xs, ys), Dot(xs, xs))
  }

  // ---------------------------------------------------------------------
  // Sums of residual terms
  // ---------------------------------------------------------------------

  /** Σ (y - ŷ). */
  function Errors(l: Line, xs: seq<real>, ys: seq<real>): real
    requires |xs| == |ys|
  {
    if |xs| == 0 then 0.0
    else Errors(l, xs[..|xs| - 1], ys[..|ys| - 1]) + (ys[|ys| - 1] - l.Predict(xs[|xs| - 1]))
  }

  /** Σ x (y - ŷ). */
  function WeightedErrors(l: Line, xs: seq<real>, ys: seq<real>): real
    requires |xs| == |ys|
  {
    if |xs| == 0 then 0.0
    else
      WeightedErrors(l, xs[..|xs| - 1], ys[..|ys| - 1])
      + Mul(xs[|xs| - 1], ys[|ys| - 1] - l.Predict(xs[|xs| - 1]))
  }

  /** Σ (y - ŷ)², the residual sum of squares. */
  function SquaredErrors(l: Line, xs: seq<real>, ys: seq<real>): real
    requires |xs| == |ys|
  {
    if |xs| == 0 then 0.0
    else
      SquaredErrors(l, xs[..|xs| - 1], ys[..|ys| - 1])
      + Mul(ys[|ys| - 1] - l.Predict(xs[|xs| - 1]), ys[|ys| - 1] - l.Predict(xs[|xs| - 1]))
  }

  /** Σ (y - m)². */
  function SquaredDeviations(ys: seq<real>, m: real): real
  {
    if |ys| == 0 then 0.0
    else SquaredDeviations(ys[..|ys| - 1], m) + Mul(ys[|ys| - 1] - m, ys[|ys| - 1] - m)
  }

  /** Σ (ŷ - m)². */
  function SquaredFitDeviations(l: Line, xs: seq<real>, m: real): real
  {
    if |xs| == 0 then 0.0
    else
      SquaredFitDeviations(l, xs[..|xs| - 1], m)
      + Mul(l.Predict(xs[|xs| - 1]) - m, l.Predict(xs[|xs| - 1]) - m)
  }

  /** Σ (y - ŷ)(ŷ - m). */
  function CrossTerms(l: Line, xs: seq<real>, ys: seq<real>, m: real): real
    requires |xs| == |ys|
  {
    if |xs| == 0 then 0.0
    else
      CrossTerms(l, xs[..|xs| - 1], ys[..|ys| - 1], m)
      + Mul(ys[|ys| - 1] - l.Predict(xs[|xs| - 1]), l.Predict(xs[|xs| - 1]) - m)
  }

  function Mean(ys: seq<real>): real
    requires |ys| > 0
  {
    Sum(ys) / |ys| as real
  }

  /** Σ (y - ȳ)², zero for no data. */
  function TotalSquares(ys: seq<real>): real
  {
    if |ys| == 0 then 0.0 else SquaredDeviations(ys, Mean(ys))
  }

  /** R-squared with the convention that zero total variance gives 0. */
  function RSquared(l: Line, xs: seq<real>, ys: seq<real>): real
    requires |xs| == |ys|
  {
    if TotalSquares(ys) == 0.0 then 0.0 else 1.0 - SquaredErrors(l, xs, ys) / TotalSquares(ys)
  }

  function MeanSquaredError(l: Line, xs: seq<real>, ys: seq<real>): real
    requires |xs| == |ys| > 0
  {
    SquaredErrors(l, xs, ys) / |ys| as real
  }

  // ---------------------------------------------------------------------
  // Prefix extension, as the loops of the model object use it
  // ---------------------------------------------------------------------

  lemma {:induction false} SumExtend(s: seq<real>, i: nat)
    requires i < |s|
    ensures Sum(s[..i + 1]) == Sum(s[..i]) + s[i]
  {
    assert s[..i + 1][..i] == s[..i];
  }

  lemma {:induction false} DotExtend(xs: seq<real>, ys: seq<real>, i: nat)
    requires |xs| == |ys| && i < |xs|
    ensures Dot(xs[..i + 1], ys[..i + 1]) == Dot(xs[..i], ys[..i]) + Mul(xs[i], ys[i])
  {
    assert xs[..i + 1][..i] == xs[..i] && ys[..i + 1][..i] == ys[..i];
  }

  lemma {:induction false} SquaredErrorsExtend(l: Line, xs: seq<real>, ys: seq<real>, i: nat, p: real)
    requires |xs| == |ys| && i < |xs| && p == l.Predict(xs[i])
    ensures SquaredErrors(l, xs[..i + 1], ys[..i + 1]) == SquaredErrors(l, xs[..i], ys[..i]) + Mul(ys[i] - p, ys[i] - p)
  {
    assert xs[..i + 1][..i] == xs[..i] && ys[..i + 1][..i] == ys[..i];
  }

  lemma {:induction false} SquaredDeviationsExtend(ys: seq<real>, m: real, i: nat)
    requires i < |ys|
    ensures SquaredDeviations(ys[..i + 1], m) == SquaredDeviations(ys[..i], m) + Mul(ys[i] - m, ys[i] - m)
  {
    assert ys[..i + 1][..i] == ys[..i];
  }

  // ---------------------------------------------------------------------
  // Lemmas: sums
  // ---------------------------------------------------------------------

  lemma {:induction false} ErrorsExpand(l: Line, xs: seq<real>, ys: seq<real>)
    requires |xs| == |ys|
    ensures Errors(l, xs, ys) == Sum(ys) - Mul(l.weight, Sum(xs)) - Mul(|xs| as real, l.bias)
  {
    if |xs| > 0 {
      var init, yinit := xs[..|xs| - 1], ys[..|ys| - 1];
      ErrorsExpand(l, init, yinit);
      ErrorsStep(Errors(l, init, yinit), Sum(yinit), Sum(init), |init| as real,
                 xs[|xs| - 1], ys[|ys| - 1], l.Predict(xs[|xs| - 1]), l.weight, l.bias,
                 Sum(ys), Sum(xs), |xs| as real);
    }
  }

  lemma {:induction false} WeightedErrorsExpand(l: Line, xs: seq<real>, ys: seq<real>)
    requires |xs| == |ys|
    ensures WeightedErrors(l, xs, ys) == Dot(xs, ys) - Mul(l.weight, Dot(xs, xs)) - Mul(l.bias, Sum(xs))
  {
    if |xs| > 0 {
      var init, yinit := xs[..|xs| - 1], ys[..|ys| - 1];
      WeightedErrorsExpand(l, init, yinit);
      WeightedStep(WeightedErrors(l, init, yinit), Dot(init, yinit), Dot(init, init), Sum(init),
                   xs[|xs| - 1], ys[|ys| - 1], l.Predict(xs[|xs| - 1]), l.weight, l.bias,
                   Dot(xs, ys), Dot(xs, xs), Sum(xs));
    }
  }

  lemma {:induction false} SquaredDeviationsExpand(xs: seq<real>, m: real)
    ensures SquaredDeviations(xs, m) == Dot(xs, xs) - 2.0 * Mul(m, Sum(xs)) + Mul(|xs| as real, Mul(m, m))
  {
    if |xs| > 0 {
      var init := xs[..|xs| - 1];
      SquaredDeviationsExpand(init, m);
      DeviationStep(SquaredDeviations(init, m), Dot(init, init), Sum(init), |init| as real,
                    xs[|xs| - 1], m, Dot(xs, xs), Sum(xs), |xs| as real);
    }
  }

  lemma {:induction false} CrossTermsExpand(l: Line, xs: seq<real>, ys: seq<real>, m: real)
    requires |xs| == |ys|
    ensures CrossTerms(l, xs, ys, m) == Mul(l.weight, WeightedErrors(l, xs, ys)) + Mul(l.bias - m, Errors(l, xs, ys))
  {
    if |xs| > 0 {
      var init, yinit := xs[..|xs| - 1], ys[..|ys| - 1];
      CrossTermsExpand(l, init, yinit, m);
      CrossStep(CrossTerms(l, init, yinit, m), WeightedErrors(l, init, yinit), Errors(l, init, yinit),
                xs[|xs| - 1], ys[|ys| - 1], l.Predict(xs[|xs| - 1]), l.weight, l.bias, m,
                WeightedErrors(l, xs, ys), Errors(l, xs, ys));
    }
  }

  /** Σ (y - m)² = Σ (y - ŷ)² + 2 Σ (y - ŷ)(ŷ - m) + Σ (ŷ - m)², for any line. */
  lemma {:induction false} Decompose(l: Line, xs: seq<real>, ys: seq<real>, m: real)
    requires |xs| == |ys|
    ensures SquaredDeviations(ys, m)
      == SquaredErrors(l, xs, ys) + 2.0 * CrossTerms(l, xs, ys, m) + SquaredFitDeviations(l, xs, m)
  {
    if |xs| > 0 {
      Decompose(l, xs[..|xs| - 1], ys[..|ys| - 1], m);
      SplitSquare(ys[|ys| - 1], l.Predict(xs[|xs| - 1]), m);
    }
  }

  lemma {:induction false} SquaredErrorsNonNegative(l: Line, xs: seq<real>, ys: seq<real>)
    requires |xs| == |ys|
    ensures SquaredErrors(l, xs, ys) >= 0.0
  {
    if |xs| > 0 {
      SquaredErrorsNonNegative(l, xs[..|xs| - 1], ys[..|ys| - 1]);
      SquareNonNegative(ys[|ys| - 1] - l.Predict(xs[|xs| - 1]));
    }
  }

  lemma {:induction false} SquaredDeviationsNonNegative(ys: seq<real>, m: real)
    ensures SquaredDeviations(ys, m) >= 0.0
  {
    if |ys| > 0 {
      SquaredDeviationsNonNegative(ys[..|ys| - 1], m);
      SquareNonNegative(ys[|ys| - 1] - m);
    }
  }

  lemma {:induction false} SquaredFitDeviationsNonNegative(l: Line, xs: seq<real>, m: real)
    ensures SquaredFitDeviations(l, xs, m) >= 0.0
  {
    if |xs| > 0 {
      SquaredFitDeviationsNonNegative(l, xs[..|xs| - 1], m);
      SquareNonNegative(l.Predict(xs[|xs| - 1]) - m);
    }
  }

  /** One term bounds a sum of squares from below. */
  lemma {:induction false} SquaredDeviationsAtLeastTerm(ys: seq<real>, m: real, k: nat)
    requires k < |ys|
    ensures SquaredDeviations(ys, m) >= Mul(ys[k] - m, ys[k] - m)
  {
    var init := ys[..|ys| - 1];
    SquaredDeviationsNonNegative(init, m);
    SquareNonNegative(ys[|ys| - 1] - m);
    if k < |ys| - 1 {
      assert init[k] == ys[k];
      SquaredDeviationsAtLeastTerm(init, m, k);
    }
  }

  lemma {:induction false} SquaredErrorsAtLeastTerm(l: Line, xs: seq<real>, ys: seq<real>, k: nat)
    requires |xs| == |ys| && k < |xs|
    ensures SquaredErrors(l, xs, ys) >= Mul(ys[k] - l.Predict(xs[k]), ys[k] - l.Predict(xs[k]))
  {
    var init, yinit := xs[..|xs| - 1], ys[..|ys| - 1];
    SquaredErrorsNonNegative(l, init, yinit);
    SquareNonNegative(ys[|ys| - 1] - l.Predict(xs[|xs| - 1]));
    if k < |xs| - 1 {
      assert init[k] == xs[k] && yinit[k] == ys[k];
      SquaredErrorsAtLeastTerm(l, init, yinit, k);
    }
  }

  lemma {:induction false} ExactResidualsVanish(l: Line, xs: seq<real>, ys: seq<real>)
    requires |xs| == |ys|
    requires forall i :: 0 <= i < |xs| ==> ys[i] == l.Predict(xs[i])
    ensures Errors(l, xs, ys) == 0.0
    ensures WeightedErrors(l, xs, ys) == 0.0
    ensures SquaredErrors(l, xs, ys) == 0.0
  {
    if |xs| > 0 {
      var init, yinit := xs[..|xs| - 1], ys[..|ys| - 1];
      assert forall i :: 0 <= i < |init| ==> yinit[i] == ys[i] && init[i] == xs[i];
      ExactResidualsVanish(l, init, yinit);
      var e := ys[|ys| - 1] - l.Predict(xs[|xs| - 1]);
      TimesZero(xs[|xs| - 1], e);
      TimesZero(e, e);
    }
  }

  /** The residual sum of squares vanishes exactly when every prediction
      equals its observation. */
  lemma {:induction false} SquaredErrorsZero(l: Line, xs: seq<real>, ys: seq<real>)
    requires |xs| == |ys|
    ensures SquaredErrors(l, xs, ys) == 0.0 <==> forall i :: 0 <= i < |xs| ==> ys[i] == l.Predict(xs[i])
  {
    if forall i :: 0 <= i < |xs| ==> ys[i] == l.Predict(xs[i]) {
      ExactResidualsVanish(l, xs, ys);
    } else {
      var k :| 0 <= k < |xs| && ys[k] != l.Predict(xs[k]);
      SquaredErrorsAtLeastTerm(l, xs, ys, k);
      SquarePositive(ys[k] - l.Predict(xs[k]));
    }
  }

  // ---------------------------------------------------------------------
  // Lemmas: the fit
  // ---------------------------------------------------------------------

  /** When the fit succeeds the data has a non-degenerate spread. */
  lemma {:induction false} FitLineOk(xs: seq<real>, ys: seq<real>)
    requires FitLine(xs, ys).Ok?
    ensures |xs| == |ys| > 0 && Denominator(xs) != 0.0
  {
  }

  /** The normal equations: the residuals of a successful fit sum to zero
      and are orthogonal to the regressor. */
  lemma {:induction false} NormalEquations(xs: seq<real>, ys: seq<real>)
    requires FitLine(xs, ys).Ok?
    ensures Errors(FitLine(xs, ys).value, xs, ys) == 0.0
    ensures WeightedErrors(FitLine(xs, ys).value, xs, ys) == 0.0
  {
    var l := FitLine(xs, ys).value;
    FitLineOk(xs, ys);
    ErrorsExpand(l, xs, ys);
    WeightedErrorsExpand(l, xs, ys);
    NormalAlgebra(|xs| as real, Sum(xs), Sum(ys), Dot(xs, ys), Dot(xs, xs), l.weight, l.bias);
  }

  /** Data lying exactly on a line is recovered by a successful fit. */
  lemma {:induction false} ExactLineRecovered(xs: seq<real>, ys: seq<real>, truth: Line)
    requires |xs| == |ys|
    requires forall i :: 0 <= i < |xs| ==> ys[i] == truth.Predict(xs[i])
    requires FitLine(xs, ys).Ok?
    ensures FitLine(xs, ys).value == truth
  {
    var l := FitLine(xs, ys).value;
    FitLineOk(xs, ys);
    ErrorsExpand(truth, xs, ys);
    WeightedErrorsExpand(truth, xs, ys);
    ExactResidualsVanish(truth, xs, ys);
    ExactAlgebra(|xs| as real, Sum(xs), Sum(ys), Dot(xs, ys), Dot(xs, xs), truth.weight, truth.bias, l.weight, l.bias);
  }

  /** The denominator is n times the squared deviation of x about its
      mean. */
  lemma {:induction false} DenominatorIsSpread(xs: seq<real>)
    requires |xs| > 0
    ensures Denominator(xs) == Mul(|xs| as real, SquaredDeviations(xs, Mean(xs)))
  {
    SquaredDeviationsExpand(xs, Mean(xs));
    SpreadAlgebra(|xs| as real, Dot(xs, xs), Sum(xs), Mean(xs), Denominator(xs), SquaredDeviations(xs, Mean(xs)));
  }

  lemma {:induction false} EqualSum(xs: seq<real>, c: real)
    requires forall i :: 0 <= i < |xs| ==> xs[i] == c
    ensures Sum(xs) == Mul(|xs| as real, c)
  {
    if |xs| > 0 {
      EqualSum(xs[..|xs| - 1], c);
      var n := (|xs| - 1) as real;
      assert (n + 1.0) * c == n * c + c;
    }
  }

  lemma {:induction false} EqualDeviationsZero(xs: seq<real>, c: real)
    requires forall i :: 0 <= i < |xs| ==> xs[i] == c
    ensures SquaredDeviations(xs, c) == 0.0
  {
    if |xs| > 0 {
      EqualDeviationsZero(xs[..|xs| - 1], c);
      TimesZero(xs[|xs| - 1] - c, xs[|xs| - 1] - c);
    }
  }

  /** A single point, or any set of equal x values, cannot be fitted. */
  lemma {:induction false} EqualXsFail(xs: seq<real>, ys: seq<real>)
    requires |xs| == |ys| > 0
    requires forall i :: 0 <= i < |xs| ==> xs[i] == xs[0]
    ensures FitLine(xs, ys) == Err(TooUniform)
  {
    DenominatorIsSpread(xs);
    EqualSum(xs, xs[0]);
    MeanOfEqual(|xs| as real, Sum(xs), xs[0], Mean(xs));
    EqualDeviationsZero(xs, xs[0]);
    TimesZero(|xs| as real, SquaredDeviations(xs, Mean(xs)));
  }

  /** The tolerance is absolute: two x values a millionth apart differ,
      so a line through both points exists, yet the fit is refused. */
  lemma NearlyEqualXsFail()
    ensures var xs := [0.0, 0.000001];
            xs[0] != xs[1] && FitLine(xs, [0.0, 1.0]) == Err(TooUniform)
  {
    var xs := [0.0, 0.000001];
    assert Sum(xs) == 0.000001 by {
      assert xs[..1] == [0.0] && [0.0][..0] == [];
    }
    assert Dot(xs, xs) == 0.000001 * 0.000001 by {
      assert xs[..1] == [0.0] && [0.0][..0] == [];
    }
  }

  /** Two different x values give a positive denominator. */
  lemma {:induction false} SpreadPositive(xs: seq<real>, i: nat, j: nat)
    requires i < |xs| && j < |xs| && xs[i] != xs[j]
    ensures Denominator(xs) > 0.0
  {
    var m := Mean(xs);
    DenominatorIsSpread(xs);
    var k := if xs[i] != m then i else j;
    SquaredDeviationsAtLeastTerm(xs, m, k);
    SquarePositive(xs[k] - m);
    ProductPositive(|xs| as real, SquaredDeviations(xs, m));
  }

  function IntSum(ks: seq<int>): int
  {
    if |ks| == 0 then 0 else IntSum(ks[..|ks| - 1]) + ks[|ks| - 1]
  }

  function IntSquares(ks: seq<int>): int
  {
    if |ks| == 0 then 0 else IntSquares(ks[..|ks| - 1]) + ks[|ks| - 1] * ks[|ks| - 1]
  }

  function DayNumbers(days: seq<DayData>): (ks: seq<int>)
    ensures |ks| == |days| && forall i :: 0 <= i < |days| ==> ks[i] == days[i].dayNumber
  {
    if |days| == 0 then [] else DayNumbers(days[..|days| - 1]) + [days[|days| - 1].dayNumber]
  }

  lemma {:induction false} IntegerSums(days: seq<DayData>)
    ensures Sum(DayXs(days)) == IntSum(DayNumbers(days)) as real
    ensures Dot(DayXs(days), DayXs(days)) == IntSquares(DayNumbers(days)) as real
  {
    if |days| > 0 {
      var init := days[..|days| - 1];
      IntegerSums(init);
      assert DayXs(days)[..|days| - 1] == DayXs(init);
      assert DayNumbers(days)[..|days| - 1] == DayNumbers(init);
      CastSquare(days[|days| - 1].dayNumber, DayXs(days)[|days| - 1]);
    }
  }

  /** Day numbers are integers, so a window with two different day numbers
      has a denominator of at least 1 and is always fitted. */
  lemma {:induction false} DistinctDaysFit(days: seq<DayData>, ys: seq<real>, i: nat, j: nat)
    requires |ys| == |days|
    requires i < |days| && j < |days| && days[i].dayNumber != days[j].dayNumber
    ensures FitLine(DayXs(days), ys).Ok?
  {
    var xs := DayXs(days);
    SpreadPositive(xs, i, j);
    IntegerSums(days);
    var ks := DayNumbers(days);
    IntegerSpread(|days|, IntSquares(ks), IntSum(ks), |xs| as real, Dot(xs, xs), Sum(xs), Denominator(xs));
  }

  /** Equal day numbers throughout always fail. */
  lemma {:induction false} SameDayFails(days: seq<DayData>, ys: seq<real>)
    requires |ys| == |days| > 0
    requires forall i :: 0 <= i < |days| ==> days[i].dayNumber == days[0].dayNumber
    ensures FitLine(DayXs(days), ys) == Err(TooUniform)
  {
    EqualXsFail(DayXs(days), ys);
  }

  /** R-squared never exceeds 1, and is exactly 0 for flat observations. */
  lemma {:induction false} RSquaredAtMostOne(l: Line, xs: seq<real>, ys: seq<real>)
    requires |xs| == |ys|
    ensures RSquared(l, xs, ys) <= 1.0
    ensures TotalSquares(ys) == 0.0 ==> RSquared(l, xs, ys) == 0.0
  {
    SquaredErrorsNonNegative(l, xs, ys);
    if |ys| > 0 {
      SquaredDeviationsNonNegative(ys, Mean(ys));
    }
    if TotalSquares(ys) != 0.0 {
      QuotientNonNegative(SquaredErrors(l, xs, ys), TotalSquares(ys));
    }
  }

  /** For the least-squares line R-squared also stays at or above 0: the
      total variance splits into residual and explained parts. */
  lemma {:induction false} FittedRSquaredBetweenZeroAndOne(xs: seq<real>, ys: seq<real>)
    requires FitLine(xs, ys).Ok?
    ensures 0.0 <= RSquared(FitLine(xs, ys).value, xs, ys) <= 1.0
  {
    var l := FitLine(xs, ys).value;
    FitLineOk(xs, ys);
    var m := Mean(ys);
    RSquaredAtMostOne(l, xs, ys);
    NormalEquations(xs, ys);
    Decompose(l, xs, ys, m);
    CrossTermsExpand(l, xs, ys, m);
    TimesZero(l.weight, WeightedErrors(l, xs, ys));
    TimesZero(l.bias - m, Errors(l, xs, ys));
    SquaredFitDeviationsNonNegative(l, xs, m);
    SquaredErrorsNonNegative(l, xs, ys);
    if TotalSquares(ys) != 0.0 {
      QuotientAtMostOne(SquaredErrors(l, xs, ys), TotalSquares(ys));
    }
  }

  /** Observations that the model reproduces score R-squared 1, unless
      they are flat. */
  lemma {:induction false} PerfectFitScoresOne(l: Line, xs: seq<real>, ys: seq<real>)
    requires |xs| == |ys|
    requires forall i :: 0 <= i < |xs| ==> ys[i] == l.Predict(xs[i])
    requires TotalSquares(ys) != 0.0
    ensures RSquared(l, xs, ys) == 1.0
  {
    ExactResidualsVanish(l, xs, ys);
  }

  /** The mean squared error is non-negative and zero exactly when every
      prediction matches. */
  lemma {:induction false} MeanSquaredErrorZero(l: Line, xs: seq<real>, ys: seq<real>)
    requires |xs| == |ys| > 0
    ensures MeanSquaredError(l, xs, ys) >= 0.0
    ensures MeanSquaredError(l, xs, ys) == 0.0 <==> forall i :: 0 <= i < |xs| ==> ys[i] == l.Predict(xs[i])
  {
    SquaredErrorsNonNegative(l, xs, ys);
    SquaredErrorsZero(l, xs, ys);
    QuotientNonNegative(SquaredErrors(l, xs, ys), |ys| as real);
    QuotientZero(SquaredErrors(l, xs, ys), |ys| as real);
  }

  // ---------------------------------------------------------------------
  // The model object
  // ---------------------------------------------------------------------

  /** Go's `OLSModel`, whose `Fit` writes the receiver's fields. */
  class OlsModel {
    var weight: real
    var bias: real

    /** The zero value `OLSModel{}`. */
    constructor ()
      ensures weight == 0.0 && bias == 0.0
    {
      weight := 0.0;
      bias := 0.0;
    }

    function Snapshot(): Line
      reads this
    {
      Line(weight, bias)
    }

    /** `Predict`: the stored line evaluated at `x`. */
    function Predict(x: real): (p: real)
      reads this
      ensures p == weight * x + bias
    {
      Snapshot().Predict(x)
    }

    /** `Fit`: on success the fields hold the least-squares line; on any
        failure they are left as they were. */
    method Fit(xs: seq<real>, ys: seq<real>) returns (err: Option<string>)
      modifies this
      ensures err.None? <==> FitLine(xs, ys).Ok?
      ensures FitLine(xs, ys).Ok? ==> Snapshot() == FitLine(xs, ys).value
      ensures FitLine(xs, ys).Err? ==> err == Some(FitLine(xs, ys).error) && Snapshot() == old(Snapshot())
    {
      if |xs| != |ys| {
        return Some(LengthMismatch);
      }
      var n := |xs| as real;
      if n == 0.0 {
        return Some(NoPoints);
      }
      var sumX, sumY, sumXY, sumX2 := 0.0, 0.0, 0.0, 0.0;
      for i := 0 to |xs|
        invariant sumX == Sum(xs[..i]) && sumY == Sum(ys[..i])
        invariant sumXY == Dot(xs[..i], ys[..i]) && sumX2 == Dot(xs[..i], xs[..i])
        invariant Snapshot() == old(Snapshot())
      {
        SumExtend(xs, i);
        SumExtend(ys, i);
        DotExtend(xs, ys, i);
        DotExtend(xs, xs, i);
        sumX := sumX + xs[i];
        sumY := sumY + ys[i];
        sumXY := sumXY + Mul(xs[i], ys[i]);
        sumX2 := sumX2 + Mul(xs[i], xs[i]);
      }
      assert xs[..|xs|] == xs && ys[..|ys|] == ys;
      assert FitLine(xs, ys) == FitSums(n, sumX, sumY, sumXY, sumX2);
      var denominator := Mul(n, sumX2) - Mul(sumX, sumX);
      if Abs(denominator) < Tolerance {
        return Some(TooUniform);
      }
      weight := (Mul(n, sumXY) - Mul(sumX, sumY)) / denominator;
      bias := (sumY - Mul(weight, sumX)) / n;
      err := None;
    }

    /** `PredictBatch`: one prediction per input, in order. */
    method PredictBatch(xs: seq<real>) returns (ps: seq<real>)
      ensures |ps| == |xs|
      ensures forall i :: 0 <= i < |xs| ==> ps[i] == Predict(xs[i])
    {
      var predictions := new real[|xs|];
      for i := 0 to |xs|
        invariant forall k :: 0 <= k < i ==> predictions[k] == Predict(xs[k])
      {
        predictions[i] := Predict(xs[i]);
      }
      ps := predictions[..];
    }

    /** `CalculateR2` over the first `|ys|` inputs (Go indexes the
        predictions by the observations). */
    method CalculateR2(xs: seq<real>, ys: seq<real>) returns (r2: real)
      requires |ys| <= |xs|
      ensures r2 == RSquared(Snapshot(), xs[..|ys|], ys)
    {
      var predictions := PredictBatch(xs);
      var sumY := 0.0;
      for i := 0 to |ys|
        invariant sumY == Sum(ys[..i])
      {
        SumExtend(ys, i);
        sumY := sumY + ys[i];
      }
      assert ys[..|ys|] == ys;
      // For no observations Go divides 0 by 0 here; the value is unused
      // because the sums below stay 0.
      var meanY := if |ys| > 0 then sumY / |ys| as real else 0.0;
      var ssRes, ssTot := 0.0, 0.0;
      ghost var xs' := xs[..|ys|];
      for i := 0 to |ys|
        invariant ssRes == SquaredErrors(Snapshot(), xs'[..i], ys[..i])
        invariant ssTot == SquaredDeviations(ys[..i], meanY)
      {
        SquaredErrorsExtend(Snapshot(), xs', ys, i, predictions[i]);
        SquaredDeviationsExtend(ys, meanY, i);
        ssRes := ssRes + Mul(ys[i] - predictions[i], ys[i] - predictions[i]);
        ssTot := ssTot + Mul(ys[i] - meanY, ys[i] - meanY);
      }
      assert xs'[..|ys|] == xs';
      if ssTot == 0.0 {
        return 0.0;
      }
      r2 := 1.0 - ssRes / ssTot;
    }

    /** `CalculateMSE` over the first `|ys|` inputs. */
    method CalculateMse(xs: seq<real>, ys: seq<real>) returns (mse: real)
      requires 0 < |ys| <= |xs|
      ensures mse == MeanSquaredError(Snapshot(), xs[..|ys|], ys)
      ensures mse >= 0.0
    {
      var predictions := PredictBatch(xs);
      var sumSquaredError := 0.0;
      ghost var xs' := xs[..|ys|];
      for i := 0 to |ys|
        invariant sumSquaredError == SquaredErrors(Snapshot(), xs'[..i], ys[..i])
      {
        SquaredErrorsExtend(Snapshot(), xs', ys, i, predictions[i]);
        var error := ys[i] - predictions[i];
        sumSquaredError := sumSquaredError + Mul(error, error);
      }
      assert xs'[..|ys|] == xs' && ys[..|ys|] == ys;
      mse := sumSquaredError / |ys| as real;
      MeanSquaredErrorZero(Snapshot(), xs', ys);
    }
  }
}
