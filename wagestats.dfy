/** The wage helpers of the analytics dashboard: reading a wage that is a
    number or formatted text, quantiles by linear interpolation, the
    percentile curve and the ten-bin wage histogram. */
module WageStats {
  import opened JsText
  import opened SeqMath
  import opened RealAlgebra

  /** A wage as it arrives in the employee JSON: a number or a string. */
  datatype RawWage = Num(amount: real) | Text(text: string)

  // ---------------------------------------------------------------------
  // parseWage
  // ---------------------------------------------------------------------

  /** `String(w).replace(/[^0-9.-]/g, '')`: the digits, points and minus
      signs of `s`. */
  function Clean(s: string): (r: string)
    ensures |r| <= |s|
    ensures forall i :: 0 <= i < |r| ==> IsNumeral(r[i])
  {
    if |s| == 0 then ""
    else Clean(s[..|s| - 1]) + (if IsNumeral(s[|s| - 1]) then [s[|s| - 1]] else "")
  }

  /** Cleaning works character by character and keeps the order: a
      numeral character survives where it stood, any other one goes. */
  lemma {:induction false} CleanConcat(a: string, b: string)
    ensures Clean(a + b) == Clean(a) + Clean(b)
    decreases |b|
  {
    if |b| > 0 {
      var init := b[..|b| - 1];
      assert (a + b)[..|a + b| - 1] == a + init;
      CleanConcat(a, init);
    } else {
      assert a + b == a;
    }
  }

  lemma {:induction false} CleanChar(a: string, c: char, b: string)
    ensures Clean(a + [c] + b) == Clean(a) + (if IsNumeral(c) then [c] else "") + Clean(b)
  {
    CleanConcat(a + [c], b);
    CleanConcat(a, [c]);
    assert [c][..0] == "";
  }

  /** Text that is already all numerals is left as it is, so cleaning
      twice is cleaning once. */
  lemma {:induction false} CleanNumerals(s: string)
    requires forall i :: 0 <= i < |s| ==> IsNumeral(s[i])
    ensures Clean(s) == s
  {
    if |s| > 0 {
      CleanNumerals(s[..|s| - 1]);
    }
  }

  /** Text without any numeral cleans to "". */
  lemma {:induction false} CleanNothing(s: string)
    requires forall i :: 0 <= i < |s| ==> !IsNumeral(s[i])
    ensures Clean(s) == ""
  {
    if |s| > 0 {
      CleanNothing(s[..|s| - 1]);
    }
  }

  /** `parseWage`: a number is taken as it is; text is cleaned and
      converted with `Number`, and anything that is not finite is NaN. */
  function ParseWage(w: RawWage): Number
  {
    match w
    case Num(x) => Finite(x)
    case Text(s) => StringToNumber(Clean(s))
  }

  /** Currency signs, thousands separators and other decoration around a
      whole amount do not change it. */
  lemma {:induction false} ParseDecorated(pre: string, n: nat, post: string)
    requires forall i :: 0 <= i < |pre| ==> !IsNumeral(pre[i])
    requires forall i :: 0 <= i < |post| ==> !IsNumeral(post[i])
    ensures ParseWage(Text(pre + Decimal(n) + post)) == Finite(n as real)
  {
    CleanConcat(pre + Decimal(n), post);
    CleanConcat(pre, Decimal(n));
    CleanNothing(pre);
    CleanNothing(post);
    CleanNumerals(Decimal(n));
    assert "" + Decimal(n) + "" == Decimal(n);
    WholeRoundTrip(n);
  }

  /** The amount written with a dollar sign and a thousands separator
      reads as the plain number. */
  lemma FormattedWage(s: string)
    requires s == "$2,500.00"
    ensures ParseWage(Text(s)) == Finite(2500.0)
  {
    CleanFormatted();
    var w, f := "2500", "00";
    FractionValue(w, f);
    assert Clean(s) == w + "." + f;
    TwoThousandFiveHundred();
    var v := DigitsValue(w) as real + DigitsValue(f) as real / Pow10(|f|) as real;
    assert v == 2500.0;
    assert ParseWage(Text(s)) == StringToNumber(w + "." + f) == Finite(v);
  }

  lemma CleanFormatted()
    ensures Clean("$2,500.00") == "2500.00"
  {
    var s := "$" + "2" + "," + "500.00";
    assert s == "$2,500.00";
    CleanConcat("$" + "2" + ",", "500.00");
    CleanConcat("$" + "2", ",");
    CleanConcat("$", "2");
    CleanNothing("$");
    CleanNothing(",");
    CleanNumerals("2");
    CleanNumerals("500.00");
    assert "" + "2" + "" + "500.00" == "2500.00";
  }

  lemma TwoThousandFiveHundred()
    ensures DigitsValue("00") == 0 && DigitsValue("2500") == 2500
  {
    assert "00"[..1] == "0";
    assert "0"[..0] == "";
    assert "2500"[..3] == "250";
    assert "250"[..2] == "25";
    assert "25"[..1] == "2";
    assert "2"[..0] == "";
  }

  /** Text without a single digit, point or minus sign reads as 0, not
      NaN: `Number("")` is 0. */
  lemma {:induction false} ParseNoNumerals(s: string)
    requires forall i :: 0 <= i < |s| ==> !IsNumeral(s[i])
    ensures ParseWage(Text(s)) == Finite(0.0)
  {
    CleanNothing(s);
  }

  // ---------------------------------------------------------------------
  // quantile
  // ---------------------------------------------------------------------

  /** The interpolation position `(n - 1) * q`. */
  function Position(n: nat, q: real): real
    requires n > 0
  {
    Mul((n - 1) as real, q)
  }

  /** `Math.floor` of the position: an index of the sorted input. */
  function Base(n: nat, q: real): (b: nat)
    requires n > 0 && 0.0 <= q <= 1.0
    ensures b < n
    ensures b as real <= Position(n, q) < b as real + 1.0
  {
    ScaleWithin((n - 1) as real, q);
    Position(n, q).Floor
  }

  /** `quantile(sorted, q)`: NaN for no data, otherwise the element at the
      floor of the position plus the fraction of the step to the next
      element, or the element itself when there is no next one. */
  function Quantile(sorted: seq<real>, q: real): (r: Number)
    requires 0.0 <= q <= 1.0
    ensures r.NaN? <==> |sorted| == 0
  {
    if |sorted| == 0 then NaN
    else
      var base := Base(|sorted|, q);
      var rest := Position(|sorted|, q) - base as real;
      if base + 1 >= |sorted| then Finite(sorted[base])
      else Finite(sorted[base] + Mul(rest, sorted[base + 1] - sorted[base]))
  }

  /** q = 0 is the first element and q = 1 the last. */
  lemma {:induction false} QuantileEnds(sorted: seq<real>)
    requires |sorted| > 0
    ensures Quantile(sorted, 0.0) == Finite(sorted[0])
    ensures Quantile(sorted, 1.0) == Finite(sorted[|sorted| - 1])
  {
    var n := |sorted|;
    assert Position(n, 0.0) == 0.0;
    assert Position(n, 1.0) == (n - 1) as real;
    if n > 1 {
      TimesZero(sorted[1] - sorted[0], 0.0);
    }
  }

  /** On sorted input the value lies between the element at the floor of
      the position and the next element. */
  lemma {:induction false} QuantileBetween(sorted: seq<real>, q: real)
    requires Sorted(sorted) && |sorted| > 0 && 0.0 <= q <= 1.0
    ensures var b := Base(|sorted|, q);
            var next := if b + 1 < |sorted| then b + 1 else b;
            sorted[b] <= Quantile(sorted, q).value <= sorted[next]
  {
    var n := |sorted|;
    var b := Base(n, q);
    if b + 1 < n {
      var rest := Position(n, q) - b as real;
      ScaleWithin(sorted[b + 1] - sorted[b], rest);
    }
  }

  /** On sorted input a larger q never gives a smaller value. */
  lemma {:induction false} QuantileMonotone(sorted: seq<real>, q1: real, q2: real)
    requires Sorted(sorted) && |sorted| > 0 && 0.0 <= q1 <= q2 <= 1.0
    ensures Quantile(sorted, q1).value <= Quantile(sorted, q2).value
  {
    var n := |sorted|;
    ScaleMonotone(q1, q2, (n - 1) as real);
    var b1 := Base(n, q1);
    var b2 := Base(n, q2);
    QuantileBetween(sorted, q1);
    QuantileBetween(sorted, q2);
    if b1 == b2 && b1 + 1 < n {
      ScaleMonotone(Position(n, q1) - b1 as real, Position(n, q2) - b2 as real, sorted[b1 + 1] - sorted[b1]);
    } else if b1 < b2 {
      assert sorted[b1 + 1] <= sorted[b2];
    }
  }

  /** On sorted input every quantile lies between the smallest and the
      largest element. */
  lemma {:induction false} QuantileWithin(sorted: seq<real>, q: real)
    requires Sorted(sorted) && |sorted| > 0 && 0.0 <= q <= 1.0
    ensures sorted[0] <= Quantile(sorted, q).value <= sorted[|sorted| - 1]
  {
    QuantileMonotone(sorted, 0.0, q);
    QuantileMonotone(sorted, q, 1.0);
    QuantileEnds(sorted);
  }

  // ---------------------------------------------------------------------
  // Percentile curve
  // ---------------------------------------------------------------------

  datatype PercentilePoint = PercentilePoint(percentile: nat, wage: real)

  /** The fraction `p / 100` for the `i`-th point, p = 5 i. */
  function Fraction(i: nat): (q: real)
    requires i <= 20
    ensures 0.0 <= q <= 1.0
  {
    (5 * i) as real / 100.0
  }

  function PercentileAt(wages: seq<real>, i: nat): PercentilePoint
    requires i <= 20
  {
    PercentilePoint(5 * i, if |wages| > 0 then Quantile(wages, Fraction(i)).value else 0.0)
  }

  /** The 21-point percentile curve over the ascending wages. */
  function Percentiles(wages: seq<real>): (curve: seq<PercentilePoint>)
    ensures |curve| == 21
    ensures forall i :: 0 <= i < 21 ==> curve[i].percentile == 5 * i
  {
    seq(21, i requires 0 <= i < 21 => PercentileAt(wages, i))
  }

  /** The curve starts at the lowest wage, ends at the highest, has the
      median in the middle and never falls; with no wages it is flat at 0. */
  lemma {:induction false} CurveShape(wages: seq<real>)
    requires Sorted(wages)
    ensures var curve := Percentiles(wages);
            && (|wages| > 0 ==> curve[0].wage == wages[0] && curve[20].wage == wages[|wages| - 1])
            && (|wages| > 0 ==> curve[10].wage == Quantile(wages, 0.5).value)
            && (|wages| == 0 ==> forall i :: 0 <= i < 21 ==> curve[i].wage == 0.0)
            && (forall i, j :: 0 <= i <= j < 21 ==> curve[i].wage <= curve[j].wage)
  {
    var curve := Percentiles(wages);
    if |wages| > 0 {
      QuantileEnds(wages);
      assert Fraction(0) == 0.0 && Fraction(20) == 1.0 && Fraction(10) == 0.5;
      forall i, j | 0 <= i <= j < 21
        ensures curve[i].wage <= curve[j].wage
      {
        QuantileMonotone(wages, Fraction(i), Fraction(j));
      }
    }
  }

  // ---------------------------------------------------------------------
  // Histogram
  // ---------------------------------------------------------------------

  const Bins: nat := 10

  /** `wages[0] ?? 0` and `wages[wages.length - 1] ?? 0`. */
  function LowWage(wages: seq<real>): real
  {
    if |wages| == 0 then 0.0 else wages[0]
  }

  function HighWage(wages: seq<real>): real
  {
    if |wages| == 0 then 0.0 else wages[|wages| - 1]
  }

  /** A tenth of the spread, or 1 when there is no spread. */
  function BinWidth(lo: real, hi: real): (width: real)
    ensures width > 0.0
    ensures hi <= lo ==> width == 1.0
    ensures hi > lo ==> lo + 10.0 * width == hi
  {
    if hi > lo then (hi - lo) / Bins as real else 1.0
  }

  /** The bin of one wage: the number of whole widths above the lowest
      wage, clamped to the ten bins. */
  function BinOf(w: real, lo: real, width: real): (b: nat)
    requires width > 0.0
    ensures b < Bins
  {
    var raw := ((w - lo) / width).Floor;
    var up := if raw < 0 then 0 else raw;
    if up > Bins - 1 then Bins - 1 else up
  }

  /** How many of `ws` land in bin `b`. */
  function BinCount(ws: seq<real>, lo: real, width: real, b: nat): nat
    requires width > 0.0
  {
    if |ws| == 0 then 0
    else BinCount(ws[..|ws| - 1], lo, width, b) + (if BinOf(ws[|ws| - 1], lo, width) == b then 1 else 0)
  }

  /** The ten bin counts of the ascending wages. */
  method Histogram(wages: seq<real>) returns (counts: seq<nat>)
    ensures |counts| == Bins
    ensures forall b :: 0 <= b < Bins ==>
              counts[b] == BinCount(wages, LowWage(wages), BinWidth(LowWage(wages), HighWage(wages)), b)
  {
    var lo := LowWage(wages);
    var width := BinWidth(lo, HighWage(wages));
    var hist := new nat[Bins](_ => 0);
    var k := 0;
    while k < |wages|
      invariant 0 <= k <= |wages|
      invariant forall b :: 0 <= b < Bins ==> hist[b] == BinCount(wages[..k], lo, width, b)
    {
      var idx := BinOf(wages[k], lo, width);
      assert wages[..k + 1][..k] == wages[..k];
      hist[idx] := hist[idx] + 1;
      k := k + 1;
    }
    assert wages[..k] == wages;
    counts := hist[..];
  }

  function Total(cs: seq<nat>): nat
  {
    if |cs| == 0 then 0 else Total(cs[..|cs| - 1]) + cs[|cs| - 1]
  }

  lemma {:induction false} TotalIncrement(cs: seq<nat>, k: nat)
    requires k < |cs|
    ensures Total(cs[k := cs[k] + 1]) == Total(cs) + 1
  {
    var n := |cs| - 1;
    var ds := cs[k := cs[k] + 1];
    assert ds[..n] == if k < n then cs[..n][k := cs[k] + 1] else cs[..n];
    if k < n {
      TotalIncrement(cs[..n], k);
    }
  }

  /** Every wage is counted in exactly one bin: the counts add up to the
      number of wages. */
  lemma {:induction false} HistogramTotal(ws: seq<real>, lo: real, width: real, counts: seq<nat>)
    requires width > 0.0 && |counts| == Bins
    requires forall b :: 0 <= b < Bins ==> counts[b] == BinCount(ws, lo, width, b)
    ensures Total(counts) == |ws|
  {
    if |ws| == 0 {
      TotalZero(counts);
    } else {
      var init := ws[..|ws| - 1];
      var prev := seq(Bins, b requires 0 <= b < Bins => BinCount(init, lo, width, b));
      HistogramTotal(init, lo, width, prev);
      var k := BinOf(ws[|ws| - 1], lo, width);
      TallyStep(ws, lo, width, counts, prev);
      TotalIncrement(prev, k);
    }
  }

  lemma {:induction false} TotalZero(cs: seq<nat>)
    requires forall b :: 0 <= b < |cs| ==> cs[b] == 0
    ensures Total(cs) == 0
  {
    if |cs| > 0 {
      TotalZero(cs[..|cs| - 1]);
    }
  }

  /** Counting one more wage adds one to its bin and leaves the others. */
  lemma {:induction false} TallyStep(ws: seq<real>, lo: real, width: real, counts: seq<nat>, prev: seq<nat>)
    requires width > 0.0 && |ws| > 0 && |counts| == Bins && |prev| == Bins
    requires forall b :: 0 <= b < Bins ==> counts[b] == BinCount(ws, lo, width, b)
    requires forall b :: 0 <= b < Bins ==> prev[b] == BinCount(ws[..|ws| - 1], lo, width, b)
    ensures var k := BinOf(ws[|ws| - 1], lo, width);
            counts == prev[k := prev[k] + 1]
  {
  }

  /** A larger wage never lands in a lower bin. */
  lemma {:induction false} BinMonotone(w1: real, w2: real, lo: real, width: real)
    requires width > 0.0 && w1 <= w2
    ensures BinOf(w1, lo, width) <= BinOf(w2, lo, width)
  {
    assert (w1 - lo) / width <= (w2 - lo) / width;
  }

  /** With any spread, the lowest wage opens the first bin and the highest
      closes the last one (the only value the clamp moves down). */
  lemma {:induction false} BinsSpan(wages: seq<real>)
    requires Sorted(wages) && |wages| > 0 && HighWage(wages) > LowWage(wages)
    ensures var lo := LowWage(wages);
            var width := BinWidth(lo, HighWage(wages));
            && BinOf(lo, lo, width) == 0
            && BinOf(HighWage(wages), lo, width) == Bins - 1
            && forall i :: 0 <= i < |wages| && wages[i] < HighWage(wages) ==>
                 ((wages[i] - lo) / width).Floor < Bins
  {
    var lo := LowWage(wages);
    var hi := HighWage(wages);
    var width := BinWidth(lo, hi);
    TenWidths(0.0, hi - lo, width);
    forall i | 0 <= i < |wages| && wages[i] < hi
      ensures ((wages[i] - lo) / width).Floor < Bins
    {
      TenWidths(wages[i] - lo, hi - lo, width);
    }
  }
}
