/** Real arithmetic for the regression proofs. Products are written with
    `Mul` so that equal products built from equal factors are recognised
    term by term; each identity below unfolds `Mul` over plain variables. */
module RealAlgebra {
  /** The product `a * b`. */
  function Mul(a: real, b: real): real
  {
    a * b
  }

  lemma SquareNonNegative(d: real)
    ensures Mul(d, d) >= 0.0
  {
  }

  lemma SquarePositive(d: real)
    requires d != 0.0
    ensures Mul(d, d) > 0.0
  {
    if d < 0.0 {
      ProductPositive(-d, -d);
      assert (-d) * (-d) == d * d;
    } else {
      ProductPositive(d, d);
    }
  }

  lemma ProductPositive(a: real, b: real)
    requires a > 0.0 && b > 0.0
    ensures Mul(a, b) > 0.0
  {
  }

  lemma TimesZero(a: real, z: real)
    requires z == 0.0
    ensures Mul(a, z) == 0.0 && Mul(z, a) == 0.0
  {
  }

  lemma QuotientNonNegative(a: real, d: real)
    requires a >= 0.0 && d > 0.0
    ensures a / d >= 0.0
  {
  }

  lemma QuotientZero(a: real, d: real)
    requires d > 0.0
    ensures a / d == 0.0 <==> a == 0.0
  {
  }

  lemma QuotientAtMostOne(a: real, d: real)
    requires 0.0 <= a <= d && d > 0.0
    ensures a / d <= 1.0
  {
  }

  lemma {:induction false} CastSquare(k: int, x: real)
    requires x == k as real
    ensures Mul(x, x) == (k * k) as real
  {
  }

  /** Step of Σ (y - ŷ): adding one observation. */
  lemma {:induction false} ErrorsStep(prev: real, sy0: real, sx0: real, n0: real, x: real, y: real, p: real, w: real, b: real,
                   sy: real, sx: real, n: real)
    requires p == Mul(w, x) + b
    requires prev == sy0 - Mul(w, sx0) - Mul(n0, b)
    requires sy == sy0 + y && sx == sx0 + x && n == n0 + 1.0
    ensures prev + (y - p) == sy - Mul(w, sx) - Mul(n, b)
  {
  }

  /** Step of Σ x (y - ŷ). */
  lemma {:induction false} WeightedStep(prev: real, sxy0: real, sxx0: real, sx0: real, x: real, y: real, p: real, w: real, b: real,
                     sxy: real, sxx: real, sx: real)
    requires p == Mul(w, x) + b
    requires prev == sxy0 - Mul(w, sxx0) - Mul(b, sx0)
    requires sxy == sxy0 + Mul(x, y) && sxx == sxx0 + Mul(x, x) && sx == sx0 + x
    ensures prev + Mul(x, y - p) == sxy - Mul(w, sxx) - Mul(b, sx)
  {
  }

  /** Step of Σ (x - m)². */
  lemma DeviationStep(prev: real, q0: real, s0: real, n0: real, x: real, m: real, q: real, s: real, n: real)
    requires prev == q0 - 2.0 * Mul(m, s0) + Mul(n0, Mul(m, m))
    requires q == q0 + Mul(x, x) && s == s0 + x && n == n0 + 1.0
    ensures prev + Mul(x - m, x - m) == q - 2.0 * Mul(m, s) + Mul(n, Mul(m, m))
  {
  }

  /** Step of Σ (y - ŷ)(ŷ - m). */
  lemma {:induction false} CrossStep(prev: real, we0: real, e0: real, x: real, y: real, p: real, w: real, b: real, m: real,
                  we: real, e: real)
    requires p == Mul(w, x) + b
    requires prev == Mul(w, we0) + Mul(b - m, e0)
    requires we == we0 + Mul(x, y - p) && e == e0 + (y - p)
    ensures prev + Mul(y - p, p - m) == Mul(w, we) + Mul(b - m, e)
  {
  }

  lemma SplitSquare(y: real, p: real, m: real)
    ensures Mul(y - m, y - m) == Mul(y - p, y - p) + 2.0 * Mul(y - p, p - m) + Mul(p - m, p - m)
  {
  }

  /** `d = n (q - 2 m s + n m²)` when `m = s / n` and `d = n q - s²`. */
  lemma SpreadAlgebra(n: real, q: real, s: real, m: real, d: real, sd: real)
    requires n > 0.0 && m == s / n
    requires d == Mul(n, q) - Mul(s, s)
    requires sd == q - 2.0 * Mul(m, s) + Mul(n, Mul(m, m))
    ensures d == Mul(n, sd)
  {
    assert m * n == s;
    calc {
      n * sd;
      n * q - 2.0 * (m * n) * s + (m * n) * (m * n);
      n * q - 2.0 * s * s + s * s;
    }
  }

  lemma MeanOfEqual(n: real, s: real, c: real, m: real)
    requires n > 0.0 && s == Mul(n, c) && m == s / n
    ensures m == c
  {
  }

  /** The least-squares coefficients satisfy both normal equations. */
  lemma NormalAlgebra(n: real, sx: real, sy: real, sxy: real, sxx: real, w: real, b: real)
    requires n > 0.0 && Mul(n, sxx) - Mul(sx, sx) != 0.0
    requires w == (Mul(n, sxy) - Mul(sx, sy)) / (Mul(n, sxx) - Mul(sx, sx))
    requires b == (sy - Mul(w, sx)) / n
    ensures sy - Mul(w, sx) - Mul(n, b) == 0.0
    ensures sxy - Mul(w, sxx) - Mul(b, sx) == 0.0
  {
    var d := n * sxx - sx * sx;
    assert w * d == n * sxy - sx * sy;
    assert b * n == sy - w * sx;
    calc {
      n * (sxy - w * sxx - b * sx);
      n * sxy - w * (n * sxx) - (b * n) * sx;
      n * sxy - w * (n * sxx) - (sy - w * sx) * sx;
      (n * sxy - sx * sy) - w * d;
      0.0;
    }
  }

  /** Exactly linear sums determine the least-squares coefficients. */
  lemma ExactAlgebra(n: real, sx: real, sy: real, sxy: real, sxx: real, a: real, c: real, w: real, b: real)
    requires n > 0.0 && Mul(n, sxx) - Mul(sx, sx) != 0.0
    requires sy - Mul(a, sx) - Mul(n, c) == 0.0
    requires sxy - Mul(a, sxx) - Mul(c, sx) == 0.0
    requires w == (Mul(n, sxy) - Mul(sx, sy)) / (Mul(n, sxx) - Mul(sx, sx))
    requires b == (sy - Mul(w, sx)) / n
    ensures w == a && b == c
  {
    var d := n * sxx - sx * sx;
    calc {
      n * sxy - sx * sy;
      n * (a * sxx + c * sx) - sx * (a * sx + n * c);
      a * d;
    }
    assert w == a;
    assert b * n == c * n;
  }

  /** A positive integer-valued spread is at least 1. */
  lemma {:induction false} IntegerSpread(n: int, q: int, s: int, nr: real, qr: real, sr: real, d: real)
    requires nr == n as real && qr == q as real && sr == s as real
    requires d == Mul(nr, qr) - Mul(sr, sr) && d > 0.0
    ensures d >= 1.0
  {
    assert (n * q - s * s) as real == d;
  }

  /** One step of bounding a weighted total between `lo` and `hi` times the
      total of the weights. */
  lemma BoundStep(total0: real, f0: real, w: real, f: real, lo: real, hi: real, total: real, fsum: real)
    requires f > 0.0 && lo <= w <= hi
    requires Mul(lo, f0) <= total0 <= Mul(hi, f0)
    requires total == total0 + Mul(w, f) && fsum == f0 + f
    ensures Mul(lo, fsum) <= total <= Mul(hi, fsum)
  {
    assert lo * f <= w * f <= hi * f;
  }

  lemma QuotientBetween(total: real, n: real, lo: real, hi: real)
    requires n > 0.0
    requires Mul(lo, n) <= total <= Mul(hi, n)
    ensures lo <= total / n <= hi
  {
    assert lo == Mul(lo, n) / n && hi == Mul(hi, n) / n;
  }

  /** Scaling by a fraction in [0, 1] stays between 0 and the amount. */
  lemma ScaleWithin(a: real, q: real)
    requires a >= 0.0 && 0.0 <= q <= 1.0
    ensures 0.0 <= Mul(a, q) <= a
    ensures 0.0 <= Mul(q, a) <= a
  {
    assert 0.0 <= a * q <= a * 1.0;
  }

  /** Multiplying by a non-negative factor keeps the order. */
  lemma ScaleMonotone(x: real, y: real, d: real)
    requires x <= y && d >= 0.0
    ensures Mul(x, d) <= Mul(y, d) && Mul(d, x) <= Mul(d, y)
  {
    assert x * d <= y * d;
  }

  /** Shares of a positive total, in percent, keep the order of the parts
      and the whole is 100. */
  lemma ShareOrder(a: real, b: real, total: real)
    requires 0.0 < a < b <= total
    ensures 0.0 < a / total * 100.0 < b / total * 100.0 <= 100.0
    ensures total / total * 100.0 == 100.0
  {
    assert a / total < b / total;
    assert b / total <= 1.0;
  }

  /** A span of ten widths is ten widths; anything shorter is fewer. */
  lemma TenWidths(a: real, span: real, width: real)
    requires width > 0.0 && a < span && span == 10.0 * width
    ensures span / width == 10.0
    ensures a / width < 10.0
  {
    assert span / width * width == span;
    assert a / width * width == a;
  }
}
