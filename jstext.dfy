/** The pieces of JavaScript string and number semantics that the
    dashboard and the command reference rely on: `String.prototype.trim`,
    lower-casing, `includes`, the decimal rendering of a whole number, and
    `Number(s)` over strings of digits, points and minus signs. */
module JsText {
  import opened Wrappers

  // ---------------------------------------------------------------------
  // White space and trim
  // ---------------------------------------------------------------------

  /** The WhiteSpace and LineTerminator code points of ECMA-262, which
      `trim` removes from both ends. */
  predicate IsJsSpace(c: char)
  {
    c == '\t' || c == '\n' || c == '\U{000B}' || c == '\U{000C}' || c == '\r' || c == ' '
    || c == '\U{00A0}' || c == '\U{1680}' || ('\U{2000}' <= c <= '\U{200A}')
    || c == '\U{2028}' || c == '\U{2029}' || c == '\U{202F}' || c == '\U{205F}'
    || c == '\U{3000}' || c == '\U{FEFF}'
  }

  predicate AllJsSpace(s: string)
  {
    forall i :: 0 <= i < |s| ==> IsJsSpace(s[i])
  }

  /** Number of white-space characters at the front of `s`. */
  function LeadingSpaces(s: string): (k: nat)
    ensures k <= |s|
    ensures forall i :: 0 <= i < k ==> IsJsSpace(s[i])
    ensures k < |s| ==> !IsJsSpace(s[k])
  {
    if |s| > 0 && IsJsSpace(s[0]) then 1 + LeadingSpaces(s[1..]) else 0
  }

  /** Number of white-space characters at the end of `s`. */
  function TrailingSpaces(s: string): (k: nat)
    ensures k <= |s|
    ensures forall i :: |s| - k <= i < |s| ==> IsJsSpace(s[i])
    ensures k < |s| ==> !IsJsSpace(s[|s| - k - 1])
  {
    if |s| > 0 && IsJsSpace(s[|s| - 1]) then 1 + TrailingSpaces(s[..|s| - 1]) else 0
  }

  /** Drop the leading white space. */
  function TrimStart(s: string): (r: string)
    ensures |r| <= |s| && r == s[|s| - |r|..]
    ensures AllJsSpace(s[..|s| - |r|])
    ensures |r| > 0 ==> !IsJsSpace(r[0])
  {
    s[LeadingSpaces(s)..]
  }

  /** Drop the trailing white space. */
  function TrimEnd(s: string): (r: string)
    ensures |r| <= |s| && r == s[..|r|]
    ensures AllJsSpace(s[|r|..])
    ensures |r| > 0 ==> !IsJsSpace(r[|r| - 1])
  {
    s[..|s| - TrailingSpaces(s)]
  }

  /** `s.trim()`. */
  function Trim(s: string): string
  {
    TrimEnd(TrimStart(s))
  }

  /** `trim` keeps one contiguous piece of its input, with only white
      space around it and none at either of its ends. */
  lemma {:induction false} TrimSlice(s: string)
    ensures exists i :: 0 <= i <= |s| - |Trim(s)| && Trim(s) == s[i..i + |Trim(s)|]
              && AllJsSpace(s[..i]) && AllJsSpace(s[i + |Trim(s)|..])
    ensures |Trim(s)| > 0 ==> !IsJsSpace(Trim(s)[0]) && !IsJsSpace(Trim(s)[|Trim(s)| - 1])
  {
    var l := TrimStart(s);
    var r := Trim(s);
    var i := |s| - |l|;
    assert r == l[..|r|];
    assert s[i..i + |r|] == l[..|r|];
    assert s[i + |r|..] == l[|r|..];
  }

  /** A string without white space at either end trims to itself. */
  lemma {:induction false} TrimUntouched(s: string)
    requires |s| > 0 && !IsJsSpace(s[0]) && !IsJsSpace(s[|s| - 1])
    ensures Trim(s) == s
  {
    assert TrimStart(s) == s;
  }

  /** A string trims to "" exactly when it is all white space. */
  lemma {:induction false} TrimEmpty(s: string)
    ensures Trim(s) == "" <==> AllJsSpace(s)
  {
    var l := TrimStart(s);
    if Trim(s) == "" {
      assert l[0..] == l;
    }
  }

  /** Trimming twice is trimming once. */
  lemma {:induction false} TrimIdempotent(s: string)
    ensures Trim(Trim(s)) == Trim(s)
  {
    var r := Trim(s);
    if |r| > 0 {
      assert LeadingSpaces(r) == 0 && r[0..] == r;
      assert TrailingSpaces(r) == 0 && r[..|r|] == r;
    } else {
      assert TrimStart(r) == r;
    }
  }

  // ---------------------------------------------------------------------
  // Lower case and substring search
  // ---------------------------------------------------------------------

  function LowerChar(c: char): char
  {
    if 'A' <= c <= 'Z' then (c as int + 32) as char else c
  }

  /** `s.toLowerCase()`, for the Latin capitals. */
  function Lower(s: string): (r: string)
    ensures |r| == |s|
    ensures forall i :: 0 <= i < |s| ==> r[i] == LowerChar(s[i])
  {
    seq(|s|, i requires 0 <= i < |s| => LowerChar(s[i]))
  }

  /** A lower-cased string has no capital left, so lower-casing again
      changes nothing. */
  lemma {:induction false} LowerIdempotent(s: string)
    ensures forall i :: 0 <= i < |s| ==> !('A' <= Lower(s)[i] <= 'Z')
    ensures Lower(Lower(s)) == Lower(s)
  {
    forall i | 0 <= i < |s|
      ensures !('A' <= Lower(s)[i] <= 'Z') && LowerChar(Lower(s)[i]) == Lower(s)[i]
    {
      var c := s[i];
      if 'A' <= c <= 'Z' {
        assert 'a' as int <= LowerChar(c) as int <= 'z' as int;
      }
    }
  }

  /** Lower-casing leaves white space alone and makes none. */
  lemma LowerKeepsSpace(c: char)
    ensures IsJsSpace(LowerChar(c)) <==> IsJsSpace(c)
  {
  }

  /** Trimming and lower-casing can be done in either order. */
  lemma {:induction false} TrimLower(s: string)
    ensures Trim(Lower(s)) == Lower(Trim(s))
  {
    TrimStartLower(s);
    TrimEndLower(TrimStart(s));
  }

  lemma {:induction false} TrimStartLower(s: string)
    ensures TrimStart(Lower(s)) == Lower(TrimStart(s))
  {
    LeadingLower(s);
    var k := LeadingSpaces(s);
    assert Lower(s)[k..] == Lower(s[k..]);
  }

  lemma {:induction false} TrimEndLower(s: string)
    ensures TrimEnd(Lower(s)) == Lower(TrimEnd(s))
  {
    TrailingLower(s);
    var k := TrailingSpaces(s);
    assert Lower(s)[..|s| - k] == Lower(s[..|s| - k]);
  }

  /** Lower-casing keeps the white space at the front. */
  lemma {:induction false} LeadingLower(s: string)
    ensures LeadingSpaces(Lower(s)) == LeadingSpaces(s)
  {
    if |s| > 0 {
      LowerKeepsSpace(s[0]);
      if IsJsSpace(s[0]) {
        assert Lower(s)[1..] == Lower(s[1..]);
        LeadingLower(s[1..]);
      }
    }
  }

  /** Lower-casing keeps the white space at the end. */
  lemma {:induction false} TrailingLower(s: string)
    ensures TrailingSpaces(Lower(s)) == TrailingSpaces(s)
  {
    if |s| > 0 {
      var n := |s| - 1;
      LowerKeepsSpace(s[n]);
      assert Lower(s)[n] == LowerChar(s[n]);
      if IsJsSpace(s[n]) {
        var init := s[..n];
        assert Lower(s)[..n] == Lower(init);
        TrailingLower(init);
        assert TrailingSpaces(Lower(s)) == 1 + TrailingSpaces(Lower(init));
      }
    }
  }

  /** `s.includes(q)`. */
  predicate Includes(s: string, q: string)
  {
    exists i :: 0 <= i <= |s| - |q| && FoundAt(s, q, i)
  }

  /** `q` occurs in `s` starting at index `i`. */
  predicate FoundAt(s: string, q: string, i: int)
    requires 0 <= i <= |s| - |q|
  {
    s[i..i + |q|] == q
  }

  /** Every string contains the empty string, and itself. */
  lemma {:induction false} IncludesTrivial(s: string)
    ensures Includes(s, "") && Includes(s, s)
  {
    assert FoundAt(s, "", 0);
    assert FoundAt(s, s, 0);
  }

  /** A string found in part of a text is found in the whole text. */
  lemma {:induction false} IncludesWithin(a: string, s: string, b: string, q: string)
    requires Includes(s, q)
    ensures Includes(a + s + b, q)
  {
    var i :| 0 <= i <= |s| - |q| && FoundAt(s, q, i);
    var t := a + s + b;
    assert t[|a| + i..|a| + i + |q|] == s[i..i + |q|];
    assert FoundAt(t, q, |a| + i);
  }

  // ---------------------------------------------------------------------
  // Whole numbers as decimal text
  // ---------------------------------------------------------------------

  predicate IsDigit(c: char)
  {
    '0' <= c <= '9'
  }

  predicate AllDigits(s: string)
  {
    forall i :: 0 <= i < |s| ==> IsDigit(s[i])
  }

  function DigitChar(d: nat): char
    requires d < 10
  {
    ('0' as int + d) as char
  }

  /** The value of a string of decimal digits ("" counts as 0). */
  function DigitsValue(s: string): nat
    requires AllDigits(s)
  {
    if |s| == 0 then 0 else 10 * DigitsValue(s[..|s| - 1]) + (s[|s| - 1] as int - '0' as int)
  }

  function Pow10(n: nat): (p: nat)
    ensures p > 0
  {
    if n == 0 then 1 else 10 * Pow10(n - 1)
  }

  /** `String(n)` for a whole number: its digits, without leading zeros. */
  function Decimal(n: nat): (r: string)
    ensures |r| > 0 && AllDigits(r)
    ensures r[0] == '0' ==> n == 0
  {
    if n < 10 then [DigitChar(n)] else Decimal(n / 10) + [DigitChar(n % 10)]
  }

  /** Reading back the rendering gives the number. */
  lemma {:induction false} DecimalValue(n: nat)
    ensures DigitsValue(Decimal(n)) == n
  {
    if n >= 10 {
      DecimalValue(n / 10);
      var r := Decimal(n);
      assert r[..|r| - 1] == Decimal(n / 10);
    }
  }

  // ---------------------------------------------------------------------
  // Number(s) on numeral strings
  // ---------------------------------------------------------------------

  /** A JavaScript number as the dashboard sees it. JSON has no infinity
      and the wage parser turns one into NaN, so a number is either finite
      or NaN. */
  datatype Number = Finite(value: real) | NaN

  /** The characters a cleaned wage string is made of. */
  predicate IsNumeral(c: char)
  {
    IsDigit(c) || c == '.' || c == '-'
  }

  /** The length of the run of digits at the front of `s`. */
  function LeadingDigits(s: string): (k: nat)
    ensures k <= |s| && AllDigits(s[..k])
    ensures forall j :: 0 <= j < k ==> IsDigit(s[j])
    ensures k < |s| ==> !IsDigit(s[k])
  {
    if |s| > 0 && IsDigit(s[0]) then
      var k := 1 + LeadingDigits(s[1..]);
      assert s[..k] == [s[0]] + s[1..][..k - 1];
      k
    else 0
  }

  /** An unsigned decimal literal without exponent: digits, optionally a
      point and more digits, with at least one digit on some side of the
      point. */
  function Unsigned(s: string): Option<real>
  {
    var k := LeadingDigits(s);
    if k == |s| then
      if k == 0 then None else Some(DigitsValue(s) as real)
    else if s[k] == '.' && AllDigits(s[k + 1..]) && (k > 0 || k + 1 < |s|) then
      Some(DigitsValue(s[..k]) as real + DigitsValue(s[k + 1..]) as real / Pow10(|s| - k - 1) as real)
    else None
  }

  /** `Number(s)` for a string of digits, points and minus signs: the empty
      string is 0, an optional leading minus negates, anything that is not
      a decimal literal is NaN. */
  function StringToNumber(s: string): Number
    requires forall i :: 0 <= i < |s| ==> IsNumeral(s[i])
  {
    if s == "" then Finite(0.0)
    else
      var u := if s[0] == '-' then Unsigned(s[1..]) else Unsigned(s);
      match u
      case Some(v) => Finite(if s[0] == '-' then -v else v)
      case None => NaN
  }

  /** A whole number reads back from its decimal text, with or without a
      minus sign in front. */
  lemma {:induction false} WholeRoundTrip(n: nat)
    ensures StringToNumber(Decimal(n)) == Finite(n as real)
    ensures StringToNumber("-" + Decimal(n)) == Finite(-(n as real))
  {
    var d := Decimal(n);
    DecimalValue(n);
    assert LeadingDigits(d) == |d| by {
      assert d[..|d|] == d;
    }
    assert ("-" + d)[1..] == d;
  }

  /** Digits, a point and more digits read as the whole part plus the
      fraction scaled by the number of fraction digits. */
  lemma {:induction false} FractionValue(w: string, f: string)
    requires |w| > 0 && AllDigits(w) && AllDigits(f)
    ensures StringToNumber(w + "." + f)
              == Finite(DigitsValue(w) as real + DigitsValue(f) as real / Pow10(|f|) as real)
  {
    var s := w + "." + f;
    LeadingOf(w, "." + f);
    assert s[0] == w[0] && s[|w|] == '.';
    assert s[..|w|] == w;
    assert s[|w| + 1..] == f;
  }

  lemma {:induction false} LeadingOf(w: string, t: string)
    requires AllDigits(w)
    requires |t| > 0 && !IsDigit(t[0])
    ensures LeadingDigits(w + t) == |w|
  {
    if |w| > 0 {
      assert (w + t)[1..] == w[1..] + t;
      LeadingOf(w[1..], t);
    }
  }

  /** A second point makes the text NaN, wherever the two points are. */
  lemma {:induction false} TwoPointsNaN(s: string, i: int, j: int)
    requires forall k :: 0 <= k < |s| ==> IsNumeral(s[k])
    requires 0 <= i < j < |s| && s[i] == '.' && s[j] == '.'
    ensures StringToNumber(s) == NaN
  {
    var u := if s[0] == '-' then s[1..] else s;
    var off := if s[0] == '-' then 1 else 0;
    assert u[i - off] == '.' && u[j - off] == '.';
    UnsignedTwoPoints(u, i - off, j - off);
  }

  lemma {:induction false} UnsignedTwoPoints(u: string, i: int, j: int)
    requires 0 <= i < j < |u| && u[i] == '.' && u[j] == '.'
    ensures Unsigned(u) == None
  {
    var k := LeadingDigits(u);
    assert k <= i;
    if u[k] == '.' {
      assert u[k + 1..][j - k - 1] == '.';
    }
  }
}
