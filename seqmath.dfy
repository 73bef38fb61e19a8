/** Sums, extrema and occurrence counts over sequences, as the loops of
    the Go code and of the dashboard accumulate them (left to right). */
module SeqMath {

  /** Sum of a sequence of reals, accumulated from the front. */
  function Sum(s: seq<real>): real
  {
    if |s| == 0 then 0.0 else Sum(s[..|s| - 1]) + s[|s| - 1]
  }

  lemma {:induction false} SumAppend(a: seq<real>, b: seq<real>)
    ensures Sum(a + b) == Sum(a) + Sum(b)
  {
    if |b| == 0 {
      assert a + b == a;
    } else {
      assert (a + b)[..|a + b| - 1] == a + b[..|b| - 1];
      SumAppend(a, b[..|b| - 1]);
    }
  }

  /** Adding one more term. */
  lemma {:induction false} SumSnoc(s: seq<real>, x: real)
    ensures Sum(s + [x]) == Sum(s) + x
  {
    assert (s + [x])[..|s|] == s;
  }

  /** A sum of non-negative terms is non-negative. */
  lemma {:induction false} SumNonNegative(s: seq<real>)
    requires forall i :: 0 <= i < |s| ==> s[i] >= 0.0
    ensures Sum(s) >= 0.0
  {
    if |s| > 0 {
      SumNonNegative(s[..|s| - 1]);
    }
  }

  /** A non-empty sum of positive terms is positive. */
  lemma {:induction false} SumPositive(s: seq<real>)
    requires |s| > 0 && forall i :: 0 <= i < |s| ==> s[i] > 0.0
    ensures Sum(s) > 0.0
  {
    if |s| > 1 {
      SumPositive(s[..|s| - 1]);
    }
  }

  /** Smallest element, found as `if y[i] < min { min = y[i] }` does. */
  function Min(s: seq<real>): (m: real)
    requires |s| > 0
    ensures forall i :: 0 <= i < |s| ==> m <= s[i]
    ensures exists i :: 0 <= i < |s| && m == s[i]
  {
    if |s| == 1 then s[0]
    else
      var rest := Min(s[..|s| - 1]);
      assert forall i :: 0 <= i < |s| - 1 ==> s[..|s| - 1][i] == s[i];
      if s[|s| - 1] < rest then s[|s| - 1] else rest
  }

  /** Largest element, found as `if y[i] > max { max = y[i] }` does. */
  function Max(s: seq<real>): (m: real)
    requires |s| > 0
    ensures forall i :: 0 <= i < |s| ==> s[i] <= m
    ensures exists i :: 0 <= i < |s| && m == s[i]
  {
    if |s| == 1 then s[0]
    else
      var rest := Max(s[..|s| - 1]);
      assert forall i :: 0 <= i < |s| - 1 ==> s[..|s| - 1][i] == s[i];
      if s[|s| - 1] > rest then s[|s| - 1] else rest
  }

  /** Every element bounds the sum: n * lo <= Sum(s) <= n * hi. */
  lemma {:induction false} SumBounds(s: seq<real>, lo: real, hi: real)
    requires forall i :: 0 <= i < |s| ==> lo <= s[i] <= hi
    ensures lo * (|s| as real) <= Sum(s) <= hi * (|s| as real)
  {
    if |s| > 0 {
      SumBounds(s[..|s| - 1], lo, hi);
    }
  }

  /** The mean lies between the smallest and the largest element. */
  lemma {:induction false} MeanBetweenMinMax(s: seq<real>)
    requires |s| > 0
    ensures Min(s) <= Sum(s) / |s| as real <= Max(s)
  {
    MeanBetween(s, Min(s), Max(s));
  }

  lemma {:induction false} MeanBetween(s: seq<real>, lo: real, hi: real)
    requires |s| > 0
    requires forall i :: 0 <= i < |s| ==> lo <= s[i] <= hi
    ensures lo <= Sum(s) / |s| as real <= hi
  {
    SumBounds(s, lo, hi);
    DivideBetween(Sum(s), |s| as real, lo, hi);
  }

  /** lo * n <= total <= hi * n with n > 0 gives lo <= total / n <= hi. */
  lemma DivideBetween(total: real, n: real, lo: real, hi: real)
    requires n > 0.0
    requires lo * n <= total <= hi * n
    ensures lo <= total / n <= hi
  {
    assert total / n * n == total;
  }

  /** Sum over the distinct keys `ks` of how often each occurs in `m`. */
  function CountOver<T>(m: multiset<T>, ks: seq<T>): nat
  {
    if |ks| == 0 then 0 else CountOver(m, ks[..|ks| - 1]) + m[ks[|ks| - 1]]
  }

  predicate Distinct<T(==)>(ks: seq<T>)
  {
    forall i, j :: 0 <= i < j < |ks| ==> ks[i] != ks[j]
  }

  lemma {:induction false} CountOverAdd<T>(m: multiset<T>, x: T, ks: seq<T>)
    requires Distinct(ks)
    ensures CountOver(m + multiset{x}, ks) == CountOver(m, ks) + (if x in ks then 1 else 0)
  {
    if |ks| > 0 {
      var init := ks[..|ks| - 1];
      assert Distinct(init);
      CountOverAdd(m, x, init);
      assert x in ks <==> x in init || x == ks[|ks| - 1];
      if x == ks[|ks| - 1] {
        assert x !in init;
      }
    }
  }

  /** Counting every element by its key: when the keys are distinct and
      cover the elements, the per-key counts add up to the length. */
  lemma {:induction false} CountPartition<T>(xs: seq<T>, ks: seq<T>)
    requires Distinct(ks)
    requires forall i :: 0 <= i < |xs| ==> xs[i] in ks
    ensures CountOver(multiset(xs), ks) == |xs|
  {
    if |xs| == 0 {
      assert forall i | 0 <= i < |ks| :: multiset(xs)[ks[i]] == 0;
      CountOverZero(multiset(xs), ks);
    } else {
      var init := xs[..|xs| - 1];
      assert xs == init + [xs[|xs| - 1]];
      assert multiset(xs) == multiset(init) + multiset{xs[|xs| - 1]};
      CountPartition(init, ks);
      CountOverAdd(multiset(init), xs[|xs| - 1], ks);
    }
  }

  lemma {:induction false} CountOverZero<T>(m: multiset<T>, ks: seq<T>)
    requires forall i | 0 <= i < |ks| :: m[ks[i]] == 0
    ensures CountOver(m, ks) == 0
  {
    if |ks| > 0 {
      CountOverZero(m, ks[..|ks| - 1]);
    }
  }

  /** A sequence whose set of elements is as large as the sequence has no
      repeated element. */
  lemma {:induction false} DistinctByCardinality<T>(ks: seq<T>)
    requires |set i | 0 <= i < |ks| :: ks[i]| == |ks|
    ensures Distinct(ks)
  {
    if !Distinct(ks) {
      var i, j :| 0 <= i < j < |ks| && ks[i] == ks[j];
      RepeatShrinksSet(ks, i, j);
    }
  }

  lemma {:induction false} RepeatShrinksSet<T>(ks: seq<T>, i: int, j: int)
    requires 0 <= i < j < |ks| && ks[i] == ks[j]
    ensures |set k | 0 <= k < |ks| :: ks[k]| < |ks|
  {
    var s := set k | 0 <= k < |ks| :: ks[k];
    var without := ks[..j] + ks[j + 1..];
    var t := set k | 0 <= k < |without| :: without[k];
    assert s == t by {
      forall x | x in s ensures x in t {
        var k :| 0 <= k < |ks| && ks[k] == x;
        if k < j { assert without[k] == x; }
        else if k == j { assert without[i] == x; }
        else { assert without[k - 1] == x; }
      }
      forall x | x in t ensures x in s {
        var k :| 0 <= k < |without| && without[k] == x;
        if k < j { assert ks[k] == x; } else { assert ks[k + 1] == x; }
      }
    }
    SetOfSeqBound(without);
  }

  lemma {:induction false} SetOfSeqBound<T>(ks: seq<T>)
    ensures |set k | 0 <= k < |ks| :: ks[k]| <= |ks|
  {
    if |ks| > 0 {
      var init := ks[..|ks| - 1];
      SetOfSeqBound(init);
      var s := set k | 0 <= k < |ks| :: ks[k];
      var t := set k | 0 <= k < |init| :: init[k];
      assert s == t + {ks[|ks| - 1]} by {
        forall x | x in s ensures x in t + {ks[|ks| - 1]} {
          var k :| 0 <= k < |ks| && ks[k] == x;
          if k < |ks| - 1 { assert init[k] == x; }
        }
      }
    }
  }

  /** A sequence without repeats has as many distinct elements as it is
      long. */
  lemma {:induction false} DistinctSetSize<T>(ks: seq<T>)
    requires Distinct(ks)
    ensures |set k | 0 <= k < |ks| :: ks[k]| == |ks|
  {
    if |ks| > 0 {
      var init := ks[..|ks| - 1];
      DistinctSetSize(init);
      var s := set k | 0 <= k < |ks| :: ks[k];
      var t := set k | 0 <= k < |init| :: init[k];
      assert s == t + {ks[|ks| - 1]} by {
        forall x | x in s ensures x in t + {ks[|ks| - 1]} {
          var k :| 0 <= k < |ks| && ks[k] == x;
          if k < |ks| - 1 { assert init[k] == x; }
        }
      }
      assert ks[|ks| - 1] !in t by {
        forall x | x in t ensures x != ks[|ks| - 1] {
          var k :| 0 <= k < |init| && init[k] == x;
          assert ks[k] == x;
        }
      }
    }
  }

  lemma {:induction false} ConcatAssoc<T>(a: seq<T>, b: seq<T>, c: seq<T>)
    ensures a + (b + c) == (a + b) + c
  {
  }

  lemma {:induction false} DistinctOccursOnce<T>(s: seq<T>, x: T)
    requires Distinct(s)
    ensures multiset(s)[x] <= 1
  {
    if |s| > 0 {
      var init := s[..|s| - 1];
      assert s == init + [s[|s| - 1]];
      assert Distinct(init);
      DistinctOccursOnce(init, x);
      if x == s[|s| - 1] {
        assert x !in init;
      }
    }
  }

  lemma {:induction false} RepeatOccursTwice<T>(t: seq<T>, i: int, j: int)
    requires 0 <= i < j < |t| && t[i] == t[j]
    ensures multiset(t)[t[i]] >= 2
  {
    assert t == t[..j] + [t[j]] + t[j + 1..];
    assert t[i] in t[..j];
  }

  /** Rearranging a sequence keeps its elements distinct. */
  lemma {:induction false} DistinctPermutation<T>(s: seq<T>, t: seq<T>)
    requires Distinct(s) && multiset(s) == multiset(t)
    ensures Distinct(t)
  {
    if !Distinct(t) {
      var i, j :| 0 <= i < j < |t| && t[i] == t[j];
      RepeatOccursTwice(t, i, j);
      DistinctOccursOnce(s, t[i]);
    }
  }

  /** The sum does not depend on the order of the terms. */
  lemma {:induction false} SumPermutation(a: seq<real>, b: seq<real>)
    requires multiset(a) == multiset(b)
    ensures Sum(a) == Sum(b)
    decreases |a|
  {
    if |a| > 0 {
      var init := a[..|a| - 1];
      var x := a[|a| - 1];
      assert a == init + [x];
      assert x in multiset(b);
      var k :| 0 <= k < |b| && b[k] == x;
      var rest := b[..k] + b[k + 1..];
      assert b == b[..k] + [x] + b[k + 1..];
      assert multiset(b) == multiset(b[..k]) + multiset{x} + multiset(b[k + 1..]);
      assert multiset(a) == multiset(init) + multiset{x};
      assert multiset(rest) == multiset(b[..k]) + multiset(b[k + 1..]);
      assert multiset(rest) == multiset(b) - multiset{x};
      assert multiset(init) == multiset(a) - multiset{x};
      SumPermutation(init, rest);
      SumAppend(b[..k], b[k + 1..]);
      SumAppend(b[..k] + [x], b[k + 1..]);
      SumAppend(b[..k], [x]);
      assert Sum([x]) == x by {
        assert [x][..0] == [];
      }
    }
  }

  // ---------------------------------------------------------------------
  // Sorting numbers, as `array.sort((a, b) => a - b)` does
  // ---------------------------------------------------------------------

  predicate Sorted(s: seq<real>)
  {
    forall i, j :: 0 <= i < j < |s| ==> s[i] <= s[j]
  }

  /** Put `x` in front of the first element of `s` that is at least as
      large. */
  function Insert(x: real, s: seq<real>): (r: seq<real>)
    requires Sorted(s)
    ensures Sorted(r) && multiset(r) == multiset(s) + multiset{x}
    ensures |r| == |s| + 1
  {
    if |s| == 0 || x <= s[0] then
      ConsSorted(x, s);
      [x] + s
    else
      var t := Insert(x, s[1..]);
      assert s == [s[0]] + s[1..];
      InsertedAbove(x, s, t);
      ConsSorted(s[0], t);
      [s[0]] + t
  }

  lemma {:induction false} ConsSorted(h: real, t: seq<real>)
    requires Sorted(t)
    requires forall i :: 0 <= i < |t| ==> h <= t[i]
    ensures Sorted([h] + t)
  {
  }

  lemma {:induction false} InsertedAbove(x: real, s: seq<real>, t: seq<real>)
    requires |s| > 0 && Sorted(s) && s[0] < x
    requires multiset(t) == multiset(s[1..]) + multiset{x}
    ensures forall i :: 0 <= i < |t| ==> s[0] <= t[i]
  {
    forall i | 0 <= i < |t|
      ensures s[0] <= t[i]
    {
      assert t[i] in multiset(t);
      if t[i] != x {
        assert t[i] in s[1..];
      }
    }
  }

  /** The numbers in ascending order. */
  function SortAscending(s: seq<real>): (r: seq<real>)
    ensures Sorted(r) && multiset(r) == multiset(s)
    ensures |r| == |s|
  {
    if |s| == 0 then []
    else
      var r := Insert(s[|s| - 1], SortAscending(s[..|s| - 1]));
      assert s == s[..|s| - 1] + [s[|s| - 1]];
      r
  }

  /** There is one ascending arrangement of a collection of numbers, so
      any sort gives the same sequence as `SortAscending`. */
  lemma {:induction false} SortedUnique(a: seq<real>, b: seq<real>)
    requires Sorted(a) && Sorted(b) && multiset(a) == multiset(b)
    ensures a == b
    decreases |a|
  {
    assert |a| == |multiset(a)| == |b|;
    if |a| > 0 {
      var n := |a| - 1;
      LastOfSorted(a, b);
      LastOfSorted(b, a);
      DropLast(a);
      DropLast(b);
      SortedUnique(a[..n], b[..n]);
      forall i | 0 <= i < |a|
        ensures a[i] == b[i]
      {
        if i < n {
          assert a[..n][i] == b[..n][i];
        }
      }
    }
  }

  /** Without its last element an ascending sequence stays ascending and
      loses one occurrence of that element. */
  lemma {:induction false} DropLast(a: seq<real>)
    requires Sorted(a) && |a| > 0
    ensures Sorted(a[..|a| - 1])
    ensures multiset(a[..|a| - 1]) == multiset(a) - multiset{a[|a| - 1]}
  {
    var n := |a| - 1;
    assert a == a[..n] + [a[n]];
    assert multiset(a) == multiset(a[..n]) + multiset{a[n]};
  }

  /** The last element of an ascending sequence is at least every element
      of any rearrangement. */
  lemma {:induction false} LastOfSorted(a: seq<real>, b: seq<real>)
    requires Sorted(a) && |a| > 0 && |b| > 0 && multiset(a) == multiset(b)
    ensures b[|b| - 1] <= a[|a| - 1]
  {
    assert b[|b| - 1] in multiset(a);
  }

  /** The first element of an ascending arrangement is the smallest and
      the last is the largest. */
  lemma {:induction false} SortedEnds(s: seq<real>, r: seq<real>)
    requires |s| > 0 && Sorted(r) && multiset(r) == multiset(s)
    ensures |r| == |s|
    ensures r[0] == Min(s) && r[|r| - 1] == Max(s)
  {
    assert |r| == |multiset(r)| == |s|;
    var i :| 0 <= i < |s| && Min(s) == s[i];
    var j :| 0 <= j < |s| && Max(s) == s[j];
    assert s[i] in multiset(r) && s[j] in multiset(r);
    assert r[0] in multiset(s) && r[|r| - 1] in multiset(s);
  }

  // ---------------------------------------------------------------------
  // First appearances, as a JavaScript `Map` or `Set` keeps its keys
  // ---------------------------------------------------------------------

  /** Each element once, in the order of its first appearance. */
  function Dedup<T(==)>(s: seq<T>): (r: seq<T>)
    ensures Distinct(r)
    ensures forall i :: 0 <= i < |r| ==> r[i] in s
    ensures forall i :: 0 <= i < |s| ==> s[i] in r
  {
    if |s| == 0 then []
    else
      var init := s[..|s| - 1];
      var r := Dedup(init);
      assert forall i :: 0 <= i < |s| - 1 ==> s[i] == init[i];
      if s[|s| - 1] in r then r else r + [s[|s| - 1]]
  }

  /** One more element is either seen already or appended. */
  lemma {:induction false} DedupSnoc<T>(s: seq<T>, x: T)
    ensures Dedup(s + [x]) == if x in s then Dedup(s) else Dedup(s) + [x]
  {
    assert (s + [x])[..|s|] == s;
  }

  /** The first appearances in a prefix come first, in the same order:
      later elements never move an earlier one. */
  lemma {:induction false} DedupPrefix<T>(s: seq<T>, n: nat)
    requires n <= |s|
    ensures Dedup(s[..n]) <= Dedup(s)
    decreases |s| - n
  {
    if n < |s| {
      DedupPrefix(s, n + 1);
      var t := s[..n + 1];
      assert t[..|t| - 1] == s[..n];
      assert Dedup(s[..n]) <= Dedup(t);
    } else {
      assert s[..n] == s;
    }
  }

  // ---------------------------------------------------------------------
  // Array.prototype.filter
  // ---------------------------------------------------------------------

  /** The elements that `keep` accepts, in order. */
  function Filter<T(==)>(s: seq<T>, keep: T -> bool): (r: seq<T>)
    ensures |r| <= |s|
    ensures forall i :: 0 <= i < |r| ==> keep(r[i]) && r[i] in s
  {
    if |s| == 0 then []
    else if keep(s[0]) then [s[0]] + Filter(s[1..], keep)
    else Filter(s[1..], keep)
  }

  /** The elements that `keep` refuses, in order. */
  function Reject<T(==)>(s: seq<T>, keep: T -> bool): (r: seq<T>)
    ensures forall i :: 0 <= i < |r| ==> !keep(r[i]) && r[i] in s
  {
    if |s| == 0 then []
    else if keep(s[0]) then Reject(s[1..], keep)
    else [s[0]] + Reject(s[1..], keep)
  }

  /** Filtering a concatenation filters each part. */
  lemma {:induction false} FilterAppend<T>(a: seq<T>, b: seq<T>, keep: T -> bool)
    ensures Filter(a + b, keep) == Filter(a, keep) + Filter(b, keep)
  {
    if |a| > 0 {
      assert (a + b)[1..] == a[1..] + b;
      FilterAppend(a[1..], b, keep);
    } else {
      assert a + b == b;
    }
  }

  /** Filtering one more element appends it when it is kept. */
  lemma {:induction false} FilterSnoc<T>(s: seq<T>, n: int, keep: T -> bool)
    requires 0 <= n < |s|
    ensures Filter(s[..n + 1], keep) == Filter(s[..n], keep) + (if keep(s[n]) then [s[n]] else [])
  {
    assert s[..n + 1] == s[..n] + [s[n]];
    FilterAppend(s[..n], [s[n]], keep);
    assert [s[n]][1..] == [];
  }

  /** Every element lands on exactly one side. */
  lemma {:induction false} FilterPartition<T>(s: seq<T>, keep: T -> bool)
    ensures multiset(Filter(s, keep)) + multiset(Reject(s, keep)) == multiset(s)
    ensures |Filter(s, keep)| + |Reject(s, keep)| == |s|
  {
    if |s| > 0 {
      FilterPartition(s[1..], keep);
      assert s == [s[0]] + s[1..];
    }
  }

  /** Nothing that `keep` accepts is dropped. */
  lemma {:induction false} FilterComplete<T>(s: seq<T>, keep: T -> bool, i: int)
    requires 0 <= i < |s| && keep(s[i])
    ensures s[i] in Filter(s, keep)
  {
    if i > 0 {
      FilterComplete(s[1..], keep, i - 1);
    }
  }

  /** A filter that every element passes keeps the sequence whole. */
  lemma {:induction false} FilterAll<T>(s: seq<T>, keep: T -> bool)
    requires forall i :: 0 <= i < |s| ==> keep(s[i])
    ensures Filter(s, keep) == s
  {
    if |s| > 0 {
      assert forall i :: 0 <= i < |s| - 1 ==> s[1..][i] == s[i + 1];
      FilterAll(s[1..], keep);
      assert s == [s[0]] + s[1..];
    }
  }

  /** No two elements share a key. */
  predicate Apart<T, K(==)>(s: seq<T>, key: T -> K)
  {
    forall j, k :: 0 <= j < k < |s| ==> key(s[j]) != key(s[k])
  }

  /** Filtering keeps elements with pairwise different keys apart. */
  lemma {:induction false} FilterApart<T, K>(s: seq<T>, keep: T -> bool, key: T -> K)
    requires Apart(s, key)
    ensures Apart(Filter(s, keep), key)
  {
    if |s| > 0 {
      var t := s[1..];
      assert forall j :: 0 <= j < |t| ==> t[j] == s[j + 1];
      FilterApart(t, keep, key);
      var r := Filter(t, keep);
      if keep(s[0]) {
        forall k | 0 <= k < |r|
          ensures key(r[k]) != key(s[0])
        {
          var i :| 0 <= i < |t| && t[i] == r[k];
          assert s[i + 1] == t[i];
        }
        var f := Filter(s, keep);
        assert f == [s[0]] + r;
        assert forall k :: 0 < k < |f| ==> f[k] == r[k - 1];
      } else {
        assert Filter(s, keep) == r;
      }
    }
  }

  // ---------------------------------------------------------------------
  // Array.prototype.map
  // ---------------------------------------------------------------------

  /** `f` applied to every element, in order. */
  function MapSeq<T, U>(s: seq<T>, f: T -> U): (r: seq<U>)
    ensures |r| == |s|
    ensures forall i :: 0 <= i < |s| ==> r[i] == f(s[i])
  {
    seq(|s|, i requires 0 <= i < |s| => f(s[i]))
  }

  /** Mapping one more element appends its image. */
  lemma {:induction false} MapSnoc<T, U>(s: seq<T>, n: int, f: T -> U)
    requires 0 <= n < |s|
    ensures MapSeq(s[..n + 1], f) == MapSeq(s[..n], f) + [f(s[n])]
  {
    assert MapSeq(s[..n + 1], f)[n] == f(s[n]);
  }

  /** Mapping a prefix gives the prefix of the images. */
  lemma {:induction false} MapPrefix<T, U>(s: seq<T>, n: int, f: T -> U)
    requires 0 <= n <= |s|
    ensures MapSeq(s[..n], f) == MapSeq(s, f)[..n]
  {
  }

  /** Mapping a concatenation concatenates the images. */
  lemma {:induction false} MapAppend<T, U>(a: seq<T>, b: seq<T>, f: T -> U)
    ensures MapSeq(a + b, f) == MapSeq(a, f) + MapSeq(b, f)
  {
    assert forall i :: 0 <= i < |b| ==> (a + b)[|a| + i] == b[i];
  }

  /** Rearranged elements have rearranged images. */
  lemma {:induction false} MapPermutation<T, U>(a: seq<T>, b: seq<T>, f: T -> U)
    requires multiset(a) == multiset(b)
    ensures multiset(MapSeq(a, f)) == multiset(MapSeq(b, f))
    decreases |a|
  {
    if |a| > 0 {
      var n := |a| - 1;
      var x := a[n];
      assert x in multiset(b);
      var k :| 0 <= k < |b| && b[k] == x;
      var front, back := b[..k], b[k + 1..];
      assert a == a[..n] + [x];
      assert b == front + [x] + back;
      assert multiset(front + back) == multiset(b) - multiset{x};
      assert multiset(a[..n]) == multiset(a) - multiset{x};
      MapPermutation(a[..n], front + back, f);
      MapAppend(a[..n], [x], f);
      MapAppend(front + [x], back, f);
      MapAppend(front, [x], f);
      MapAppend(front, back, f);
    }
  }

  /** A non-empty set of integers has an element to pick. */
  lemma {:induction false} NonEmptySet(s: set<int>)
    requires s != {}
    ensures exists x :: x in s
  {
    if forall x :: x !in s {
      assert false;
    }
  }
}
