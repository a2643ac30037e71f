/** Helpers shared by every screen of the planner: an optional value, the
    order-preserving filter and the summing reduce that the screens apply to
    their record lists, and JavaScript's rounding operations on reals. */
module Util {

  datatype Option<+T> = None | Some(value: T)

  /** `o || d` on an optional form field: the value if present, else `d`. */
  function OrElse<T>(o: Option<T>, d: T): T {
    match o
    case Some(v) => v
    case None => d
  }

  /** `s.filter(p)`: the elements of `s` that satisfy `p`, in their original order. */
  function Filter<T(!new)>(s: seq<T>, p: T -> bool): (r: seq<T>)
    ensures |r| <= |s|
    ensures forall x :: x in r <==> x in s && p(x)
    ensures forall i :: 0 <= i < |r| ==> p(r[i])
  {
    if s == [] then []
    else if p(s[0]) then [s[0]] + Filter(s[1..], p)
    else Filter(s[1..], p)
  }

  /** `s.reduce((acc, x) => acc + f(x), 0)`; over the reals the grouping of
      the additions does not matter. */
  function Sum<T>(s: seq<T>, f: T -> real): real
  {
    if s == [] then 0.0 else f(s[0]) + Sum(s[1..], f)
  }

  lemma {:induction false} FilterAppend<T(!new)>(s: seq<T>, t: seq<T>, p: T -> bool)
    ensures Filter(s + t, p) == Filter(s, p) + Filter(t, p)
  {
    if s == [] {
      assert s + t == t;
    } else {
      assert (s + t)[1..] == s[1..] + t;
      FilterAppend(s[1..], t, p);
    }
  }

  /** Filtering by `p` and by its complement `q` splits a list into two
      parts that together hold every element exactly once. */
  lemma {:induction false} FilterPartition<T(!new)>(s: seq<T>, p: T -> bool, q: T -> bool)
    requires forall i :: 0 <= i < |s| ==> q(s[i]) == !p(s[i])
    ensures multiset(Filter(s, p)) + multiset(Filter(s, q)) == multiset(s)
    ensures |Filter(s, p)| + |Filter(s, q)| == |s|
  {
    if s != [] {
      FilterPartition(s[1..], p, q);
      assert s == [s[0]] + s[1..];
    }
  }

  /** A filter that keeps everything is the identity. */
  lemma {:induction false} FilterAll<T(!new)>(s: seq<T>, p: T -> bool)
    requires forall i :: 0 <= i < |s| ==> p(s[i])
    ensures Filter(s, p) == s
  {
    if s != [] {
      FilterAll(s[1..], p);
    }
  }

  lemma {:induction false} SumAppend<T>(s: seq<T>, t: seq<T>, f: T -> real)
    ensures Sum(s + t, f) == Sum(s, f) + Sum(t, f)
  {
    if s == [] {
      assert s + t == t;
    } else {
      assert (s + t)[1..] == s[1..] + t;
      SumAppend(s[1..], t, f);
    }
  }

  /** A sum of non-negative terms is non-negative. */
  lemma {:induction false} SumNonNegative<T>(s: seq<T>, f: T -> real)
    ensures (forall i :: 0 <= i < |s| ==> f(s[i]) >= 0.0) ==> Sum(s, f) >= 0.0
  {
    if s != [] {
      SumNonNegative(s[1..], f);
      assert forall i :: 1 <= i < |s| ==> s[1..][i - 1] == s[i];
    }
  }

  /** So is a sum over a part of such a list. */
  lemma FilteredSumNonNegative<T(!new)>(s: seq<T>, p: T -> bool, f: T -> real)
    ensures (forall i :: 0 <= i < |s| ==> f(s[i]) >= 0.0) ==> Sum(Filter(s, p), f) >= 0.0
  {
    var kept := Filter(s, p);
    assert forall j :: 0 <= j < |kept| ==> kept[j] in s;
    SumNonNegative(kept, f);
  }

  /** Terms that each stay within `e` of a reference keep the sum within
      `e` per term of the reference sum. */
  lemma {:induction false} SumWithin<T>(s: seq<T>, f: T -> real, g: T -> real, e: real)
    requires forall i :: 0 <= i < |s| ==> g(s[i]) - e <= f(s[i]) <= g(s[i]) + e
    ensures Sum(s, g) - e * |s| as real <= Sum(s, f) <= Sum(s, g) + e * |s| as real
  {
    if s != [] {
      assert forall i :: 0 <= i < |s| - 1 ==> s[1..][i] == s[i + 1];
      SumWithin(s[1..], f, g, e);
      var n := |s[1..]| as real;
      assert Sum(s, f) == f(s[0]) + Sum(s[1..], f);
      assert Sum(s, g) == g(s[0]) + Sum(s[1..], g);
      assert g(s[0]) - e <= f(s[0]) <= g(s[0]) + e;
      assert e * |s| as real == e * n + e;
    }
  }

  /** Filtering keeps the relative order of the kept elements: a list whose
      keys strictly increase stays so. */
  lemma {:induction false} FilterKeepsIncreasing<T(!new)>(s: seq<T>, p: T -> bool, key: T -> int)
    requires forall i, j :: 0 <= i < j < |s| ==> key(s[i]) < key(s[j])
    ensures forall i, j :: 0 <= i < j < |Filter(s, p)| ==> key(Filter(s, p)[i]) < key(Filter(s, p)[j])
  {
    if s != [] {
      assert forall i, j :: 0 <= i < j < |s[1..]| ==> s[1..][i] == s[i + 1] && s[1..][j] == s[j + 1];
      FilterKeepsIncreasing(s[1..], p, key);
      var rest := Filter(s[1..], p);
      forall y | y in rest ensures key(s[0]) < key(y) {
        var k :| 0 <= k < |s[1..]| && s[1..][k] == y;
        assert s[k + 1] == y;
      }
    }
  }

  /** A sum of pointwise sums is the sum of the two sums. */
  lemma {:induction false} SumSplit<T>(s: seq<T>, f: T -> real, g: T -> real, h: T -> real)
    requires forall i :: 0 <= i < |s| ==> f(s[i]) == g(s[i]) + h(s[i])
    ensures Sum(s, f) == Sum(s, g) + Sum(s, h)
  {
    if s != [] {
      SumSplit(s[1..], f, g, h);
    }
  }

  /** Filtering out elements on which `f` is zero does not change the sum. */
  lemma {:induction false} SumFilterZeros<T(!new)>(s: seq<T>, p: T -> bool, f: T -> real)
    requires forall i :: 0 <= i < |s| && !p(s[i]) ==> f(s[i]) == 0.0
    ensures Sum(Filter(s, p), f) == Sum(s, f)
  {
    if s != [] {
      SumFilterZeros(s[1..], p, f);
    }
  }

  /** The sum over a filtered list, unfolded at its first element. */
  lemma SumFilterCons<T(!new)>(x: T, s: seq<T>, p: T -> bool, f: T -> real)
    ensures Sum(Filter([x] + s, p), f) == (if p(x) then f(x) else 0.0) + Sum(Filter(s, p), f)
  {
    assert ([x] + s)[1..] == s;
    if p(x) {
      assert ([x] + Filter(s, p))[1..] == Filter(s, p);
    }
  }

  /** `Math.round(x)`: the integer nearest to `x`, halves rounded up. */
  function Round(x: real): (n: int)
    ensures n as real - 0.5 <= x < n as real + 0.5
  {
    (x + 0.5).Floor
  }

  /** `Number(x.toFixed(1))`: `x` rounded to one decimal place. `toFixed`
      rounds the magnitude and then restores the sign, so a half is rounded
      away from zero: up for a positive `x`, down for a negative one. */
  function Round1(x: real): (r: real)
    ensures x >= 0.0 ==> r - 0.05 <= x < r + 0.05
    ensures x < 0.0 ==> r - 0.05 < x <= r + 0.05
    ensures (10.0 * r).Floor as real == 10.0 * r
  {
    if x >= 0.0 then Tenths(Round(10.0 * x))
    else
      var n := Round(-10.0 * x);
      assert Tenths(n) == -Tenths(-n);
      -Tenths(n)
  }

  /** `n` tenths, a value on the one-decimal grid. */
  function Tenths(n: int): (r: real)
    ensures 10.0 * r == n as real
    ensures (10.0 * r).Floor as real == 10.0 * r
  {
    n as real / 10.0
  }

  /** Rounding to one decimal commutes with negation: `-0.25` becomes `-0.3`
      just as `0.25` becomes `0.3`. */
  lemma Round1Odd(x: real)
    ensures Round1(-x) == -Round1(x)
    ensures Round1(-0.25) == -0.3 && Round1(0.25) == 0.3
  {
    assert Round(2.5) == 3;
  }

  lemma MulNonNegative(a: real, b: real)
    requires a >= 0.0 && b >= 0.0
    ensures a * b >= 0.0
  {
  }

  /** Truncation toward zero, as JavaScript's `%` and `Math.trunc` use it. */
  function Trunc(x: real): (n: int)
    ensures x >= 0.0 ==> n as real <= x < n as real + 1.0
    ensures x < 0.0 ==> n as real - 1.0 < x <= n as real
  {
    if x >= 0.0 then x.Floor else -((-x).Floor)
  }

  /** `Math.ceil(x)`: the least integer not below `x`. */
  function Ceil(x: real): (n: int)
    ensures n as real - 1.0 < x <= n as real
  {
    -((-x).Floor)
  }

  /** JavaScript's `a % b` on numbers: the remainder of the division
      truncated toward zero, so it takes the sign of `a`. */
  function JsRem(a: real, b: real): (r: real)
    requires b != 0.0
    ensures a == Trunc(a / b) as real * b + r
  {
    a - Trunc(a / b) as real * b
  }

  /** For a non-negative dividend and a positive divisor the remainder lies
      in [0, b). */
  lemma JsRemRange(a: real, b: real)
    requires a >= 0.0 && b > 0.0
    ensures 0.0 <= JsRem(a, b) < b
  {
    var q := a / b;
    assert a == q * b;
    assert q >= 0.0;
    var k := Trunc(q) as real;
    assert k <= q < k + 1.0;
    var d := q - k;
    assert 0.0 <= d < 1.0;
    assert JsRem(a, b) == d * b;
    assert d * b < b;
  }
}
