/** Shared wrappers and exact-arithmetic helpers used by every module. */
module Wrappers {
  datatype Option<T> = None | Some(value: T)

  datatype Result<T, E> = Ok(value: T) | Err(error: E)
}

/** Sums, rounding and powers over exact reals; JavaScript's Math helpers are stated here once. */
module RealMath {

  /** A count as a real number, built by counting up from 0. Equal to `n as real`
    * (`AsRealIsCast`); products and quotients of counts are written with it so that they stay
    * in real arithmetic. */
  function AsReal(n: nat): (r: real)
    ensures r >= 0.0 && (n >= 1 ==> r >= 1.0)
  {
    if n == 0 then 0.0 else AsReal(n - 1) + 1.0
  }

  lemma {:induction false} AsRealIsCast(n: nat)
    ensures AsReal(n) == n as real
  {
    if n > 0 {
      AsRealIsCast(n - 1);
    }
  }

  /** Left-to-right sum, the order of `reduce((a, b) => a + b, 0)`. */
  function Sum(s: seq<real>): real
  {
    if |s| == 0 then 0.0 else Sum(s[..|s| - 1]) + s[|s| - 1]
  }

  lemma {:induction false} SumAppend(s: seq<real>, t: seq<real>)
    ensures Sum(s + t) == Sum(s) + Sum(t)
    decreases |t|
  {
    if |t| == 0 {
      assert s + t == s;
    } else {
      assert (s + t)[..|s + t| - 1] == s + t[..|t| - 1];
      SumAppend(s, t[..|t| - 1]);
    }
  }

  lemma SumSingle(x: real)
    ensures Sum([x]) == x
  {
    assert [x][..0] == [];
  }

  /** Sum of a sequence whose first element is split off. */
  lemma SumCons(x: real, s: seq<real>)
    ensures Sum([x] + s) == x + Sum(s)
  {
    SumAppend([x], s);
    SumSingle(x);
  }

  /** A sum of non-negative terms is non-negative. */
  lemma {:induction false} SumNonNegative(s: seq<real>)
    requires forall i :: 0 <= i < |s| ==> s[i] >= 0.0
    ensures Sum(s) >= 0.0
    decreases |s|
  {
    if |s| > 0 {
      SumNonNegative(s[..|s| - 1]);
    }
  }

  /** The sum of `n` copies of `c`. */
  lemma {:induction false} SumConstant(s: seq<real>, c: real)
    requires forall i :: 0 <= i < |s| ==> s[i] == c
    ensures Sum(s) == AsReal(|s|) * c
    decreases |s|
  {
    if |s| > 0 {
      SumConstant(s[..|s| - 1], c);
    }
  }

  /** Every term lies in [lo, hi], so the sum lies in [n*lo, n*hi]. */
  lemma {:induction false} SumBounds(s: seq<real>, lo: real, hi: real)
    requires forall i :: 0 <= i < |s| ==> lo <= s[i] <= hi
    ensures AsReal(|s|) * lo <= Sum(s) <= AsReal(|s|) * hi
    decreases |s|
  {
    if |s| > 0 {
      var init := s[..|s| - 1];
      var m, t, x := AsReal(|init|), Sum(init), s[|s| - 1];
      assert forall i :: 0 <= i < |init| ==> init[i] == s[i];
      SumBounds(init, lo, hi);
      assert AsReal(|s|) == m + 1.0;
      assert Sum(s) == t + x;
      assert m * lo <= t <= m * hi && lo <= x <= hi;
      var n := AsReal(|s|);
      assert n * lo == (m + 1.0) * lo == m * lo + lo;
      assert n * hi == (m + 1.0) * hi == m * hi + hi;
    }
  }

  function Square(x: real): (y: real)
    ensures y >= 0.0
  {
    x * x
  }

  function Max(a: real, b: real): (m: real)
    ensures m >= a && m >= b && (m == a || m == b)
  {
    if a >= b then a else b
  }

  function Min(a: real, b: real): (m: real)
    ensures m <= a && m <= b && (m == a || m == b)
  {
    if a <= b then a else b
  }

  /** `Math.max` and `Math.min` of two integers. */
  function MaxInt(a: int, b: int): (m: int)
    ensures m >= a && m >= b && (m == a || m == b)
  {
    if a >= b then a else b
  }

  function MinInt(a: int, b: int): (m: int)
    ensures m <= a && m <= b && (m == a || m == b)
  {
    if a <= b then a else b
  }

  /** `Math.round`: the nearest integer, halves rounded up. */
  function Round(x: real): (r: int)
    ensures x - 0.5 < r as real <= x + 0.5
  {
    (x + 0.5).Floor
  }

  /** `Math.ceil`: the least integer not below x. */
  function Ceil(x: real): (r: int)
    ensures x <= r as real < x + 1.0
  {
    -((-x).Floor)
  }

  /** `Math.pow` for a natural exponent. */
  function Pow(x: real, n: nat): real
  {
    if n == 0 then 1.0 else x * Pow(x, n - 1)
  }

  /** Powers of a base in [lo, hi] (lo > 0) lie between the powers of lo and hi. */
  lemma {:induction false} PowBounds(x: real, n: nat, lo: real, hi: real)
    requires 0.0 < lo <= x <= hi
    ensures 0.0 < Pow(lo, n) <= Pow(x, n) <= Pow(hi, n)
  {
    if n > 0 {
      PowBounds(x, n - 1, lo, hi);
      MulMonotone(lo, Pow(lo, n - 1), x, Pow(x, n - 1));
      MulMonotone(x, Pow(x, n - 1), hi, Pow(hi, n - 1));
    }
  }

  lemma {:induction false} PowOne(n: nat)
    ensures Pow(1.0, n) == 1.0
  {
    if n > 0 {
      PowOne(n - 1);
    }
  }

  lemma DivCancel(m: real, c: real)
    requires m != 0.0
    ensures m * c / m == c
  {
  }

  /** A quotient by a positive number has the sign of its numerator. */
  lemma DivSigns(a: real, m: real)
    requires m > 0.0
    ensures a / m > 0.0 <==> a > 0.0
    ensures a >= 0.0 ==> a / m >= 0.0
  {
  }

  lemma MulMonotone(a: real, b: real, c: real, d: real)
    requires 0.0 <= a <= c && 0.0 <= b <= d
    ensures a * b <= c * d
  {
    assert a * b <= c * b;
    assert c * b <= c * d;
  }
}
