/** Small types shared by the other modules. */
module Wrappers {
  datatype Option<+T> = None | Some(value: T)

  datatype Result<+T, +E> = Success(value: T) | Failure(error: E)
}

/** Arithmetic on reals that several modules use. */
module RealMath {
  function Min(a: real, b: real): real { if a <= b then a else b }

  function Max(a: real, b: real): real { if a >= b then a else b }

  function Abs(a: real): real { if a >= 0.0 then a else -a }

  function MaxInt(a: int, b: int): int { if a >= b then a else b }

  function MinInt(a: int, b: int): int { if a <= b then a else b }

  function Clamp(x: real, low: real, high: real): real { Max(low, Min(high, x)) }

  lemma QuotientOrder(a: real, b: real, s: real)
    requires s > 0.0 && a <= b
    ensures a / s <= b / s
  {}

  lemma LargerDivisor(s: real, n: real, m: real)
    requires s >= 0.0 && 0.0 < n <= m
    ensures 0.0 <= s / m <= s / n
  {
    var q := s / m;
    assert q * m == s;
    QuotientOrder(0.0, s, m);
    ProductOrder(n, m, q);
    assert n * q == q * n && m * q == q * m;
    QuotientOrder(q * n, s, n);
    assert q * n / n == q;
  }

  lemma ShareTimes(part: real, whole: real)
    requires whole > 0.0
    ensures part / whole * whole == part
  {}

  lemma StrictProduct(a: real, b: real, s: real)
    requires a < b && s > 0.0
    ensures a * s < b * s
  {}

  lemma ProductOrder(a: real, b: real, s: real)
    requires s >= 0.0 && a <= b
    ensures a * s <= b * s
  {}

  function Sum(s: seq<real>): real {
    if s == [] then 0.0 else s[0] + Sum(s[1..])
  }

  function MaxOf(s: seq<real>): real
    requires s != []
  {
    if |s| == 1 then s[0] else Max(s[0], MaxOf(s[1..]))
  }

  function MinOf(s: seq<real>): real
    requires s != []
  {
    if |s| == 1 then s[0] else Min(s[0], MinOf(s[1..]))
  }

  lemma {:induction false} MaxOfBounds(s: seq<real>)
    requires s != []
    ensures MaxOf(s) in s
    ensures forall x :: x in s ==> x <= MaxOf(s)
  {
    if |s| > 1 {
      MaxOfBounds(s[1..]);
      assert s == [s[0]] + s[1..];
    }
  }

  lemma {:induction false} MinOfBounds(s: seq<real>)
    requires s != []
    ensures MinOf(s) in s
    ensures forall x :: x in s ==> x >= MinOf(s)
  {
    if |s| > 1 {
      MinOfBounds(s[1..]);
      assert s == [s[0]] + s[1..];
    }
  }
}
