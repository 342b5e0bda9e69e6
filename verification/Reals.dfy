/**
  Products and quotients of reals. Products go through `Times`, which keeps each nonlinear step in a lemma of its own.
 */
module Reals {

  function Times(a: real, b: real): real { a * b }

  lemma TimesNonNegative(a: real, b: real)
    requires a >= 0.0 && b >= 0.0
    ensures Times(a, b) >= 0.0
  {
  }

  lemma TimesPositive(a: real, b: real)
    requires a > 0.0 && b > 0.0
    ensures Times(a, b) > 0.0
  {
  }

  lemma TimesNonPositive(k: real, d: real)
    requires k > 0.0 && d <= 0.0
    ensures Times(k, d) <= 0.0
  {
  }

  lemma Distribute(k: real, a: real, b: real)
    ensures Times(k, a + b) == Times(k, a) + Times(k, b)
    ensures Times(k, a - b) == Times(k, a) - Times(k, b)
  {
  }

  lemma DistributeRight(a: real, b: real, k: real)
    ensures Times(a - b, k) == Times(a, k) - Times(b, k)
  {
  }

  lemma Reorder(a: real, k: real, b: real)
    ensures Times(a, Times(k, b)) == Times(k, Times(a, b))
  {
  }

  lemma TimesMonotone(a: real, b: real, k: real)
    requires a <= b && k >= 0.0
    ensures Times(a, k) <= Times(b, k)
  {
    DistributeRight(b, a, k);
    TimesNonNegative(b - a, k);
  }

  lemma TimesIncreasing(a: real, b: real, k: real)
    requires a < b && k > 0.0
    ensures Times(a, k) < Times(b, k)
  {
    DistributeRight(b, a, k);
    TimesPositive(b - a, k);
  }

  lemma TimesOne(w: real)
    ensures Times(1.0, w) == w && Times(0.0, w) == 0.0
  {
  }

  /** A fraction of a weight is at most the weight, and all of it only for the whole fraction or no weight. */
  lemma TimesFraction(v: real, w: real)
    requires 0.0 <= v <= 1.0 && w >= 0.0
    ensures 0.0 <= Times(v, w) <= w
    ensures Times(v, w) == w <==> (w > 0.0 ==> v == 1.0)
  {
    TimesOne(w);
    TimesMonotone(0.0, v, w);
    TimesMonotone(v, 1.0, w);
    if w > 0.0 && v < 1.0 {
      TimesIncreasing(v, 1.0, w);
    }
  }

  lemma DivideTimes(a: real, d: real)
    requires d > 0.0
    ensures Times(a / d, d) == a
  {
  }

  lemma DivideMonotone(a: real, b: real, d: real)
    requires a <= b && d > 0.0
    ensures a / d <= b / d
    ensures a / d == b / d <==> a == b
  {
    var x, y := a / d, b / d;
    DivideTimes(a, d);
    DivideTimes(b, d);
    if x > y {
      TimesIncreasing(y, x, d);
    }
  }

  lemma DivideIsUnique(a: real, d: real, q: real)
    requires d > 0.0 && Times(q, d) == a
    ensures a / d == q
  {
    DivideTimes(a, d);
    var x := a / d;
    if x < q {
      TimesIncreasing(x, q, d);
    } else if x > q {
      TimesIncreasing(q, x, d);
    }
  }

  /** A common factor cancels. */
  lemma DivideCancels(a: real, d: real, k: real)
    requires d > 0.0 && k > 0.0
    ensures Times(k, d) > 0.0
    ensures Times(k, a) / Times(k, d) == a / d
  {
    TimesPositive(k, d);
    DivideTimes(a, d);
    Reorder(a / d, k, d);
    DivideIsUnique(Times(k, a), Times(k, d), a / d);
  }

  /** Go's conversion of a float to an integer: truncation towards zero. */
  function Truncate(x: real): int { if x >= 0.0 then x.Floor else -(-x).Floor }
}
