/** Facts of exact arithmetic over the reals. */
module Exact {
  lemma Scaled(a: real, b: real)
    ensures (a > 0.0 && b >= 0.0) || (a < 0.0 && b <= 0.0) || a == 0.0 ==> a * b >= 0.0
    ensures (a > 0.0 && b <= 0.0) || (a < 0.0 && b >= 0.0) || a == 0.0 ==> a * b <= 0.0
  {
  }

  lemma Distribute(w: real, a: real, b: real)
    ensures w * (a - b) == w * a - w * b
    ensures w * (a + b) == w * a + w * b
  {
  }

  lemma TimesOrdered(a: real, b: real, c: real)
    requires a <= b && c >= 0.0
    ensures a * c <= b * c
  {
    Scaled(b - a, c);
    Distribute(c, b, a);
    assert (b - a) * c == c * (b - a) && c * b == b * c && c * a == a * c;
  }

  lemma Divided(a: real, b: real)
    requires b > 0.0
    ensures (a / b) * b == a
  {
  }

  lemma Positive(a: real, b: real)
    requires a > 0.0 && b > 0.0
    ensures a * b > 0.0 && b * a > 0.0
  {
  }

  lemma Quotient(a: real, b: real, k: real)
    requires b > 0.0
    ensures a <= k * b ==> a / b <= k
    ensures a >= k * b ==> a / b >= k
  {
    var v := a / b;
    Divided(a, b);
    if v > k {
      Scaled(v - k, b);
      Distribute(b, v, k);
      assert (v - k) * b > 0.0 by { Positive(v - k, b); }
    } else if v < k {
      Positive(k - v, b);
      Distribute(b, k, v);
    }
  }

  /** A product, kept as one term where its factors do not matter. */
  function Times(a: real, b: real): real {
    a * b
  }

  lemma TimesLaws(a: real, b: real, c: real)
    ensures Times(a, b) == Times(b, a)
    ensures Times(Times(a, b), c) == Times(a, Times(b, c))
    ensures Times(a, b + c) == Times(a, b) + Times(a, c) && Times(a, b - c) == Times(a, b) - Times(a, c)
    ensures Times(a, 0.0 - b) == 0.0 - Times(a, b) && Times(0.0 - a, b) == 0.0 - Times(a, b)
    ensures Times(a, 1.0) == a && Times(a, 0.0) == 0.0
  {
    Distribute(a, b, c);
    assert (a * b) * c == a * (b * c);
  }

  lemma TimesGrows(a: real, b: real, c: real)
    requires c > 0.0
    ensures a <= b <==> Times(a, c) <= Times(b, c)
    ensures a < b <==> Times(a, c) < Times(b, c)
    ensures a > 0.0 <==> Times(a, c) > 0.0
  {
    if a < b {
      Positive(b - a, c);
      Distribute(c, b, a);
    } else if b < a {
      Positive(a - b, c);
      Distribute(c, a, b);
    }
    if a > 0.0 {
      Positive(a, c);
    } else {
      Scaled(a, c);
    }
  }

  lemma QuotientTimes(a: real, b: real)
    requires b > 0.0
    ensures Times(a / b, b) == a && Times(b, a / b) == a
  {
    Divided(a, b);
  }
}
