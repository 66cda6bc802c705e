/** The largest fall of a price history from an earlier close, found in one pass. */
module Drawdown {
  import opened Exact

  /** The fall from one close to another, as a share of the first. */
  function Fall(from: real, to: real): real
    requires from > 0.0
  {
    (from - to) / from
  }

  /** Falling to the same close, a higher start falls at least as far. */
  lemma HigherFallsFurther(low: real, high: real, to: real)
    requires 0.0 < low <= high && to > 0.0
    ensures Fall(low, to) <= Fall(high, to) < 1.0
  {
    Share(low, to);
    Share(high, to);
    PositiveShare(to, low);
    PositiveShare(to, high);
    Shrinks(low, high, to, to / low);
  }

  lemma PositiveShare(a: real, b: real)
    requires a > 0.0 && b > 0.0
    ensures a / b > 0.0 && (a / b) * b == a
  {
    Divided(a, b);
    if a / b <= 0.0 {
      Scaled(a / b, b);
    }
  }

  lemma Shrinks(low: real, high: real, to: real, x: real)
    requires 0.0 < low <= high && x > 0.0 && x * low == to
    ensures to / high <= x
  {
    TimesOrdered(low, high, x);
    Quotient(to, high, x);
  }

  lemma Share(from: real, to: real)
    requires from > 0.0
    ensures Fall(from, to) == 1.0 - to / from
  {
    Divided(to, from);
    Divided(from - to, from);
    Quotient(from - to, from, 1.0 - to / from);
    assert (1.0 - to / from) * from == from - (to / from) * from;
  }

  /** One pass with the highest close so far: the result is the largest fall from any close to any later one. */
  method MaxCloseDrawdown(closes: seq<real>) returns (drawdown: real)
    requires |closes| >= 2 && forall i :: 0 <= i < |closes| ==> closes[i] > 0.0
    ensures 0.0 <= drawdown < 1.0
    ensures forall i, j :: 0 <= i <= j < |closes| ==> Fall(closes[i], closes[j]) <= drawdown
    ensures exists i, j :: 0 <= i <= j < |closes| && Fall(closes[i], closes[j]) == drawdown
  {
    hide Fall;
    var peak := closes[0];
    drawdown := 0.0;
    ghost var top, low, high := 0, 0, 0;
    NoFall(closes[0]);
    for n := 1 to |closes|
      invariant 0 <= top < n && peak == closes[top] && forall i :: 0 <= i < n ==> closes[i] <= peak
      invariant 0.0 <= drawdown < 1.0
      invariant forall i, j :: 0 <= i <= j < n ==> Fall(closes[i], closes[j]) <= drawdown
      invariant 0 <= low <= high < n && Fall(closes[low], closes[high]) == drawdown
    {
      if closes[n] > peak {
        peak, top := closes[n], n;
      }
      NoFall(peak);
      forall i | 0 <= i <= n ensures Fall(closes[i], closes[n]) <= Fall(peak, closes[n]) < 1.0 {
        HigherFallsFurther(closes[i], peak, closes[n]);
      }
      if closes[n] < peak {
        var fall := (peak - closes[n]) / peak;
        FallIs(peak, closes[n]);
        if fall > drawdown {
          drawdown, low, high := fall, top, n;
        }
      }
    }
  }

  lemma FallIs(from: real, to: real)
    requires from > 0.0
    ensures Fall(from, to) == (from - to) / from
  {
  }

  lemma NoFall(x: real)
    requires x > 0.0
    ensures Fall(x, x) == 0.0
  {
  }
}
