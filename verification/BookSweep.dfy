/** Sweeping one side of an order book, level by level, in exact arithmetic: the cheapest way to buy, the dearest way to sell. */
module BookSweep {
  import opened Exact
  import opened Options

  /** A level as received; `None` where the text is not a number. */
  datatype RawLevel = RawLevel(price: Option<real>, size: Option<real>)

  datatype Level = Level(price: real, size: real)

  datatype Problem = InvalidNumber | NotStrictlySorted | InvalidRequest | InvalidLevel | InsufficientDepth

  // ---------- accepting a side ----------

  predicate Ordered(a: real, b: real, ascending: bool) {
    if ascending then a < b else a > b
  }

  predicate Proper(x: RawLevel) {
    x.price.Some? && x.size.Some? && x.price.value > 0.0 && x.size.value > 0.0
  }

  predicate AllProper(raw: seq<RawLevel>) {
    forall i :: 0 <= i < |raw| ==> Proper(raw[i])
  }

  /** What the other sweep of the program accepts: a level may be empty. */
  predicate Accepted(x: RawLevel) {
    x.price.Some? && x.size.Some? && x.price.value > 0.0 && x.size.value >= 0.0
  }

  predicate AllAccepted(raw: seq<RawLevel>) {
    forall i :: 0 <= i < |raw| ==> Accepted(raw[i])
  }

  predicate AllNumbers(raw: seq<RawLevel>) {
    forall i :: 0 <= i < |raw| ==> raw[i].price.Some? && raw[i].size.Some?
  }

  function Values(raw: seq<RawLevel>): (levels: seq<Level>)
    requires AllNumbers(raw)
    ensures |levels| == |raw| && forall i :: 0 <= i < |raw| ==> levels[i] == Level(raw[i].price.value, raw[i].size.value)
  {
    seq(|raw|, i requires 0 <= i < |raw| => Level(raw[i].price.value, raw[i].size.value))
  }

  /** Positive sizes at strictly worsening positive prices. */
  predicate Side(levels: seq<Level>, ascending: bool) {
    && (forall i :: 0 <= i < |levels| ==> levels[i].price > 0.0 && levels[i].size > 0.0)
    && (forall i, j :: 0 <= i < j < |levels| ==> Ordered(levels[i].price, levels[j].price, ascending))
  }

  /** Accepts the first levels of a side exactly when they are positive numbers in strict order. */
  method NormalizedSide(raw: seq<RawLevel>, depth: nat, ascending: bool) returns (result: Result<seq<Level>, Problem>)
    ensures var first := if depth < |raw| then raw[..depth] else raw;
            result.Ok? <==> AllProper(first) && Side(Values(first), ascending)
    ensures result.Ok? ==> result.value == Values(if depth < |raw| then raw[..depth] else raw)
  {
    var first := if depth < |raw| then raw[..depth] else raw;
    var levels: seq<Level> := [];
    var previous: Option<real> := None;
    for n := 0 to |first|
      invariant AllProper(first[..n]) && levels == Values(first[..n]) && Side(levels, ascending)
      invariant previous == if n == 0 then None else Some(levels[n - 1].price)
    {
      var level := first[n];
      assert first[..n + 1] == first[..n] + [level];
      if !Proper(level) {
        return Err(InvalidNumber);
      }
      if previous.Some? && !Ordered(previous.value, level.price.value, ascending) {
        assert AllProper(first) ==> !Side(Values(first), ascending) by {
          assert AllProper(first) ==> Values(first)[n - 1].price == previous.value && Values(first)[n].price == level.price.value;
        }
        return Err(NotStrictlySorted);
      }
      previous := level.price;
      levels := levels + [Level(level.price.value, level.size.value)];
    }
    assert first[..|first|] == first;
    result := Ok(levels);
  }

  // ---------- what a sweep takes ----------

  function Min(a: real, b: real): real {
    if a < b then a else b
  }

  function Clamp(q: real, size: real): real {
    if q <= 0.0 then 0.0 else Min(q, size)
  }

  /** What is taken from each level to fill `q`, best price first. */
  function Takes(levels: seq<Level>, q: real): (x: seq<real>)
    ensures |x| == |levels|
  {
    if |levels| == 0 then [] else var t := Clamp(q, levels[0].size); [t] + Takes(levels[1..], q - t)
  }

  function Sum(x: seq<real>): real {
    if |x| == 0 then 0.0 else x[0] + Sum(x[1..])
  }

  /** The value of an amount at a price. */
  function Value(price: real, amount: real): real {
    price * amount
  }

  /** What the amounts cost, or bring in. */
  function Cost(levels: seq<Level>, x: seq<real>): real
    requires |x| == |levels|
  {
    if |x| == 0 then 0.0 else Value(levels[0].price, x[0]) + Cost(levels[1..], x[1..])
  }

  function Sizes(levels: seq<Level>): (x: seq<real>)
    ensures |x| == |levels| && forall i :: 0 <= i < |x| ==> x[i] == levels[i].size
  {
    seq(|levels|, i requires 0 <= i < |levels| => levels[i].size)
  }

  function Depth(levels: seq<Level>): real {
    Sum(Sizes(levels))
  }

  /** The price of the last level anything is taken from. */
  function Worst(levels: seq<Level>, q: real): Option<real> {
    if |levels| == 0 then None
    else
      var t := Clamp(q, levels[0].size);
      var rest := Worst(levels[1..], q - t);
      if rest.Some? then rest else if t > 0.0 then Some(levels[0].price) else None
  }

  /** A feasible way to trade: within each level's size. */
  predicate Feasible(levels: seq<Level>, x: seq<real>) {
    |x| == |levels| && forall i :: 0 <= i < |x| ==> 0.0 <= x[i] <= levels[i].size
  }

  predicate Sized(levels: seq<Level>) {
    forall i :: 0 <= i < |levels| ==> levels[i].size >= 0.0
  }

  lemma {:induction false} TakesFeasible(levels: seq<Level>, q: real)
    requires Sized(levels)
    ensures Feasible(levels, Takes(levels, q))
    ensures q >= 0.0 ==> Sum(Takes(levels, q)) == Min(q, Depth(levels)) && 0.0 <= Depth(levels)
    ensures q <= 0.0 ==> Sum(Takes(levels, q)) == 0.0
  {
    if |levels| > 0 {
      var t := Clamp(q, levels[0].size);
      TakesFeasible(levels[1..], q - t);
      assert Sizes(levels)[1..] == Sizes(levels[1..]);
      assert Takes(levels, q)[1..] == Takes(levels[1..], q - t);
    }
  }

  lemma {:induction false} NothingLeft(levels: seq<Level>, q: real)
    requires q <= 0.0
    ensures Sum(Takes(levels, q)) == 0.0 && Cost(levels, Takes(levels, q)) == 0.0 && Worst(levels, q).None?
    ensures forall i :: 0 <= i < |levels| ==> Takes(levels, q)[i] == 0.0
  {
    if |levels| > 0 {
      NothingLeft(levels[1..], q);
      assert Takes(levels, q)[1..] == Takes(levels[1..], q);
      assert forall i :: 1 <= i < |levels| ==> Takes(levels, q)[i] == Takes(levels[1..], q)[i - 1];
    }
  }

  // ---------- the best way to trade ----------

  /** Levels before the last one used are used up, and those after it are not touched. */
  lemma {:induction false} TakesShape(levels: seq<Level>, q: real, ascending: bool)
    requires Side(levels, ascending) && Worst(levels, q).Some?
    ensures forall i :: 0 <= i < |levels| && Ordered(levels[i].price, Worst(levels, q).value, ascending) ==> Takes(levels, q)[i] == levels[i].size
    ensures forall i :: 0 <= i < |levels| && Ordered(Worst(levels, q).value, levels[i].price, ascending) ==> Takes(levels, q)[i] == 0.0
    ensures Worst(levels, q).value == levels[0].price || Ordered(levels[0].price, Worst(levels, q).value, ascending)
  {
    var t := Clamp(q, levels[0].size);
    TakesRest(levels, q);
    TakesStep(levels, q);
    if Worst(levels[1..], q - t).Some? {
      LeftOver(levels, q);
      hide Takes, Worst, Clamp;
      TakesShape(levels[1..], q - t, ascending);
    } else {
      hide Takes, Worst, Clamp;
      NothingUsed(levels[1..], q - t);
    }
  }

  lemma TakesRest(levels: seq<Level>, q: real)
    requires |levels| > 0
    ensures var t := Clamp(q, levels[0].size);
            Takes(levels, q)[0] == t && forall i :: 1 <= i < |levels| ==> Takes(levels, q)[i] == Takes(levels[1..], q - t)[i - 1] && levels[i] == levels[1..][i - 1]
  {
  }

  /** If anything is taken beyond the first level, the first level is used up. */
  lemma LeftOver(levels: seq<Level>, q: real)
    requires |levels| > 0 && Worst(levels[1..], q - Clamp(q, levels[0].size)).Some?
    ensures Clamp(q, levels[0].size) == levels[0].size
  {
    var t := Clamp(q, levels[0].size);
    if q - t <= 0.0 {
      NothingLeft(levels[1..], q - t);
    }
  }

  lemma {:induction false} NothingUsed(levels: seq<Level>, q: real)
    requires Sized(levels) && Worst(levels, q).None?
    ensures forall i :: 0 <= i < |levels| ==> Takes(levels, q)[i] == 0.0
    ensures Sum(Takes(levels, q)) == 0.0 && Cost(levels, Takes(levels, q)) == 0.0
  {
    if |levels| > 0 {
      var t := Clamp(q, levels[0].size);
      NothingUsed(levels[1..], q - t);
      assert Takes(levels, q)[1..] == Takes(levels[1..], q - t);
      assert forall i :: 1 <= i < |levels| ==> Takes(levels, q)[i] == Takes(levels[1..], q - t)[i - 1];
    }
  }

  lemma OneStep(p: real, worst: real, x: real, g: real, ascending: bool)
    requires (Ordered(p, worst, ascending) ==> x <= g) && (Ordered(worst, p, ascending) ==> x >= g)
    ensures var d := Value(p, x) - Value(worst, x) - (Value(p, g) - Value(worst, g)); if ascending then d >= 0.0 else d <= 0.0
  {
    Scaled(p - worst, x - g);
    Distribute(p - worst, x, g);
    assert (p - worst) * x == p * x - worst * x && (p - worst) * g == p * g - worst * g;
  }

  /** Measured from one price, moving amount towards better prices and away from worse ones never helps. */
  lemma {:induction false} NoBetter(levels: seq<Level>, g: seq<real>, x: seq<real>, worst: real, ascending: bool)
    requires |levels| == |g| == |x|
    requires forall i :: 0 <= i < |levels| ==> (Ordered(levels[i].price, worst, ascending) ==> x[i] <= g[i]) && (Ordered(worst, levels[i].price, ascending) ==> x[i] >= g[i])
    ensures var d := Cost(levels, x) - Value(worst, Sum(x)) - (Cost(levels, g) - Value(worst, Sum(g)));
            if ascending then d >= 0.0 else d <= 0.0
  {
    hide Value;
    if |levels| > 0 {
      NoBetter(levels[1..], g[1..], x[1..], worst, ascending);
      OneStep(levels[0].price, worst, x[0], g[0], ascending);
      ValueSplit(worst, x[0], Sum(x[1..]));
      ValueSplit(worst, g[0], Sum(g[1..]));
    }
  }

  lemma ValueSplit(price: real, a: real, b: real)
    ensures Value(price, a + b) == Value(price, a) + Value(price, b)
  {
  }

  /** No feasible way to trade the same amount costs less on the ask side, or brings in more on the bid side. */
  lemma SweepIsOptimal(levels: seq<Level>, q: real, x: seq<real>, ascending: bool)
    requires Side(levels, ascending) && Feasible(levels, x) && Sum(x) == Sum(Takes(levels, q))
    ensures if ascending then Cost(levels, Takes(levels, q)) <= Cost(levels, x) else Cost(levels, Takes(levels, q)) >= Cost(levels, x)
  {
    hide Takes, Cost, Sum, Worst, Ordered, Value;
    if Worst(levels, q).Some? {
      SizedSide(levels, ascending);
      TakesShape(levels, q, ascending);
      TakesFeasible(levels, q);
      NoBetter(levels, Takes(levels, q), x, Worst(levels, q).value, ascending);
    } else {
      SizedSide(levels, ascending);
      NothingUsed(levels, q);
      NothingTraded(levels, x);
    }
  }

  lemma SizedSide(levels: seq<Level>, ascending: bool)
    requires Side(levels, ascending)
    ensures Sized(levels)
  {
  }

  lemma {:induction false} NothingTraded(levels: seq<Level>, x: seq<real>)
    requires Feasible(levels, x) && Sum(x) == 0.0
    ensures Cost(levels, x) == 0.0
  {
    if |x| > 0 {
      SumNotNegative(levels[1..], x[1..]);
      NothingTraded(levels[1..], x[1..]);
    }
  }

  lemma {:induction false} SumNotNegative(levels: seq<Level>, x: seq<real>)
    requires Feasible(levels, x)
    ensures Sum(x) >= 0.0
  {
    if |x| > 0 {
      SumNotNegative(levels[1..], x[1..]);
    }
  }

  // ---------- the average price ----------

  /** An amount traded for a total lies between two prices. */
  predicate Lies(cost: real, filled: real, best: real, worst: real, ascending: bool) {
    filled > 0.0 && if ascending then best * filled <= cost <= worst * filled else worst * filled <= cost <= best * filled
  }

  /** The total lies between the best and the worst price used. */
  lemma {:induction false} CostBetween(levels: seq<Level>, q: real, ascending: bool)
    requires Side(levels, ascending) && Worst(levels, q).Some?
    ensures Lies(Cost(levels, Takes(levels, q)), Sum(Takes(levels, q)), levels[0].price, Worst(levels, q).value, ascending)
  {
    var t := Clamp(q, levels[0].size);
    TakesStep(levels, q);
    SideRest(levels, ascending);
    hide Takes, Cost, Sum, Worst, Side, Clamp, Ordered, Lies, Value;
    if Worst(levels[1..], q - t).Some? {
      CostBetween(levels[1..], q - t, ascending);
      TakesShape(levels[1..], q - t, ascending);
      var rest := Takes(levels[1..], q - t);
      Between(levels[0].price, t, levels[1].price, Worst(levels[1..], q - t).value, Sum(rest), Cost(levels[1..], rest), ascending);
    } else {
      SizedSide(levels[1..], ascending);
      NothingUsed(levels[1..], q - t);
      LiesAlone(levels[0].price, t, ascending);
    }
  }

  lemma SideRest(levels: seq<Level>, ascending: bool)
    requires Side(levels, ascending) && |levels| > 0
    ensures Side(levels[1..], ascending) && levels[0].price > 0.0 && levels[0].size > 0.0
    ensures |levels| > 1 ==> Ordered(levels[0].price, levels[1].price, ascending) && levels[1..][0] == levels[1]
  {
  }

  /** The first level of a sweep, and the sweep of the rest. */
  lemma TakesStep(levels: seq<Level>, q: real)
    requires |levels| > 0
    ensures var t, rest := Clamp(q, levels[0].size), Takes(levels[1..], q - Clamp(q, levels[0].size));
            && Sum(Takes(levels, q)) == t + Sum(rest)
            && Cost(levels, Takes(levels, q)) == Value(levels[0].price, t) + Cost(levels[1..], rest)
            && Worst(levels, q) == (if Worst(levels[1..], q - t).Some? then Worst(levels[1..], q - t) else if t > 0.0 then Some(levels[0].price) else None)
    ensures levels[0].size >= 0.0 ==> Clamp(q, levels[0].size) >= 0.0
    ensures levels[0].size > 0.0 && q > 0.0 ==> Clamp(q, levels[0].size) > 0.0
    ensures q <= 0.0 ==> Worst(levels, q).None?
    ensures Worst(levels[1..], q - Clamp(q, levels[0].size)).Some? ==> |levels| > 1
  {
    var t := Clamp(q, levels[0].size);
    assert Takes(levels, q)[1..] == Takes(levels[1..], q - t);
    if q <= 0.0 {
      NothingLeft(levels, q);
    }
  }

  lemma LiesAlone(p: real, t: real, ascending: bool)
    requires t > 0.0
    ensures Lies(Value(p, t) + 0.0, t + 0.0, p, p, ascending)
  {
  }

  lemma Between(p: real, t: real, b: real, w: real, f: real, c: real, ascending: bool)
    requires t >= 0.0 && Ordered(p, b, ascending) && (w == b || Ordered(b, w, ascending)) && Lies(c, f, b, w, ascending)
    ensures Lies(Value(p, t) + c, t + f, p, w, ascending)
  {
    Distribute(p, t, f);
    Distribute(w, t, f);
    if ascending {
      TimesOrdered(p, b, f);
      TimesOrdered(p, w, t);
    } else {
      TimesOrdered(b, p, f);
      TimesOrdered(w, p, t);
    }
  }

  /** The average price of a sweep; none when nothing is filled. */
  function Vwap(levels: seq<Level>, q: real): Option<real> {
    var filled := Sum(Takes(levels, q));
    if filled > 0.0 then Some(Cost(levels, Takes(levels, q)) / filled) else None
  }

  lemma WorstFilled(levels: seq<Level>, q: real)
    requires Sized(levels)
    ensures Worst(levels, q).Some? <==> Sum(Takes(levels, q)) > 0.0
    ensures Worst(levels, q).Some? ==> |levels| > 0
  {
    if Worst(levels, q).None? {
      NothingUsed(levels, q);
    } else {
      UsedIsFilled(levels, q);
    }
  }

  lemma {:induction false} UsedIsFilled(levels: seq<Level>, q: real)
    requires Sized(levels) && Worst(levels, q).Some?
    ensures Sum(Takes(levels, q)) > 0.0
  {
    var t := Clamp(q, levels[0].size);
    assert Takes(levels, q)[1..] == Takes(levels[1..], q - t);
    if Worst(levels[1..], q - t).Some? {
      UsedIsFilled(levels[1..], q - t);
    } else {
      NothingUsed(levels[1..], q - t);
    }
  }

  /** The average price lies between the best price and the worst price used. */
  lemma VwapBetween(levels: seq<Level>, q: real, ascending: bool)
    requires Side(levels, ascending) && Vwap(levels, q).Some?
    ensures Worst(levels, q).Some?
    ensures var v, best, worst := Vwap(levels, q).value, levels[0].price, Worst(levels, q).value;
            if ascending then best <= v <= worst else worst <= v <= best
  {
    hide Takes, Cost, Sum, Worst, Side;
    SizedSide(levels, ascending);
    WorstFilled(levels, q);
    CostBetween(levels, q, ascending);
    var filled, cost := Sum(Takes(levels, q)), Cost(levels, Takes(levels, q));
    Quotient(cost, filled, levels[0].price);
    Quotient(cost, filled, Worst(levels, q).value);
  }

  /** A larger sweep takes at least as much from every level. */
  lemma {:induction false} TakesGrow(levels: seq<Level>, q: real, r: real)
    requires Sized(levels) && q <= r
    ensures forall i :: 0 <= i < |levels| ==> Takes(levels, q)[i] <= Takes(levels, r)[i]
  {
    if |levels| > 0 {
      var t, u := Clamp(q, levels[0].size), Clamp(r, levels[0].size);
      TakesGrow(levels[1..], q - t, r - u);
      assert forall i :: 1 <= i < |levels| ==> Takes(levels, q)[i] == Takes(levels[1..], q - t)[i - 1] && Takes(levels, r)[i] == Takes(levels[1..], r - u)[i - 1];
    }
  }

  /** What a larger sweep adds, it adds at the worst price of the smaller one or beyond. */
  lemma AddedBeyond(levels: seq<Level>, q: real, r: real, ascending: bool)
    requires Side(levels, ascending) && q <= r && Worst(levels, q).Some?
    ensures var w := Worst(levels, q).value;
            var added := Sum(Takes(levels, r)) - Sum(Takes(levels, q));
            var more := Cost(levels, Takes(levels, r)) - Cost(levels, Takes(levels, q));
            && added >= 0.0
            && if ascending then more >= w * added else more <= w * added
  {
    hide Takes, Cost, Sum, Worst, Ordered;
    SizedSide(levels, ascending);
    TakesShape(levels, q, ascending);
    TakesGrow(levels, q, r);
    TakesFeasible(levels, r);
    var w, g, x := Worst(levels, q).value, Takes(levels, q), Takes(levels, r);
    NoBetter(levels, g, x, w, ascending);
    SumGrows(g, x);
    Distribute(w, Sum(x), Sum(g));
  }

  lemma {:induction false} SumGrows(x: seq<real>, y: seq<real>)
    requires |x| == |y| && forall i :: 0 <= i < |x| ==> x[i] <= y[i]
    ensures Sum(x) <= Sum(y)
  {
    if |x| > 0 {
      SumGrows(x[1..], y[1..]);
    }
  }

  /** The average price only worsens as the requested size grows. */
  lemma VwapWorsens(levels: seq<Level>, q: real, r: real, ascending: bool)
    requires Side(levels, ascending) && q <= r && Vwap(levels, q).Some?
    ensures Vwap(levels, r).Some?
    ensures if ascending then Vwap(levels, q).value <= Vwap(levels, r).value else Vwap(levels, q).value >= Vwap(levels, r).value
  {
    hide Takes, Cost, Sum, Worst, Side, Ordered;
    SizedSide(levels, ascending);
    WorstFilled(levels, q);
    AddedBeyond(levels, q, r, ascending);
    CostBetween(levels, q, ascending);
    RatioWorsens(Cost(levels, Takes(levels, q)), Sum(Takes(levels, q)), Cost(levels, Takes(levels, r)), Sum(Takes(levels, r)), Worst(levels, q).value, ascending);
  }

  lemma RatioWorsens(c: real, f: real, d: real, g: real, w: real, ascending: bool)
    requires 0.0 < f <= g
    requires if ascending then c <= w * f && d - c >= w * (g - f) else c >= w * f && d - c <= w * (g - f)
    ensures if ascending then c / f <= d / g else c / f >= d / g
  {
    var v := c / f;
    Divided(c, f);
    Quotient(c, f, w);
    Distribute(v, g, f);
    if ascending {
      TimesOrdered(v, w, g - f);
    } else {
      TimesOrdered(w, v, g - f);
    }
    Quotient(d, g, v);
  }

  // ---------- the sweep itself ----------

  datatype Analysis = Analysis(available: real, filled: real, complete: bool, vwap: Option<real>, worst: Option<real>, impact: Option<real>)

  function Impact(vwap: real, mid: real, buy: bool): real
    requires mid > 0.0
  {
    (if buy then (vwap - mid) / mid else (mid - vwap) / mid) * 10000.0
  }

  /** Sweeps the levels once; the average, the worst price and the amount filled are those of the best way to trade. */
  method Sweep(levels: seq<Level>, requested: real, mid: real, buy: bool) returns (a: Analysis)
    requires Side(levels, buy) && mid > 0.0
    ensures a.available == Depth(levels)
    ensures requested >= 0.0 ==> a.filled == Min(requested, Depth(levels))
    ensures a.filled == Sum(Takes(levels, requested)) && a.vwap == Vwap(levels, requested) && a.worst == Worst(levels, requested)
    ensures a.complete <==> requested <= Depth(levels)
    ensures a.impact == if a.vwap.Some? then Some(Impact(a.vwap.value, mid, buy)) else None
    ensures a.vwap.Some? <==> requested > 0.0 && |levels| > 0
  {
    hide Takes, Cost, Sum, Worst, Side, Depth, Impact, Ahead, Value;
    SizedSide(levels, buy);
    TakesFeasible(levels, requested);
    DepthPositive(levels, buy);
    var available := 0.0;
    NoDepth();
    for n := 0 to |levels|
      invariant available + Depth(levels[n..]) == Depth(levels)
    {
      DepthStep(levels[n..]);
      assert levels[n..][1..] == levels[n + 1..];
      available := available + levels[n].size;
    }
    var remaining, filled, weighted := requested, 0.0, 0.0;
    AheadStarts(levels, requested);
    var worst: Option<real> := None;
    var n := 0;
    while n < |levels|
      invariant n <= |levels| && remaining == requested - filled && filled >= 0.0
      invariant Ahead(levels, n, requested, filled, weighted)
      invariant (if Worst(levels[n..], remaining).Some? then Worst(levels[n..], remaining) else worst) == Worst(levels, requested)
    {
      if remaining <= 0.0 {
        break;
      }
      var take := Min(remaining, levels[n].size);
      LevelSize(levels, buy, n);
      AheadStep(levels, n, requested, filled, weighted, take);
      TakesStep(levels[n..], remaining);
      assert levels[n..][1..] == levels[n + 1..];
      filled := filled + take;
      weighted := weighted + Value(levels[n].price, take);
      remaining := remaining - take;
      worst := Some(levels[n].price);
      n := n + 1;
    }
    AheadEnds(levels, n, requested, filled, weighted);
    SweepEnds(levels[n..], remaining);
    var vwap := if filled > 0.0 then Some(weighted / filled) else None;
    var impact := if vwap.Some? then Some(Impact(vwap.value, mid, buy)) else None;
    a := Analysis(available, filled, filled >= requested, vwap, worst, impact);
  }

  lemma NoDepth()
    ensures Depth([]) == 0.0
  {
  }

  lemma DepthStep(levels: seq<Level>)
    requires |levels| > 0
    ensures Depth(levels) == levels[0].size + Depth(levels[1..])
  {
    assert Sizes(levels)[1..] == Sizes(levels[1..]);
  }

  lemma LevelSize(levels: seq<Level>, ascending: bool, n: nat)
    requires Side(levels, ascending) && n < |levels|
    ensures levels[n].size > 0.0
  {
  }

  lemma SweepEnds(rest: seq<Level>, q: real)
    requires |rest| == 0 || q <= 0.0
    ensures Sum(Takes(rest, q)) == 0.0 && Cost(rest, Takes(rest, q)) == 0.0 && Worst(rest, q).None?
  {
    if q <= 0.0 {
      NothingLeft(rest, q);
    }
  }

  lemma DepthPositive(levels: seq<Level>, ascending: bool)
    requires Side(levels, ascending)
    ensures Depth(levels) >= 0.0 && (|levels| > 0 ==> Depth(levels) > 0.0)
  {
    TakesFeasible(levels, 0.0);
    if |levels| > 0 {
      assert Sizes(levels)[1..] == Sizes(levels[1..]);
      TakesFeasible(levels[1..], 0.0);
    }
  }

  /** The first `m` levels are accepted and hold what is requested. */
  predicate Fills(raw: seq<RawLevel>, m: nat, requested: real) {
    m <= |raw| && AllAccepted(raw[..m]) && requested <= Depth(Values(raw[..m]))
  }

  /** The other sweep of the program, over a side not yet checked: it stops at the first level that fills the request, and whatever
      stands behind that level does not matter. */
  method BookSweepVwap(raw: seq<RawLevel>, requested: real) returns (result: Result<real, Problem>)
    ensures requested <= 0.0 ==> result == Err(InvalidRequest)
    ensures requested > 0.0 ==> (result.Ok? <==> exists m: nat :: Fills(raw, m, requested))
    ensures requested > 0.0 ==> forall m: nat :: Fills(raw, m, requested) ==> result == Ok(Vwap(Values(raw[..m]), requested).GetOr(0.0))
    ensures result == Err(InsufficientDepth) ==> AllAccepted(raw)
    ensures requested > 0.0 && AllAccepted(raw) ==> result.Ok? || result == Err(InsufficientDepth)
    ensures result.Ok? ==> result.value > 0.0
  {
    hide Takes, Cost, Sum, Depth, Vwap, Value, Swept, Fills;
    if requested <= 0.0 {
      return Err(InvalidRequest);
    }
    var filled, cost := 0.0, 0.0;
    SweptNothing(raw, requested);
    for n := 0 to |raw|
      invariant 0.0 <= filled < requested && (filled > 0.0 ==> cost > 0.0) && cost >= 0.0
      invariant AllAccepted(raw[..n]) && Swept(raw, n, requested, filled, cost)
    {
      NotYet(raw, n, requested, filled, cost);
      assert raw[..n + 1] == raw[..n] + [raw[n]];
      if raw[n].price.None? || raw[n].size.None? {
        return Err(InvalidNumber);
      }
      var price, size := raw[n].price.value, raw[n].size.value;
      if price <= 0.0 || size < 0.0 {
        return Err(InvalidLevel);
      }
      var take := Min(requested - filled, size);
      SweptNext(raw, n, requested, filled, cost, take);
      Paid(price, take);
      filled := filled + take;
      cost := cost + Value(price, take);
      if filled >= requested {
        PositiveShare(cost, filled);
        Stops(raw, n + 1, requested, filled, cost);
        return Ok(cost / filled);
      }
    }
    assert raw[..|raw|] == raw;
    NotYet(raw, |raw|, requested, filled, cost);
    result := Err(InsufficientDepth);
  }

  /** What has been filled and paid is what the sweep of the first `n` levels takes and costs. */
  ghost predicate Swept(raw: seq<RawLevel>, n: nat, requested: real, filled: real, cost: real) {
    && n <= |raw| && AllAccepted(raw[..n])
    && var levels := Values(raw[..n]);
       filled == Sum(Takes(levels, requested)) && cost == Cost(levels, Takes(levels, requested))
  }

  lemma SweptNothing(raw: seq<RawLevel>, requested: real)
    ensures Swept(raw, 0, requested, 0.0, 0.0)
  {
  }

  lemma SweptNext(raw: seq<RawLevel>, n: nat, requested: real, filled: real, cost: real, take: real)
    requires n < |raw| && Swept(raw, n, requested, filled, cost) && filled < requested && Accepted(raw[n])
    requires take == Min(requested - filled, raw[n].size.value)
    ensures Swept(raw, n + 1, requested, filled + take, cost + Value(raw[n].price.value, take))
  {
    hide Takes, Cost, Sum, Value;
    assert raw[..n + 1] == raw[..n] + [raw[n]];
    var last := Level(raw[n].price.value, raw[n].size.value);
    assert Values(raw[..n + 1]) == Values(raw[..n]) + [last];
    TakesMore(Values(raw[..n]), last, requested);
  }

  /** One level more takes what the levels before it have left. */
  lemma {:induction false} TakesMore(levels: seq<Level>, last: Level, q: real)
    ensures var more, taken := levels + [last], Clamp(q - Sum(Takes(levels, q)), last.size);
            && Sum(Takes(more, q)) == Sum(Takes(levels, q)) + taken
            && Cost(more, Takes(more, q)) == Cost(levels, Takes(levels, q)) + Value(last.price, taken)
  {
    hide Value;
    var more := levels + [last];
    if |levels| > 0 {
      hide Takes, Sum, Cost;
      assert more[1..] == levels[1..] + [last];
      TakesStep(levels, q);
      TakesStep(more, q);
      TakesMore(levels[1..], last, q - Clamp(q, levels[0].size));
    } else {
      TakesStep(more, q);
      assert more[1..] == [];
    }
  }

  lemma {:induction false} DepthMore(levels: seq<Level>, last: Level)
    ensures Depth(levels + [last]) == Depth(levels) + last.size
  {
    var more := levels + [last];
    DepthStep(more);
    if |levels| > 0 {
      hide Depth;
      DepthStep(levels);
      assert more[1..] == levels[1..] + [last];
      DepthMore(levels[1..], last);
    } else {
      assert more[1..] == [];
    }
  }

  /** A longer accepted prefix is no less deep, and once the request is filled it takes and costs no more. */
  lemma {:induction false} PrefixGrows(raw: seq<RawLevel>, m: nat, n: nat, requested: real)
    requires m <= n <= |raw| && AllAccepted(raw[..n])
    ensures AllAccepted(raw[..m]) && Depth(Values(raw[..m])) <= Depth(Values(raw[..n]))
    ensures 0.0 < requested <= Depth(Values(raw[..m])) ==> Vwap(Values(raw[..n]), requested) == Vwap(Values(raw[..m]), requested)
    decreases n
  {
    hide Takes, Cost, Sum, Depth, Value;
    if m < n {
      assert raw[..n - 1] == raw[..n][..n - 1];
      PrefixGrows(raw, m, n - 1, requested);
      var levels, last := Values(raw[..n - 1]), Level(raw[n - 1].price.value, raw[n - 1].size.value);
      assert Accepted(raw[..n][n - 1]);
      assert Values(raw[..n]) == levels + [last];
      DepthMore(levels, last);
      if 0.0 < requested <= Depth(Values(raw[..m])) {
        TakesFeasible(levels, requested);
        TakesMore(levels, last, requested);
        FreeOfCharge(last.price);
      }
    }
  }

  lemma FreeOfCharge(price: real)
    ensures Value(price, 0.0) == 0.0
  {
  }

  /** As long as less than the request is filled, no prefix up to here fills it. */
  lemma NotYet(raw: seq<RawLevel>, n: nat, requested: real, filled: real, cost: real)
    requires requested > 0.0 && filled < requested && Swept(raw, n, requested, filled, cost)
    ensures forall m: nat :: m <= n ==> !Fills(raw, m, requested)
    ensures n == |raw| || !Accepted(raw[n]) ==> forall m: nat :: !Fills(raw, m, requested)
  {
    hide Takes, Cost, Sum, Depth, Vwap;
    TakesFeasible(Values(raw[..n]), requested);
    forall m: nat | m <= n ensures !Fills(raw, m, requested) {
      PrefixGrows(raw, m, n, requested);
    }
    if n < |raw| && !Accepted(raw[n]) {
      forall m: nat | n < m <= |raw| ensures !Fills(raw, m, requested) {
        assert raw[..m][n] == raw[n];
      }
    }
  }

  /** Where the request is filled for the first time the average is that of any longer accepted prefix. */
  lemma Stops(raw: seq<RawLevel>, n: nat, requested: real, filled: real, cost: real)
    requires requested > 0.0 && filled >= requested && Swept(raw, n, requested, filled, cost)
    requires forall m: nat :: m < n ==> !Fills(raw, m, requested)
    ensures Fills(raw, n, requested)
    ensures forall m: nat :: Fills(raw, m, requested) ==> Vwap(Values(raw[..m]), requested) == Some(cost / filled)
  {
    hide Takes, Cost, Sum, Depth;
    TakesFeasible(Values(raw[..n]), requested);
    forall m: nat | Fills(raw, m, requested) ensures Vwap(Values(raw[..m]), requested) == Some(cost / filled) {
      PrefixGrows(raw, n, m, requested);
    }
  }

  /** What has been filled and paid after `n` levels, with what the rest will add, is what the sweep takes and costs. */
  ghost predicate Ahead(levels: seq<Level>, n: nat, requested: real, filled: real, cost: real) {
    && n <= |levels|
    && filled + Sum(Takes(levels[n..], requested - filled)) == Sum(Takes(levels, requested))
    && cost + Cost(levels[n..], Takes(levels[n..], requested - filled)) == Cost(levels, Takes(levels, requested))
  }

  lemma AheadStarts(levels: seq<Level>, requested: real)
    ensures Ahead(levels, 0, requested, 0.0, 0.0)
  {
    hide Takes, Cost, Sum;
    assert levels[0..] == levels;
  }

  lemma AheadStep(levels: seq<Level>, n: nat, requested: real, filled: real, cost: real, take: real)
    requires Ahead(levels, n, requested, filled, cost) && n < |levels| && filled < requested && levels[n].size >= 0.0
    requires take == Min(requested - filled, levels[n].size)
    ensures Ahead(levels, n + 1, requested, filled + take, cost + Value(levels[n].price, take))
  {
    hide Takes, Cost, Sum, Value;
    TakesStep(levels[n..], requested - filled);
    assert levels[n..][1..] == levels[n + 1..];
  }

  lemma AheadEnds(levels: seq<Level>, n: nat, requested: real, filled: real, cost: real)
    requires Ahead(levels, n, requested, filled, cost) && (n == |levels| || filled >= requested)
    ensures filled == Sum(Takes(levels, requested)) && cost == Cost(levels, Takes(levels, requested))
  {
    hide Takes, Cost, Sum;
    SweepEnds(levels[n..], requested - filled);
  }

  lemma PositiveShare(a: real, b: real)
    requires a > 0.0 && b > 0.0
    ensures a / b > 0.0
  {
  }

  lemma Paid(a: real, b: real)
    requires a > 0.0 && b >= 0.0
    ensures Value(a, b) >= 0.0 && (b > 0.0 ==> Value(a, b) > 0.0)
  {
  }
}
