/** Sizing an order under a notional and a loss cap, with lots and ticks rounded and fees on both sides, in exact arithmetic. */
module Sizing {
  import opened Exact
  import opened Options

  datatype Direction = Long | Short

  /** The contract and the two fee rates, in the exchange's sign: a rate below zero is a fee. */
  datatype Mechanics = Mechanics(value: real, lot: real, minimum: real, tick: real, entryRate: real, exitRate: real)

  datatype Assumptions = Assumptions(direction: Direction, entry: real, stop: real, maxNotional: real, maxLoss: real, reward: real)

  datatype Problem =
    | NotPositive | NotTickAligned | StopDirection | StopDoesNotLose | BelowMinimum | FeeRate | TargetPrice | TargetDirection | TargetDoesNotProfit

  datatype Constraint = ByNotional | ByRisk | ByBoth

  datatype Candidate = Candidate(
    constraint: Constraint, contracts: real, target: real, notional: real, stopLoss: real, targetNet: real, ratio: real)

  // ---------- rounding ----------

  function FloorTo(value: real, increment: real): real
    requires increment > 0.0
  {
    Times((value / increment).Floor as real, increment)
  }

  function Ceil(x: real): int {
    0 - (0.0 - x).Floor
  }

  function CeilTo(value: real, increment: real): real
    requires increment > 0.0
  {
    Times(Ceil(value / increment) as real, increment)
  }

  predicate Aligned(value: real, increment: real)
    requires increment > 0.0
  {
    FloorTo(value, increment) == value
  }

  lemma WholeMultiple(n: int, increment: real)
    requires increment > 0.0
    ensures Aligned(Times(n as real, increment), increment)
  {
    var v := Times(n as real, increment);
    Quotient(v, increment, n as real);
    assert v / increment == n as real;
  }

  lemma FloorFacts(value: real, increment: real)
    requires increment > 0.0
    ensures FloorTo(value, increment) <= value < FloorTo(value, increment) + increment
    ensures Aligned(FloorTo(value, increment), increment)
  {
    var x := value / increment;
    QuotientTimes(value, increment);
    WholeMultiple(x.Floor, increment);
    hide Times, Aligned;
    TimesGrows(x.Floor as real, x, increment);
    TimesGrows(x, x.Floor as real + 1.0, increment);
    TimesLaws(increment, x.Floor as real, 1.0);
    TimesLaws(x.Floor as real, increment, 0.0);
    TimesLaws(x.Floor as real + 1.0, increment, 0.0);
  }

  lemma CeilFacts(value: real, increment: real)
    requires increment > 0.0
    ensures CeilTo(value, increment) - increment < value <= CeilTo(value, increment)
    ensures Aligned(CeilTo(value, increment), increment)
  {
    var x := value / increment;
    var n := Ceil(x);
    QuotientTimes(value, increment);
    WholeMultiple(n, increment);
    hide Times, Aligned;
    TimesGrows(x, n as real, increment);
    TimesGrows(n as real - 1.0, x, increment);
    TimesLaws(increment, n as real, 1.0);
    TimesLaws(n as real, increment, 0.0);
    TimesLaws(n as real - 1.0, increment, 0.0);
  }

  // ---------- profit and loss ----------

  function Cost(notional: real, rate: real): real {
    0.0 - Times(notional, rate)
  }

  function Gross(direction: Direction, base: real, entry: real, exit: real): real {
    if direction.Long? then Times(base, exit - entry) else Times(base, entry - exit)
  }

  /** Profit of one base amount bought at the entry and sold at the exit, or the other way round, both fees paid. */
  function Net(direction: Direction, base: real, entry: real, exit: real, entryRate: real, exitRate: real): real {
    Gross(direction, base, entry, exit) - Cost(Times(base, entry), entryRate) - Cost(Times(base, exit), exitRate)
  }

  /** What one unit of base earns per unit of exit price. */
  function Slope(direction: Direction, exitRate: real): real {
    if direction.Long? then 1.0 + exitRate else 1.0 - exitRate
  }

  /** The entry price with the entry fee, on the side of the break-even. */
  function Fair(direction: Direction, entry: real, entryRate: real): real {
    if direction.Long? then Times(entry, 1.0 - entryRate) else Times(entry, 1.0 + entryRate)
  }

  /** The net result per unit of base as a line in the exit price. */
  function Line(direction: Direction, entry: real, exit: real, entryRate: real, exitRate: real): real {
    if direction.Long? then Times(exit, Slope(direction, exitRate)) - Fair(direction, entry, entryRate)
    else Fair(direction, entry, entryRate) - Times(exit, Slope(direction, exitRate))
  }

  lemma NetIsLine(direction: Direction, base: real, entry: real, exit: real, entryRate: real, exitRate: real)
    ensures Net(direction, base, entry, exit, entryRate, exitRate) == Times(base, Line(direction, entry, exit, entryRate, exitRate))
  {
    hide Times;
    TimesLaws(base, entry, entryRate);
    TimesLaws(base, exit, exitRate);
    TimesLaws(entry, 1.0, entryRate);
    TimesLaws(exit, 1.0, exitRate);
    TimesLaws(base, exit, entry);
    TimesLaws(base, entry, exit);
    var paidEntry, paidExit := Times(entry, entryRate), Times(exit, exitRate);
    TimesLaws(base, paidEntry, paidExit);
    TimesLaws(base, exit - entry, paidEntry + paidExit);
    TimesLaws(base, entry - exit, paidEntry + paidExit);
  }

  /** Net results scale with the amount. */
  lemma NetScales(direction: Direction, n: real, value: real, entry: real, exit: real, entryRate: real, exitRate: real)
    ensures Net(direction, Times(n, value), entry, exit, entryRate, exitRate) == Times(n, Net(direction, value, entry, exit, entryRate, exitRate))
  {
    hide Net, Line, Times;
    NetIsLine(direction, Times(n, value), entry, exit, entryRate, exitRate);
    NetIsLine(direction, value, entry, exit, entryRate, exitRate);
    TimesLaws(n, value, Line(direction, entry, exit, entryRate, exitRate));
  }

  /** The exit price that nets a given amount per contract. */
  function PriceFor(direction: Direction, value: real, entry: real, entryRate: real, exitRate: real, net: real): Result<real, Problem>
    requires value > 0.0
  {
    var slope := Slope(direction, exitRate);
    if slope <= 0.0 then Err(FeeRate)
    else
      var target := (if direction.Long? then net / value + Fair(direction, entry, entryRate) else Fair(direction, entry, entryRate) - net / value) / slope;
      if target <= 0.0 then Err(TargetPrice) else Ok(target)
  }

  /** That price nets exactly the amount. */
  lemma PriceIsExact(direction: Direction, value: real, entry: real, entryRate: real, exitRate: real, net: real)
    requires value > 0.0 && PriceFor(direction, value, entry, entryRate, exitRate, net).Ok?
    ensures Slope(direction, exitRate) > 0.0
    ensures Net(direction, value, entry, PriceFor(direction, value, entry, entryRate, exitRate, net).value, entryRate, exitRate) == net
  {
    hide Net, Fair, Times;
    var x := PriceFor(direction, value, entry, entryRate, exitRate, net).value;
    var b, slope := Fair(direction, entry, entryRate), Slope(direction, exitRate);
    NetIsLine(direction, value, entry, x, entryRate, exitRate);
    QuotientTimes(if direction.Long? then net / value + b else b - net / value, slope);
    QuotientTimes(net, value);
  }

  /** An exit at least as favourable nets at least as much; a strictly less favourable one nets less. */
  lemma BetterExit(direction: Direction, value: real, entry: real, x: real, y: real, entryRate: real, exitRate: real)
    requires value > 0.0 && Slope(direction, exitRate) > 0.0
    ensures (if direction.Long? then y >= x else y <= x) ==> Net(direction, value, entry, y, entryRate, exitRate) >= Net(direction, value, entry, x, entryRate, exitRate)
    ensures (if direction.Long? then y < x else y > x) ==> Net(direction, value, entry, y, entryRate, exitRate) < Net(direction, value, entry, x, entryRate, exitRate)
  {
    hide Net, Fair, Slope, Times;
    var slope := Slope(direction, exitRate);
    var l, m := Line(direction, entry, x, entryRate, exitRate), Line(direction, entry, y, entryRate, exitRate);
    NetIsLine(direction, value, entry, x, entryRate, exitRate);
    NetIsLine(direction, value, entry, y, entryRate, exitRate);
    TimesGrows(x, y, slope);
    TimesGrows(y, x, slope);
    TimesGrows(l, m, value);
    TimesGrows(m, l, value);
    TimesLaws(value, l, m);
    TimesLaws(value, m, l);
  }

  // ---------- the candidate ----------

  predicate StopIsBeyond(a: Assumptions) {
    if a.direction.Long? then a.stop < a.entry else a.stop > a.entry
  }

  function NetAt(m: Mechanics, a: Assumptions, contracts: real, exit: real): real {
    Net(a.direction, Times(contracts, m.value), a.entry, exit, m.entryRate, m.exitRate)
  }

  /** The loss of one contract at its stop. */
  function StopLoss(m: Mechanics, a: Assumptions): real {
    0.0 - Net(a.direction, m.value, a.entry, a.stop, m.entryRate, m.exitRate)
  }

  /** What the target is to earn per contract. */
  function Wanted(m: Mechanics, a: Assumptions): real {
    Times(StopLoss(m, a), a.reward)
  }

  function Raw(m: Mechanics, a: Assumptions): Result<real, Problem>
    requires m.value > 0.0
  {
    PriceFor(a.direction, m.value, a.entry, m.entryRate, m.exitRate, Wanted(m, a))
  }

  function Rounded(direction: Direction, tick: real, raw: real): real
    requires tick > 0.0
  {
    if direction.Long? then CeilTo(raw, tick) else FloorTo(raw, tick)
  }

  /** A tick towards the entry, on the losing side of a target. */
  function Closer(direction: Direction, tick: real, target: real): real {
    if direction.Long? then target - tick else target + tick
  }

  predicate InOrder(m: Mechanics, a: Assumptions) {
    && m.value > 0.0 && m.lot > 0.0 && m.minimum > 0.0 && m.tick > 0.0
    && a.entry > 0.0 && a.stop > 0.0 && a.maxNotional > 0.0 && a.maxLoss > 0.0 && a.reward > 0.0
  }

  function Size(m: Mechanics, a: Assumptions): (Constraint, real)
    requires InOrder(m, a) && StopLoss(m, a) > 0.0
  {
    TimesGrows(m.value, m.value, a.entry);
    var byNotional, byRisk := a.maxNotional / Times(m.value, a.entry), a.maxLoss / StopLoss(m, a);
    if byNotional < byRisk then (ByNotional, FloorTo(byNotional, m.lot))
    else if byRisk < byNotional then (ByRisk, FloorTo(byRisk, m.lot))
    else (ByBoth, FloorTo(byNotional, m.lot))
  }

  function Analyze(m: Mechanics, a: Assumptions): Result<Candidate, Problem> {
    if !InOrder(m, a) then Err(NotPositive)
    else if !Aligned(a.entry, m.tick) || !Aligned(a.stop, m.tick) then Err(NotTickAligned)
    else if !StopIsBeyond(a) then Err(StopDirection)
    else if StopLoss(m, a) <= 0.0 then Err(StopDoesNotLose)
    else if Size(m, a).1 < m.minimum then Err(BelowMinimum)
    else if Raw(m, a).Err? then Err(Raw(m, a).error)
    else Finish(m, a, Size(m, a), Rounded(a.direction, m.tick, Raw(m, a).value))
  }

  function Finish(m: Mechanics, a: Assumptions, size: (Constraint, real), target: real): Result<Candidate, Problem> {
    var stopNet, targetNet := NetAt(m, a, size.1, a.stop), NetAt(m, a, size.1, target);
    if target <= 0.0 then Err(TargetPrice)
    else if !(if a.direction.Long? then target > a.entry else target < a.entry) then Err(TargetDirection)
    else if stopNet >= 0.0 then Err(StopDoesNotLose)
    else if targetNet <= 0.0 then Err(TargetDoesNotProfit)
    else Ok(Candidate(size.0, size.1, target, Times(Times(size.1, m.value), a.entry), 0.0 - stopNet, targetNet, targetNet / (0.0 - stopNet)))
  }

  // ---------- what a candidate guarantees ----------

  /** A size fits both caps, and one lot more breaks the cap that constrains it. */
  ghost predicate FitsCaps(m: Mechanics, a: Assumptions, constraint: Constraint, n: real) {
    && Times(Times(n, m.value), a.entry) <= a.maxNotional && Times(n, StopLoss(m, a)) <= a.maxLoss
    && (!constraint.ByRisk? ==> Times(Times(n + m.lot, m.value), a.entry) > a.maxNotional)
    && (!constraint.ByNotional? ==> Times(n + m.lot, StopLoss(m, a)) > a.maxLoss)
  }

  lemma SizeIsMaximal(m: Mechanics, a: Assumptions)
    requires InOrder(m, a) && StopLoss(m, a) > 0.0
    ensures Aligned(Size(m, a).1, m.lot) && FitsCaps(m, a, Size(m, a).0, Size(m, a).1)
  {
    hide StopLoss, FloorTo, Aligned, Times;
    var n, per := Size(m, a).1, Times(m.value, a.entry);
    TimesGrows(m.value, m.value, a.entry);
    FloorFacts(a.maxNotional / per, m.lot);
    FloorFacts(a.maxLoss / StopLoss(m, a), m.lot);
    Capped(a.maxNotional, per, n, m.lot);
    Capped(a.maxLoss, StopLoss(m, a), n, m.lot);
    TimesLaws(n, m.value, a.entry);
    TimesLaws(n + m.lot, m.value, a.entry);
  }

  /** Amounts up to the quotient fit, larger ones do not. */
  lemma Capped(limit: real, per: real, n: real, lot: real)
    requires per > 0.0
    ensures n <= limit / per ==> Times(n, per) <= limit
    ensures n + lot > limit / per ==> Times(n + lot, per) > limit
  {
    hide Times;
    QuotientTimes(limit, per);
    TimesGrows(n, limit / per, per);
    TimesGrows(limit / per, n + lot, per);
  }

  /** The rounded target earns the requested multiple of the loss, and the next tick towards the entry would not. */
  lemma TargetIsTight(m: Mechanics, a: Assumptions)
    requires InOrder(m, a) && StopLoss(m, a) > 0.0 && Raw(m, a).Ok?
    ensures var target := Rounded(a.direction, m.tick, Raw(m, a).value);
            && Aligned(target, m.tick)
            && Net(a.direction, m.value, a.entry, target, m.entryRate, m.exitRate) >= Wanted(m, a)
            && Net(a.direction, m.value, a.entry, Closer(a.direction, m.tick, target), m.entryRate, m.exitRate) < Wanted(m, a)
  {
    hide Net, StopLoss, FloorTo, CeilTo, Wanted, PriceFor, Aligned, Slope;
    var raw := Raw(m, a).value;
    var target := Rounded(a.direction, m.tick, raw);
    PriceIsExact(a.direction, m.value, a.entry, m.entryRate, m.exitRate, Wanted(m, a));
    FloorFacts(raw, m.tick);
    CeilFacts(raw, m.tick);
    BetterExit(a.direction, m.value, a.entry, raw, target, m.entryRate, m.exitRate);
    BetterExit(a.direction, m.value, a.entry, raw, Closer(a.direction, m.tick, target), m.entryRate, m.exitRate);
  }

  /** For `n` contracts the loss at the stop is `n` times that of one, and the profit at the target at least the reward times it. */
  lemma Rewarded(m: Mechanics, a: Assumptions, n: real)
    requires InOrder(m, a) && StopLoss(m, a) > 0.0 && Raw(m, a).Ok? && n > 0.0
    ensures var target := Rounded(a.direction, m.tick, Raw(m, a).value);
            var loss, net := 0.0 - NetAt(m, a, n, a.stop), NetAt(m, a, n, target);
            && loss == Times(n, StopLoss(m, a)) && loss > 0.0 && net >= Times(a.reward, loss) > 0.0 && net / loss >= a.reward
  {
    hide Net, Raw, Rounded, Times;
    TargetIsTight(m, a);
    var target := Rounded(a.direction, m.tick, Raw(m, a).value);
    var loss, each := StopLoss(m, a), Net(a.direction, m.value, a.entry, target, m.entryRate, m.exitRate);
    NetScales(a.direction, n, m.value, a.entry, a.stop, m.entryRate, m.exitRate);
    NetScales(a.direction, n, m.value, a.entry, target, m.entryRate, m.exitRate);
    TimesLaws(n, Net(a.direction, m.value, a.entry, a.stop, m.entryRate, m.exitRate), 0.0);
    TimesGrows(n, n, loss);
    TimesGrows(Wanted(m, a), each, n);
    TimesLaws(n, each, 0.0);
    TimesLaws(n, loss, a.reward);
    TimesLaws(a.reward, Times(n, loss), 0.0);
    TimesLaws(Wanted(m, a), n, 0.0);
    TimesGrows(a.reward, a.reward, Times(n, loss));
    AtLeast(NetAt(m, a, n, target), Times(n, loss), a.reward);
  }

  lemma AtLeast(net: real, loss: real, reward: real)
    requires loss > 0.0 && net >= Times(reward, loss)
    ensures net / loss >= reward
  {
    Quotient(net, loss, reward);
  }

  /** A returned candidate never exceeds the notional or the loss cap, one lot more would exceed the cap that constrains it, and its
      target gives at least the requested reward for the risk, net of fees. */
  lemma CandidateIsSafe(m: Mechanics, a: Assumptions)
    requires Analyze(m, a).Ok?
    ensures m.lot > 0.0 && m.tick > 0.0 && m.value > 0.0
    ensures var c := Analyze(m, a).value;
            && c.contracts >= m.minimum > 0.0 && Aligned(c.contracts, m.lot) && Aligned(c.target, m.tick) && c.target > 0.0
            && c.notional == Times(Times(c.contracts, m.value), a.entry) && c.stopLoss == Times(c.contracts, StopLoss(m, a))
            && FitsCaps(m, a, c.constraint, c.contracts)
            && c.stopLoss > 0.0 && c.targetNet >= Times(a.reward, c.stopLoss) && c.ratio >= a.reward
  {
    hide NetAt, StopLoss, Raw, Size, Rounded, Aligned, Times, FitsCaps;
    SizeIsMaximal(m, a);
    TargetIsTight(m, a);
    Rewarded(m, a, Size(m, a).1);
  }

  /** Once an order has been sized, neither the loss at its stop nor the profit at its target can be refused again. */
  lemma LateChecksNeverFail(m: Mechanics, a: Assumptions)
    ensures Analyze(m, a).Err? && Analyze(m, a).error.StopDoesNotLose? ==> InOrder(m, a) && StopLoss(m, a) <= 0.0
    ensures !(Analyze(m, a).Err? && Analyze(m, a).error.TargetDoesNotProfit?)
  {
    hide NetAt, StopLoss, Raw, Size, Rounded, Aligned, Times;
    if InOrder(m, a) && StopLoss(m, a) > 0.0 && Size(m, a).1 >= m.minimum {
      RawProblems(m, a);
      if Raw(m, a).Ok? {
        Rewarded(m, a, Size(m, a).1);
      }
    }
  }

  lemma RawProblems(m: Mechanics, a: Assumptions)
    requires m.value > 0.0
    ensures Raw(m, a).Err? ==> Raw(m, a).error.FeeRate? || Raw(m, a).error.TargetPrice?
  {
  }

  // ---------- break-even of a position ----------

  /** The price at which a position neither gains nor loses, raw and rounded to a tick away from loss. */
  function BreakEven(m: Mechanics, direction: Direction, entry: real): Result<(real, real), Problem>
    requires m.value > 0.0 && m.tick > 0.0
  {
    var raw := PriceFor(direction, m.value, entry, m.entryRate, m.exitRate, 0.0);
    if raw.Err? then Err(raw.error)
    else if Rounded(direction, m.tick, raw.value) <= 0.0 then Err(TargetPrice)
    else Ok((raw.value, Rounded(direction, m.tick, raw.value)))
  }

  /** For any number of contracts the raw break-even nets exactly zero, the rounded one never less, and a tick towards loss always less. */
  lemma BreakEvenNets(m: Mechanics, direction: Direction, entry: real, contracts: real)
    requires m.value > 0.0 && m.tick > 0.0 && contracts > 0.0 && BreakEven(m, direction, entry).Ok?
    ensures var (raw, rounded) := BreakEven(m, direction, entry).value;
            var base := Times(contracts, m.value);
            && Net(direction, base, entry, raw, m.entryRate, m.exitRate) == 0.0
            && Net(direction, base, entry, rounded, m.entryRate, m.exitRate) >= 0.0
            && Net(direction, base, entry, Closer(direction, m.tick, rounded), m.entryRate, m.exitRate) < 0.0
  {
    hide Net, FloorTo, CeilTo, PriceFor, Times, Slope;
    var raw := BreakEven(m, direction, entry).value.0;
    var rounded := BreakEven(m, direction, entry).value.1;
    var worse := Closer(direction, m.tick, rounded);
    PriceIsExact(direction, m.value, entry, m.entryRate, m.exitRate, 0.0);
    FloorFacts(raw, m.tick);
    CeilFacts(raw, m.tick);
    BetterExit(direction, m.value, entry, raw, rounded, m.entryRate, m.exitRate);
    BetterExit(direction, m.value, entry, raw, worse, m.entryRate, m.exitRate);
    SameSign(direction, contracts, m.value, entry, raw, m.entryRate, m.exitRate);
    SameSign(direction, contracts, m.value, entry, rounded, m.entryRate, m.exitRate);
    SameSign(direction, contracts, m.value, entry, worse, m.entryRate, m.exitRate);
  }

  /** Whether a position gains or loses does not depend on its size. */
  lemma SameSign(direction: Direction, n: real, value: real, entry: real, exit: real, entryRate: real, exitRate: real)
    requires n > 0.0
    ensures var each, all := Net(direction, value, entry, exit, entryRate, exitRate), Net(direction, Times(n, value), entry, exit, entryRate, exitRate);
            (each > 0.0 <==> all > 0.0) && (each < 0.0 <==> all < 0.0)
  {
    hide Net, Times;
    var each := Net(direction, value, entry, exit, entryRate, exitRate);
    NetScales(direction, n, value, entry, exit, entryRate, exitRate);
    TimesLaws(n, each, 0.0);
    TimesLaws(each, n, 0.0);
    TimesGrows(each, 0.0, n);
    TimesGrows(0.0 - each, 0.0, n);
  }
}
