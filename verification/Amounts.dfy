/** Fixed-point amounts of the risk book: billionths of a unit as naturals, and the decimal texts they are stored as. */
module Amounts {
  import opened Options

  /** Billionths per unit. */
  const UNIT: nat := 1_000_000_000

  /** The first value whose text has too many whole digits to be read back. */
  const TEXT_LIMIT: nat := 1_000_000_000_000_000_000_000_000

  predicate IsDigit(c: char) {
    '0' <= c <= '9'
  }

  predicate AllDigits(s: string) {
    forall i :: 0 <= i < |s| ==> IsDigit(s[i])
  }

  /** Value of a digit string read left to right, as `BigInt` reads it. */
  function DigitsValue(s: string): nat
    requires AllDigits(s)
  {
    if |s| == 0 then 0
    else DigitsValue(s[..|s| - 1]) * 10 + (s[|s| - 1] as int - '0' as int)
  }

  /** Index of the first `c`, or the length when there is none. */
  function IndexOf(s: string, c: char): (i: nat)
    ensures i <= |s|
    ensures forall j :: 0 <= j < i ==> s[j] != c
    ensures i < |s| ==> s[i] == c
  {
    if |s| == 0 || s[0] == c then 0 else 1 + IndexOf(s[1..], c)
  }

  function Zeros(n: nat): (s: string)
    ensures |s| == n && forall i :: 0 <= i < n ==> s[i] == '0'
  {
    seq(n, _ => '0')
  }

  function PadEnd(s: string, n: nat): string {
    if |s| < n then s + Zeros(n - |s|) else s
  }

  function PadStart(s: string, n: nat): string {
    if |s| < n then Zeros(n - |s|) + s else s
  }

  /** Removes the run of zeros at the end. */
  function StripZeros(s: string): (r: string)
    ensures r <= s
    ensures |r| == 0 || r[|r| - 1] != '0'
    ensures forall i :: |r| <= i < |s| ==> s[i] == '0'
  {
    if |s| == 0 || s[|s| - 1] != '0' then s else StripZeros(s[..|s| - 1])
  }

  /** Decimal text without leading zeros. */
  function Print(n: nat): (s: string)
    ensures |s| > 0 && AllDigits(s)
  {
    var d := [('0' as int + n % 10) as char];
    if n < 10 then d else Print(n / 10) + d
  }

  predicate WholeText(s: string) {
    && 1 <= |s| <= 15
    && AllDigits(s)
    && (s[0] == '0' ==> |s| == 1)
  }

  predicate FractionText(s: string) {
    && 1 <= |s| <= 9
    && AllDigits(s)
  }

  /** Reads an amount text: up to 15 whole digits and, optionally, a point with up to 9 more. */
  function Units(s: string): Option<nat> {
    var dot := IndexOf(s, '.');
    var whole := s[..dot];
    var fraction := if dot < |s| then s[dot + 1..] else "";
    if WholeText(whole) && (dot == |s| || FractionText(fraction)) then
      Some(DigitsValue(whole) * UNIT + DigitsValue(PadEnd(fraction, 9)))
    else
      None
  }

  /** Prints a value with the shortest fraction. */
  function Amount(value: nat): string {
    var whole := Print(value / UNIT);
    var fraction := StripZeros(PadStart(Print(value % UNIT), 9));
    if |fraction| > 0 then whole + "." + fraction else whole
  }

  /** Whether the text of a stored value can be read back. */
  predicate Parseable(value: nat) {
    value < TEXT_LIMIT
  }

  // ---------- digit arithmetic ----------

  function Pow10(n: nat): nat {
    if n == 0 then 1 else 10 * Pow10(n - 1)
  }

  lemma {:induction false} DigitsValueConcat(a: string, b: string)
    requires AllDigits(a) && AllDigits(b)
    ensures AllDigits(a + b)
    ensures DigitsValue(a + b) == DigitsValue(a) * Pow10(|b|) + DigitsValue(b)
  {
    if |b| == 0 {
      assert a + b == a;
    } else {
      var b0 := b[..|b| - 1];
      assert (a + b)[..|a + b| - 1] == a + b0;
      DigitsValueConcat(a, b0);
      assert Pow10(|b|) == 10 * Pow10(|b0|);
      assert DigitsValue(a) * Pow10(|b|) == 10 * (DigitsValue(a) * Pow10(|b0|));
    }
  }

  lemma {:induction false} DigitsValueBound(s: string)
    requires AllDigits(s)
    ensures DigitsValue(s) < Pow10(|s|)
  {
    if |s| > 0 {
      DigitsValueBound(s[..|s| - 1]);
    }
  }

  lemma {:induction false} DigitsValueZeros(n: nat)
    ensures DigitsValue(Zeros(n)) == 0
  {
    if n > 0 {
      assert Zeros(n)[..n - 1] == Zeros(n - 1);
      DigitsValueZeros(n - 1);
    }
  }

  lemma {:induction false} PrintValue(n: nat)
    ensures DigitsValue(Print(n)) == n
  {
    if n >= 10 {
      PrintValue(n / 10);
      assert Print(n)[..|Print(n)| - 1] == Print(n / 10);
    }
  }

  lemma {:induction false} PrintNoLeadingZero(n: nat)
    ensures Print(n)[0] == '0' <==> n == 0
    ensures n < 10 ==> |Print(n)| == 1
  {
    if n >= 10 {
      PrintNoLeadingZero(n / 10);
    }
  }

  lemma {:induction false} PrintLength(n: nat, k: nat)
    requires k > 0
    ensures |Print(n)| <= k <==> n < Pow10(k)
  {
    if n >= 10 {
      if k == 1 {
        assert Pow10(1) == 10 * Pow10(0);
      } else {
        PrintLength(n / 10, k - 1);
        assert Pow10(k) == 10 * Pow10(k - 1);
      }
    } else {
      assert Pow10(k) == 10 * Pow10(k - 1);
      Pow10Positive(k - 1);
    }
  }

  lemma {:induction false} Pow10Positive(n: nat)
    ensures Pow10(n) > 0
  {
    if n > 0 {
      Pow10Positive(n - 1);
    }
  }

  /** Printing then padding on the left keeps the value, and dropping trailing zeros then padding on the right too. */
  lemma {:induction false} FractionText9(f: nat)
    requires f < UNIT
    ensures var t := PadStart(Print(f), 9);
            |t| == 9 && AllDigits(t) && DigitsValue(t) == f && PadEnd(StripZeros(t), 9) == t
    ensures |StripZeros(PadStart(Print(f), 9))| == 0 <==> f == 0
  {
    assert Pow10(9) == UNIT;
    PrintLength(f, 9);
    PrintValue(f);
    var p := Print(f);
    var t := PadStart(p, 9);
    assert t == Zeros(9 - |p|) + p;
    DigitsValueZeros(9 - |p|);
    DigitsValueConcat(Zeros(9 - |p|), p);
    var r := StripZeros(t);
    assert PadEnd(r, 9) == t;
    if |r| == 0 {
      assert t == Zeros(9);
      DigitsValueZeros(9);
    }
  }

  /** Where the printed text splits: its whole part and its fraction. */
  lemma AmountSplit(value: nat)
    ensures var s := Amount(value);
            var dot := IndexOf(s, '.');
            && s[..dot] == Print(value / UNIT)
            && (if dot < |s| then s[dot + 1..] else "") == StripZeros(PadStart(Print(value % UNIT), 9))
            && (dot == |s| <==> value % UNIT == 0)
  {
    FractionText9(value % UNIT);
    var whole := Print(value / UNIT);
    var fraction := StripZeros(PadStart(Print(value % UNIT), 9));
    var s := Amount(value);
    var dot := IndexOf(s, '.');
    assert forall i :: 0 <= i < |whole| ==> s[i] == whole[i];
    assert |fraction| > 0 ==> s[|whole|] == '.';
  }

  /** Every stored value below 10^15 reads back as itself; every larger one cannot be read. */
  lemma UnitsOfAmount(value: nat)
    ensures Units(Amount(value)) == if Parseable(value) then Some(value) else None
  {
    hide WholeText, FractionText, Print, StripZeros, PadStart, PadEnd, DigitsValue, IndexOf, Amount, Units, AllDigits, Parseable;
    AmountSplit(value);
    var w, f := value / UNIT, value % UNIT;
    FractionText9(f);
    FractionReads(f);
    PrintValue(w);
    WholeTextOfPrint(w);
    UnitsReads(Amount(value), Print(w), StripZeros(PadStart(Print(f), 9)));
    LimitOfWhole(value);
  }

  lemma LimitOfWhole(value: nat)
    ensures Parseable(value) <==> value / UNIT < 1_000_000_000_000_000
    ensures value / UNIT * UNIT + value % UNIT == value
  {
  }

  /** The stripped fraction is a fraction text unless nothing is left of it. */
  lemma FractionReads(f: nat)
    requires f < UNIT
    ensures var r := StripZeros(PadStart(Print(f), 9)); |r| > 0 ==> FractionText(r)
    ensures AllDigits(PadEnd("", 9)) && DigitsValue(PadEnd("", 9)) == 0
  {
    hide Print, StripZeros, PadStart, DigitsValue;
    FractionText9(f);
    assert PadEnd("", 9) == Zeros(9);
    DigitsValueZeros(9);
  }

  /** What a text with this whole part and this fraction reads as. */
  lemma UnitsReads(s: string, whole: string, fraction: string)
    requires var dot := IndexOf(s, '.');
             s[..dot] == whole && (if dot < |s| then s[dot + 1..] else "") == fraction && (dot == |s| <==> |fraction| == 0)
    requires |fraction| > 0 ==> FractionText(fraction)
    requires AllDigits(PadEnd(fraction, 9)) && AllDigits(whole)
    ensures Units(s) == if WholeText(whole) then Some(DigitsValue(whole) * UNIT + DigitsValue(PadEnd(fraction, 9))) else None
  {
    hide WholeText, PadEnd, DigitsValue, IndexOf, AllDigits;
  }

  lemma WholeTextOfPrint(w: nat)
    ensures WholeText(Print(w)) <==> w < 1_000_000_000_000_000
  {
    PrintNoLeadingZero(w);
    PrintLength(w, 15);
    LargePowers();
  }

  lemma LargePowers()
    ensures Pow10(9) == UNIT && Pow10(15) == 1_000_000_000_000_000
  {
    assert Pow10(5) == 100_000;
    assert Pow10(10) == 10_000_000_000;
  }

  /** The text is canonical: two stored values have the same text only when they are equal, whatever their size. */
  lemma AmountCanonical(a: nat, b: nat)
    ensures Amount(a) == Amount(b) <==> a == b
  {
    if Amount(a) == Amount(b) {
      AmountSplit(a);
      AmountSplit(b);
      FractionText9(a % UNIT);
      FractionText9(b % UNIT);
      PrintValue(a / UNIT);
      PrintValue(b / UNIT);
    }
  }

  /** Every text that reads at all reads below the limit, so its value can be stored and read again. */
  lemma UnitsParseable(s: string)
    ensures Units(s).Some? ==> Parseable(Units(s).value) && Units(Amount(Units(s).value)) == Units(s)
  {
    hide Units, Amount, Parseable;
    if Units(s).Some? {
      UnitsBelow(s);
      UnitsOfAmount(Units(s).value);
    }
  }

  lemma UnitsBelow(s: string)
    ensures Units(s).Some? ==> Parseable(Units(s).value)
  {
    hide DigitsValue, IndexOf, Pow10;
    if Units(s).Some? {
      var dot := IndexOf(s, '.');
      var whole := s[..dot];
      var fraction := if dot < |s| then s[dot + 1..] else "";
      DigitsValueBound(whole);
      Pow10Monotone(|whole|, 15);
      DigitsValueBound(PadEnd(fraction, 9));
      LargePowers();
    }
  }

  lemma {:induction false} Pow10Monotone(a: nat, b: nat)
    requires a <= b
    ensures Pow10(a) <= Pow10(b)
    decreases b - a
  {
    if a < b {
      Pow10Monotone(a + 1, b);
      Pow10Positive(a);
    }
  }
}
