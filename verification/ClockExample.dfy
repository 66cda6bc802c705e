/** A concrete book on which a post at the creation time of its reservation is authorized and leaves an invalid entry. */
module ClockExample {
  import opened Options
  import opened Amounts
  import opened RiskKeys
  import opened Collections
  import opened Governance
  import opened Sums
  import opened RiskBook
  import opened Installation
  import opened Clock

  const HASH := Zeros(64)
  const WORD := "installation"
  const LIMITS := Limits("10", "10", Some("10"), Some(None), Some("10"), Some("10"), Some("0"), ["BTC-USDT-SWAP"])
  const OWNER := Account("main", "Main", "okx", Real, HASH, true, "okx:real:" + HASH, true, false, 1, LIMITS, [])
  const POLICY := Policy(1, WORD, "sha256:" + HASH, "10", "10", [OWNER])
  const NAME := AccountKey("okx", HASH)
  const ORDER := Order("okx", HASH, WORD, WORD, "trend", "BTC-USDT-SWAP", HASH, 1, "10", "10", Conversion("1", HASH, 1))
  const KEY := KeyOf(ORDER)
  const HOLD := Entry(KEY, ORDER, Held, 1, Some(HASH), Some(1), None, None)
  const BOOK := Book(
    Some(Meta(1, 1, WORD, INITIAL_CAMPAIGN, INITIAL_CAMPAIGN, 0, INITIAL_CAMPAIGN, map[NAME := INITIAL_CAMPAIGN])),
    map[KEY := HOLD], map[], map[StrategyOf(HOLD) := INITIAL_CAMPAIGN],
    map[NAME := AccountRecord(1, INITIAL_CAMPAIGN, INITIAL_CAMPAIGN)], map[])
  const CENSUS := Census([NAME], [Row(NAME, "0", "0")], 1, HASH, HASH, 1, true)
  const POST := PostProof(
    1, 1, CENSUS, Evidence(1, HASH, true, true, true), 1, CausalProof(KEY, "00000000000000000000000000000000", 1, [Read(NAME, 1, HASH, HASH, 0, 1)]))

  lemma TextUnits()
    ensures Units("10") == Some(INITIAL_CAMPAIGN) && Units("0") == Some(0) && Units("1") == Some(UNIT)
  {
    TenUnits();
    DigitUnits("0");
    DigitUnits("1");
  }

  lemma DigitUnits(s: string)
    requires |s| == 1 && IsDigit(s[0])
    ensures Units(s) == Some((s[0] as int - '0' as int) * UNIT)
  {
    assert IndexOf(s, '.') == 1;
    assert s[..1] == s;
    assert s[..0] == "";
    assert DigitsValue(s) == s[0] as int - '0' as int;
    DigitsValueZeros(9);
    assert PadEnd("", 9) == Zeros(9);
  }

  lemma ValidExamplePolicy()
    ensures ValidPolicy(POLICY)
    ensures Projected(POLICY) == Some(RiskPolicy(1, true, "10", "10", map[NAME := "10"]))
    ensures FindTrading(POLICY.accounts, "okx", HASH) == Some(OWNER)
  {
    hide Units;
    TextUnits();
    assert ValidAccount(OWNER);
    assert AccountLimits([]) == map[];
    assert [OWNER][..0] == [];
    assert AccountLimits([OWNER]) == map[NAME := "10"];
    assert POLICY.campaignId[..7] == "sha256:" && POLICY.campaignId[7..] == HASH;
    assert Trading(POLICY.accounts[0]);
  }

  lemma ShortKey()
    ensures |KEY| <= 512
  {
    hide AllDigits;
    DelimitedLength("okx");
    DelimitedLength("real");
    DelimitedLength(HASH);
    DelimitedLength(WORD);
    assert KEY == Delimited("okx") + (Delimited("real") + (Delimited(HASH) + (Delimited(WORD) + (Delimited(WORD) + "")))) by {
      hide Delimited;
      assert Join([]) == "";
      assert Join([WORD]) == Delimited(WORD) + Join([WORD][1..]);
      assert Join([WORD, WORD]) == Delimited(WORD) + Join([WORD, WORD][1..]);
      assert Join([HASH, WORD, WORD]) == Delimited(HASH) + Join([HASH, WORD, WORD][1..]);
      assert Join(["real", HASH, WORD, WORD]) == Delimited("real") + Join(["real", HASH, WORD, WORD][1..]);
      assert Join(["okx", "real", HASH, WORD, WORD]) == Delimited("okx") + Join(["okx", "real", HASH, WORD, WORD][1..]);
    }
  }

  lemma DelimitedLength(s: string)
    requires |s| < 100
    ensures |Delimited(s)| <= 3 + |s|
  {
    assert Pow10(2) == 100 by { assert Pow10(1) == 10; }
    PrintLength(|s|, 2);
  }

  lemma ExampleTexts()
    ensures VenueText("okx") && Hex(HASH) && Token(WORD) && StrategyText("trend") && InstrumentText("BTC-USDT-SWAP")
  {
  }

  lemma ValidExampleEntry()
    ensures ValidEntry(HOLD) && Usdt(HOLD) == INITIAL_CAMPAIGN && Usd(HOLD) == INITIAL_CAMPAIGN
    ensures AccountOf(HOLD) == NAME
  {
    hide Units, KeyOf, AccountKey, VenueText, Hex, Token, StrategyText, InstrumentText;
    ExampleTexts();
    TextUnits();
  }

  lemma ReadableExample()
    ensures Readable(BOOK) && AllValid(BOOK)
  {
    hide ValidEntry, KeyOf, AccountKey, Sum, Units;
    ValidExampleEntry();
    OneSum(NAME, INITIAL_CAMPAIGN);
  }

  lemma OneSum(k: string, v: nat)
    ensures Sum(map[k := v]) == v
  {
    var m := map[k := v];
    SumTake(m, k);
    assert |Without(m, k)| == 0;
  }

  lemma ExampleArguments()
    ensures PostArguments(KEY, HASH, 1, HASH, POST)
  {
    hide KeyOf, AccountKey;
    ShortKey();
  }

  lemma ExampleCensus()
    ensures CensusRisk(CENSUS, Projected(POLICY).GetOr(RiskPolicy(0, false, "", "", map[])), 1, true) == Some(map[NAME := 0])
    ensures External(CENSUS.rows) == map[NAME := 0]
  {
    hide Units, AccountKey, Projected;
    TextUnits();
    ValidExamplePolicy();
    var rows := CENSUS.rows;
    assert rows[..0] == [];
    assert External([]) == map[];
    assert External(rows) == map[NAME := 0];
    assert CENSUS.accounts == [NAME];
    assert Elements(CENSUS.accounts) == {NAME};
    assert |map[NAME := "10"]| == 1;
  }

  lemma ExampleCharge()
    ensures ChargeCensus(BOOK, CENSUS) == Some(BOOK)
  {
    hide Units, AccountKey, KeyOf;
    TextUnits();
    var accounts, values := RowAccounts(CENSUS.rows), RowLosses(CENSUS.rows);
    assert accounts == [NAME] && values == [0];
    assert [NAME][..0] == [] && [0][..0] == [];
    assert Excess(BOOK.losses, accounts, values) == 0;
  }

  lemma ExampleAdmission()
    ensures Projected(POLICY).Some?
    ensures PostAdmission(BOOK, POLICY, Projected(POLICY).value, map[NAME := 0], HOLD, 1) == Pass(OWNER, INITIAL_CAMPAIGN)
  {
    hide Units, AccountKey, KeyOf, Projected, Sum, FindTrading, ValidPolicy;
    TextUnits();
    ValidExamplePolicy();
    var occupied := Overlay(map[NAME := 0], map[NAME := INITIAL_CAMPAIGN]);
    assert occupied == map[NAME := INITIAL_CAMPAIGN];
    OneSum(NAME, INITIAL_CAMPAIGN);
    assert BOOK.meta.value.accounts == map[NAME := INITIAL_CAMPAIGN];
  }

  lemma ExampleSave()
    ensures var e := PostedEntry(HOLD, 1, HASH);
            SaveEntry(BOOK, e, 0).Some? && SaveEntry(BOOK, e, 0).value.entries == map[KEY := e]
  {
    hide Units, AccountKey, KeyOf;
    ValidExampleEntry();
  }

  /** Every stored entry of the book is valid; the post at the creation time is authorized; afterwards the entry is not valid. */
  lemma PostAtCreationInvalidates()
    ensures AllValid(BOOK)
    ensures var out := BeginPost(BOOK, Some(POLICY), 1, KEY, HASH, 1, HASH, Some(POST));
            out.reply == PostAuthorized(2, 0) && !AllValid(out.book)
  {
    hide Units, AccountKey, KeyOf, Projected, ValidPolicy, PostArguments, CensusRisk, Readable, ValidEntry, ChargeCensus, PostAdmission, SaveEntry, External, Usdt, FindTrading;
    ValidExamplePolicy();
    ReadableExample();
    ExampleArguments();
    ExampleCensus();
    ExampleCharge();
    ExampleAdmission();
    ExampleSave();
    ValidExampleEntry();
    var out := BeginPost(BOOK, Some(POLICY), 1, KEY, HASH, 1, HASH, Some(POST));
    assert out.book.entries[KEY] == PostedEntry(HOLD, 1, HASH);
    FrozenIsInvalid(out.book.entries[KEY]);
  }
}
