/** Identifiers of the risk book: text classes, and the length-delimited reservation key. */
module RiskKeys {
  import opened Options
  import opened Amounts

  predicate IsHexDigit(c: char) {
    '0' <= c <= '9' || 'a' <= c <= 'f'
  }

  predicate IsLower(c: char) {
    'a' <= c <= 'z'
  }

  predicate IsUpper(c: char) {
    'A' <= c <= 'Z'
  }

  predicate IsWord(c: char) {
    IsLower(c) || IsUpper(c) || IsDigit(c) || c == '_' || c == '-'
  }

  /** 64 lower-case hexadecimal digits. */
  predicate Hex(s: string) {
    |s| == 64 && forall i :: 0 <= i < |s| ==> IsHexDigit(s[i])
  }

  /** 8 to 128 word characters. */
  predicate Token(s: string) {
    8 <= |s| <= 128 && forall i :: 0 <= i < |s| ==> IsWord(s[i])
  }

  predicate VenueText(s: string) {
    && 2 <= |s| <= 32
    && IsLower(s[0])
    && forall i :: 0 <= i < |s| ==> IsLower(s[i]) || IsDigit(s[i]) || s[i] == '_' || s[i] == '-'
  }

  predicate StrategyText(s: string) {
    && 2 <= |s| <= 64
    && (IsLower(s[0]) || IsUpper(s[0]))
    && forall i :: 0 <= i < |s| ==> IsWord(s[i])
  }

  predicate InstrumentText(s: string) {
    && 3 <= |s| <= 64
    && forall i :: 0 <= i < |s| ==> IsUpper(s[i]) || IsDigit(s[i]) || s[i] == '_' || s[i] == '-'
  }

  /** `venue:real:uid`. */
  function AccountKey(venue: string, uid: string): string {
    venue + ":real:" + uid
  }

  /** One component, preceded by its length. */
  function Delimited(x: string): string {
    Print(|x|) + ":" + x
  }

  function Join(parts: seq<string>): string {
    if |parts| == 0 then "" else Delimited(parts[0]) + Join(parts[1..])
  }

  /** The key under which one intent of one run of one account holds its reservation. */
  function RiskKey(venue: string, uid: string, run: string, intent: string): string {
    Join([venue, "real", uid, run, intent])
  }

  /** `s.split(":")`. */
  function SplitColon(s: string): (parts: seq<string>)
    ensures |parts| > 0
  {
    var i := IndexOf(s, ':');
    if i == |s| then [s] else [s[..i]] + SplitColon(s[i + 1..])
  }

  predicate StartsWith(s: string, p: string) {
    |p| <= |s| && s[..|p|] == p
  }

  predicate EndsWith(s: string, p: string) {
    |p| <= |s| && s[|s| - |p|..] == p
  }

  /** A run component as the address check reads it: one to three digits without a leading zero, a colon, a token of that length. */
  predicate RunComponent(s: string) {
    var i := IndexOf(s, ':');
    && 1 <= i <= 3 && i < |s|
    && AllDigits(s[..i]) && s[0] != '0'
    && |s[i + 1..]| == DigitsValue(s[..i])
    && Token(s[i + 1..])
  }

  /** Whether `key` is the reservation key of some run of this account and intent. */
  predicate ValidNoReserveAddress(key: string, account: string, intent: string) {
    var pieces := SplitColon(account);
    && |pieces| == 3 && pieces[0] == "okx" && pieces[1] == "real" && Hex(pieces[2])
    && Token(intent)
    && var prefix := Join(pieces);
       var suffix := Delimited(intent);
       && StartsWith(key, prefix)
       && EndsWith(key, suffix)
       && |prefix| <= |key| - |suffix|
       && RunComponent(key[|prefix|..|key| - |suffix|])
  }

  // ---------- injectivity ----------

  lemma PrintBeforeColon(n: nat, rest: string)
    ensures IndexOf(Print(n) + ":" + rest, ':') == |Print(n)|
  {
    var s := Print(n) + ":" + rest;
    assert s[|Print(n)|] == ':';
    assert forall i :: 0 <= i < |Print(n)| ==> s[i] == Print(n)[i];
  }

  lemma DelimitedInjective(x: string, y: string, r: string, t: string)
    requires Delimited(x) + r == Delimited(y) + t
    ensures x == y && r == t
  {
    var s := Delimited(x) + r;
    assert s == Print(|x|) + ":" + (x + r);
    assert s == Print(|y|) + ":" + (y + t);
    PrintBeforeColon(|x|, x + r);
    PrintBeforeColon(|y|, y + t);
    var i := IndexOf(s, ':');
    assert Print(|x|) == s[..i] == Print(|y|);
    PrintValue(|x|);
    PrintValue(|y|);
    assert x + r == s[i + 1..] == y + t;
    assert x == (x + r)[..|x|] && y == (y + t)[..|y|];
    assert r == (x + r)[|x|..] && t == (y + t)[|y|..];
  }

  lemma {:induction false} JoinInjective(a: seq<string>, b: seq<string>)
    requires |a| == |b| && Join(a) == Join(b)
    ensures a == b
  {
    if |a| > 0 {
      DelimitedInjective(a[0], b[0], Join(a[1..]), Join(b[1..]));
      JoinInjective(a[1..], b[1..]);
      assert a == [a[0]] + a[1..] && b == [b[0]] + b[1..];
    }
  }

  /** No two identities share a reservation key, whatever characters the components hold. */
  lemma RiskKeyInjective(v: string, u: string, r: string, i: string, v': string, u': string, r': string, i': string)
    ensures RiskKey(v, u, r, i) == RiskKey(v', u', r', i') <==> v == v' && u == u' && r == r' && i == i'
  {
    if RiskKey(v, u, r, i) == RiskKey(v', u', r', i') {
      var a, b := [v, "real", u, r, i], [v', "real", u', r', i'];
      JoinInjective(a, b);
      assert a[0] == b[0] && a[2] == b[2] && a[3] == b[3] && a[4] == b[4];
    }
  }

  /** Well-formed venues hold no colon, so the account key separates its venue from its uid. */
  lemma AccountKeyInjective(v: string, u: string, v': string, u': string)
    requires VenueText(v) && VenueText(v')
    ensures AccountKey(v, u) == AccountKey(v', u') <==> v == v' && u == u'
  {
    if AccountKey(v, u) == AccountKey(v', u') {
      var s := AccountKey(v, u);
      assert s[|v|] == ':' && s[|v'|] == ':';
      assert forall i :: 0 <= i < |v| ==> s[i] == v[i];
      assert forall i :: 0 <= i < |v'| ==> s[i] == v'[i];
      assert |v| == |v'|;
      assert v == s[..|v|] == v';
      assert u == s[|v| + 6..] == u';
    }
  }

  // ---------- the address of a fence ----------

  lemma SplitAt(head: string, rest: string)
    requires IndexOf(head, ':') == |head|
    ensures SplitColon(head + ":" + rest) == [head] + SplitColon(rest)
  {
    var s := head + ":" + rest;
    assert s[|head|] == ':';
    assert forall i :: 0 <= i < |head| ==> s[i] == head[i];
    assert IndexOf(s, ':') == |head|;
    assert s[..|head|] == head && s[|head| + 1..] == rest;
  }

  lemma NoColon(s: string)
    requires forall i :: 0 <= i < |s| ==> s[i] != ':'
    ensures IndexOf(s, ':') == |s| && SplitColon(s) == [s]
  {
  }

  lemma AccountPieces(uid: string)
    requires Hex(uid)
    ensures SplitColon(AccountKey("okx", uid)) == ["okx", "real", uid]
  {
    NoColon("okx");
    NoColon("real");
    NoColon(uid);
    assert AccountKey("okx", uid) == "okx" + ":" + ("real" + ":" + uid);
    SplitAt("okx", "real" + ":" + uid);
    SplitAt("real", uid);
  }

  lemma {:induction false} PiecesRejoin(s: string)
    ensures s == Rejoin(SplitColon(s))
  {
    var i := IndexOf(s, ':');
    if i < |s| {
      PiecesRejoin(s[i + 1..]);
      assert s == s[..i] + ":" + s[i + 1..];
    }
  }

  function Rejoin(parts: seq<string>): string
    requires |parts| > 0
  {
    if |parts| == 1 then parts[0] else parts[0] + ":" + Rejoin(parts[1..])
  }

  lemma RunComponentIsDelimited(s: string)
    ensures RunComponent(s) <==> exists run :: Token(run) && s == Delimited(run)
  {
    hide RunComponent, Token, Delimited;
    if RunComponent(s) {
      var run := RunOf(s);
    }
    if run :| Token(run) && s == Delimited(run) {
      RunDelimited(run);
    }
  }

  lemma RunOf(s: string) returns (run: string)
    requires RunComponent(s)
    ensures Token(run) && s == Delimited(run)
  {
    hide Print, DigitsValue;
    var i := IndexOf(s, ':');
    run := s[i + 1..];
    DigitsCanonical(s[..i]);
    assert s == s[..i] + ":" + run;
  }

  lemma RunDelimited(run: string)
    requires Token(run)
    ensures RunComponent(Delimited(run))
  {
    hide Print, DigitsValue, Pow10, IndexOf;
    var s := Delimited(run);
    PrintBeforeColon(|run|, run);
    PrintValue(|run|);
    PrintLength(|run|, 3);
    PrintNoLeadingZero(|run|);
    Thousand();
    var i := IndexOf(s, ':');
    assert s[..i] == Print(|run|) && s[i + 1..] == run;
  }

  lemma Thousand()
    ensures Pow10(3) == 1000
  {
  }

  lemma {:induction false} DigitsCanonical(s: string)
    requires |s| > 0 && AllDigits(s) && s[0] != '0'
    ensures DigitsValue(s) > 0 && Print(DigitsValue(s)) == s
  {
    var t := s[..|s| - 1];
    assert s == t + [s[|s| - 1]];
    if |t| > 0 {
      DigitsCanonical(t);
      assert DigitsValue(s) / 10 == DigitsValue(t);
    } else {
      assert DigitsValue(t) == 0;
    }
  }

  lemma JoinFive(v: string, uid: string, run: string, intent: string)
    ensures RiskKey(v, uid, run, intent) == Join([v, "real", uid]) + Delimited(run) + Delimited(intent)
  {
    var five := [v, "real", uid, run, intent];
    assert five[1..] == ["real", uid, run, intent];
    assert five[1..][1..] == [uid, run, intent];
    assert five[1..][1..][1..] == [run, intent];
    assert five[1..][1..][1..][1..] == [intent];
    assert five[1..][1..][1..][1..][1..] == [];
    var three := [v, "real", uid];
    assert three[1..] == ["real", uid];
    assert three[1..][1..] == [uid];
    assert three[1..][1..][1..] == [];
    var a, b, c := Delimited(v), Delimited("real"), Delimited(uid);
    var d, e := Delimited(run), Delimited(intent);
    assert Join([intent]) == e + "" == e;
    assert Join([run, intent]) == d + e;
    assert Join([uid, run, intent]) == c + (d + e);
    assert Join(five) == a + (b + (c + (d + e)));
    assert Join([uid]) == c + "" == c;
    assert Join(three) == a + (b + c);
    assert a + (b + (c + (d + e))) == a + (b + c) + d + e;
  }

  /** `key` is the reservation key of this intent under `account`, for the given uid and run. */
  ghost predicate AddressOf(key: string, account: string, intent: string, uid: string, run: string) {
    && Hex(uid) && Token(run) && Token(intent)
    && account == AccountKey("okx", uid)
    && key == RiskKey("okx", uid, run, intent)
  }

  lemma AccountOfPieces(account: string)
    requires |SplitColon(account)| == 3
    ensures account == Rejoin(SplitColon(account)) == SplitColon(account)[0] + ":" + (SplitColon(account)[1] + ":" + SplitColon(account)[2])
  {
    var pieces := SplitColon(account);
    PiecesRejoin(account);
    assert pieces[1..][1..] == [pieces[2]];
    assert Rejoin(pieces[1..]) == pieces[1] + ":" + Rejoin(pieces[1..][1..]);
  }

  lemma AddressAccepted(key: string, account: string, intent: string) returns (uid: string, run: string)
    requires ValidNoReserveAddress(key, account, intent)
    ensures AddressOf(key, account, intent, uid, run)
  {
    hide SplitColon, Join, Delimited, RunComponent, Hex, Token;
    var pieces := SplitColon(account);
    AccountOfPieces(account);
    uid := pieces[2];
    assert pieces == ["okx", "real", uid];
    assert account == AccountKey("okx", uid);
    var prefix, suffix := Join(pieces), Delimited(intent);
    var middle := key[|prefix|..|key| - |suffix|];
    RunComponentIsDelimited(middle);
    run :| Token(run) && middle == Delimited(run);
    JoinFive("okx", uid, run, intent);
    assert key == prefix + middle + suffix;
  }

  lemma AddressBuilt(key: string, account: string, intent: string, uid: string, run: string)
    requires AddressOf(key, account, intent, uid, run)
    ensures ValidNoReserveAddress(key, account, intent)
  {
    AccountPieces(uid);
    JoinFive("okx", uid, run, intent);
    var prefix, suffix := Join(["okx", "real", uid]), Delimited(intent);
    assert key == prefix + Delimited(run) + suffix;
    assert key[|prefix|..|key| - |suffix|] == Delimited(run);
    RunComponentIsDelimited(Delimited(run));
  }

  /** The address check accepts exactly the keys that `RiskKey` builds for that account and intent and some valid run. */
  lemma NoReserveAddressExact(key: string, account: string, intent: string)
    ensures ValidNoReserveAddress(key, account, intent) <==> exists uid, run :: AddressOf(key, account, intent, uid, run)
  {
    if ValidNoReserveAddress(key, account, intent) {
      var uid, run := AddressAccepted(key, account, intent);
    }
    if uid, run :| AddressOf(key, account, intent, uid, run) {
      AddressBuilt(key, account, intent, uid, run);
    }
  }
}
