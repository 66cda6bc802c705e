/** The history view over several accounts: bounded pages in one order, joined by a cursor. */
module Pagination {
  import opened Options
  import opened Ordering

  const MAX_PAGE := 50
  const BYTE_BUDGET := 7000
  const LAST_ID := "\U{10FFFF}"

  /** Where a page ended. The query and the ledger revision it belongs to are checked before it is used. */
  datatype Cursor = Cursor(time: int, account: string, id: string)

  datatype Page = RowTooLarge | Page(rows: seq<Row>, next: Option<Cursor>)

  function PageSize(limit: nat): (n: nat)
    ensures n <= MAX_PAGE && (n > 0 <==> limit > 0)
  {
    if limit < MAX_PAGE then limit else MAX_PAGE
  }

  // ---------- one account's part of a page ----------

  /** The time and id after which one account's rows are still to come. */
  function HistoryAfter(account: string, cursor: Option<Cursor>, from: int): (int, string) {
    if cursor.None? then (from - 1, "")
    else if Before(account, cursor.value.account) then (cursor.value.time, LAST_ID)
    else if account == cursor.value.account then (cursor.value.time, cursor.value.id)
    else (cursor.value.time, "")
  }

  predicate After(r: Row, after: (int, string)) {
    r.time > after.0 || (r.time == after.0 && Before(after.1, r.id))
  }

  /** The rows of one account within the range and after the given place. */
  function Selected(ledger: set<Row>, account: string, from: int, through: int, after: (int, string)): set<Row> {
    set r | r in ledger && r.account == account && from <= r.time <= through && After(r, after)
  }

  /** The rows of all listed accounts within the range. */
  function Matching(ledger: set<Row>, accounts: seq<string>, from: int, through: int): set<Row> {
    set r | r in ledger && r.account in accounts && from <= r.time <= through
  }

  function CursorOf(r: Row): Cursor {
    Cursor(r.time, r.account, r.id)
  }

  /** The row comes after the place the cursor names. */
  predicate Beyond(r: Row, cursor: Option<Cursor>) {
    cursor.Some? ==> Less(Row(cursor.value.time, cursor.value.account, cursor.value.id, 0), r)
  }

  /** A row that the account filters of a page read differently from the order of the rows. */
  predicate Misread(r: Row, cursor: Option<Cursor>) {
    && cursor.Some? && r.time == cursor.value.time
    && if Before(r.account, cursor.value.account) then Before(LAST_ID, r.id)
       else r.account != cursor.value.account && r.id == ""
  }

  /** An account filter lets through exactly the rows beyond the cursor, but for misread ones: it repeats a row whose id is above the last
      code point, and skips one whose id is empty. */
  lemma FilterIsOrder(r: Row, cursor: Option<Cursor>, from: int)
    requires r.time >= from
    ensures !Misread(r, cursor) <==> (After(r, HistoryAfter(r.account, cursor, from)) <==> Beyond(r, cursor))
  {
    if cursor.Some? {
      BeforeTotal(r.account, cursor.value.account);
      hide Before;
      EmptyFirst(r.id);
    }
  }

  lemma EmptyFirst(id: string)
    ensures Before("", id) <==> id != ""
  {
  }

  /** Ids that no page misreads: not empty, and not above the last code point. */
  predicate OrdinaryIds(ledger: set<Row>) {
    forall r :: r in ledger ==> r.id != "" && !Before(LAST_ID, r.id)
  }

  /** Everything still to come after the cursor. */
  function Remaining(ledger: set<Row>, accounts: seq<string>, from: int, through: int, cursor: Option<Cursor>): set<Row> {
    set r | r in Matching(ledger, accounts, from, through) && Beyond(r, cursor)
  }

  lemma SelectedRemains(ledger: set<Row>, accounts: seq<string>, from: int, through: int, cursor: Option<Cursor>, account: string)
    requires OrdinaryIds(ledger) && account in accounts
    ensures var part := Selected(ledger, account, from, through, HistoryAfter(account, cursor, from));
            forall r :: r in part <==> r in Remaining(ledger, accounts, from, through, cursor) && r.account == account
  {
    hide Before, Less, HistoryAfter, After, Beyond;
    forall r | r in ledger && r.account == account && from <= r.time <= through
      ensures After(r, HistoryAfter(account, cursor, from)) <==> Beyond(r, cursor)
    {
      FilterIsOrder(r, cursor, from);
    }
  }

  // ---------- reading rows in order ----------

  /** The least of a set of rows. */
  method Least(s: set<Row>) returns (least: Row)
    requires s != {} && DistinctIds(s)
    ensures least in s && forall r :: r in s && r != least ==> Less(least, r)
  {
    hide Less;
    least :| least in s;
    var rest := s - {least};
    while rest != {}
      invariant rest <= s && least in s
      invariant forall r :: r in s && r !in rest && r != least ==> Less(least, r)
      decreases |rest|
    {
      var r :| r in rest;
      rest := rest - {r};
      LessTotal(s, r, least);
      if Less(r, least) {
        forall x | x in s && x !in rest && x != r && x != least ensures Less(r, x) {
          LessTransitive(r, least, x);
        }
        least := r;
      }
    }
  }

  /** The first `limit` rows of a set, in order: what an ordered, limited query over it returns, and what sorting and cutting it does. */
  method Take(s: set<Row>, limit: nat) returns (q: seq<Row>)
    requires DistinctIds(s)
    ensures FirstRows(q, s, limit)
  {
    hide Less;
    q := [];
    var rest := s;
    while rest != {} && |q| < limit
      invariant rest <= s && RowsOf(q) == s - rest
      invariant |q| + |rest| == |s| && |q| <= limit
      invariant Leads(q, s)
      decreases |rest|
    {
      var r := Least(rest);
      LeadsOne(rest, r);
      LeadsAppend(q, [r], s, rest);
      assert RowsOf(q + [r]) == RowsOf(q) + {r};
      q := q + [r];
      rest := rest - {r};
    }
    assert rest == {} ==> |rest| == 0;
    assert rest != {} ==> |rest| > 0;
  }

  lemma LeadsOne(s: set<Row>, r: Row)
    requires r in s && forall x :: x in s && x != r ==> Less(r, x)
    ensures Leads([r], s)
  {
    hide Less;
  }

  // ---------- one page ----------

  /** What has been gathered from the first `k` accounts: the first rows of each. */
  ghost predicate Gathered(rows: set<Row>, ledger: set<Row>, accounts: seq<string>, k: nat, remaining: set<Row>, limit: nat) {
    && k <= |accounts| && rows <= remaining
    && (forall r :: r in rows ==> r.account in accounts[..k])
    && (forall r :: r in remaining && r.account in accounts[..k] && r !in rows ==> Cut(rows, limit, r))
  }

  lemma CutGrows(rows: set<Row>, more: set<Row>, limit: nat, r: Row)
    requires Cut(rows, limit, r) && rows <= more
    ensures Cut(more, limit, r)
  {
    hide Less;
    var p :| MLess(p, rows, limit, r);
    assert MLess(p, more, limit, r);
  }

  lemma GatherOne(rows: set<Row>, part: seq<Row>, ledger: set<Row>, accounts: seq<string>, k: nat, remaining: set<Row>, selected: set<Row>, limit: nat)
    requires k < |accounts| && Gathered(rows, ledger, accounts, k, remaining, limit) && DistinctIds(remaining)
    requires forall r :: r in selected <==> r in remaining && r.account == accounts[k]
    requires FirstRows(part, selected, limit)
    ensures Gathered(rows + RowsOf(part), ledger, accounts, k + 1, remaining, limit)
  {
    hide Less, Cut;
    var more := rows + RowsOf(part);
    assert accounts[..k + 1] == accounts[..k] + [accounts[k]];
    forall r | r in remaining && r.account in accounts[..k + 1] && r !in more ensures Cut(more, limit, r) {
      if r.account in accounts[..k] {
        CutGrows(rows, more, limit, r);
      } else {
        CutBehind(part, selected, more, limit, r);
      }
    }
  }

  lemma CutBehind(part: seq<Row>, selected: set<Row>, more: set<Row>, limit: nat, r: Row)
    requires DistinctIds(selected) && FirstRows(part, selected, limit) && RowsOf(part) <= more && r in selected && r !in part
    ensures Cut(more, limit, r)
  {
    hide Less;
    if |part| < limit {
      LeadsAll(part, selected);
      assert false;
    }
    assert MLess(part, more, limit, r);
  }

  /** Total printed size. */
  function Bytes(rows: seq<Row>): nat {
    if |rows| == 0 then 0 else Bytes(rows[..|rows| - 1]) + rows[|rows| - 1].size
  }

  predicate Printable(rows: seq<Row>) {
    forall i :: 0 <= i < |rows| ==> rows[i].size <= BYTE_BUDGET
  }

  /** The rows of the page as far as the byte budget goes, and whether it ran out; `None` when not even the first row fits. */
  method CutToBudget(rows: seq<Row>) returns (output: Option<seq<Row>>)
    ensures output.None? <==> |rows| > 0 && rows[0].size > BYTE_BUDGET
    ensures output.Some? ==> output.value <= rows && Bytes(output.value) <= BYTE_BUDGET && Printable(output.value)
    ensures output.Some? && |rows| > 0 ==> |output.value| > 0
    ensures output.Some? && |output.value| < |rows| ==> Bytes(output.value) + rows[|output.value|].size > BYTE_BUDGET
  {
    var bytes := 0;
    var n := 0;
    while n < |rows|
      invariant n <= |rows| && bytes == Bytes(rows[..n]) && bytes <= BYTE_BUDGET
      invariant Printable(rows[..n])
    {
      assert rows[..n + 1][..n] == rows[..n];
      if bytes + rows[n].size > BYTE_BUDGET {
        return if n == 0 then None else Some(rows[..n]);
      }
      bytes := bytes + rows[n].size;
      n := n + 1;
    }
    assert rows[..n] == rows;
    output := Some(rows[..n]);
  }

  /** The row is the next one still to come after the given ones, and the budget has no room for it. */
  ghost predicate NoRoomFor(rows: seq<Row>, r: Row, remaining: set<Row>) {
    Leads(rows + [r], remaining) && Bytes(rows) + r.size > BYTE_BUDGET
  }

  /** What a page of a history is: the first rows still to come, as many as limit and budget allow, and a cursor exactly when some are left. */
  ghost predicate PageOf(page: Page, remaining: set<Row>, limit: nat) {
    if page.RowTooLarge? then exists r :: NoRoomFor([], r, remaining)
    else
      && Leads(page.rows, remaining) && Printable(page.rows) && |page.rows| <= limit <= MAX_PAGE && Bytes(page.rows) <= BYTE_BUDGET
      && (|page.rows| == 0 ==> remaining == {})
      && (page.next.None? <==> |page.rows| == |remaining|)
      && (page.next.Some? ==> |page.rows| > 0 && page.next.value == CursorOf(page.rows[|page.rows| - 1]))
      && (page.next.Some? ==> |page.rows| == limit || exists r :: NoRoomFor(page.rows, r, remaining))
  }

  /** What is still to come, the limit and the budget leave one page only. */
  lemma PageIsUnique(p: Page, q: Page, remaining: set<Row>, limit: nat)
    requires DistinctIds(remaining) && PageOf(p, remaining, limit) && PageOf(q, remaining, limit)
    ensures p == q
  {
    hide PageOf, DistinctIds;
    if p.RowTooLarge? && !q.RowTooLarge? {
      TooLargeOrNot(q, remaining, limit);
    } else if q.RowTooLarge? && !p.RowTooLarge? {
      TooLargeOrNot(p, remaining, limit);
    } else if !p.RowTooLarge? {
      NoShorterPage(p, q, remaining, limit);
      NoShorterPage(q, p, remaining, limit);
      SameRows(p, q, remaining, limit);
    }
  }

  lemma TooLargeOrNot(q: Page, remaining: set<Row>, limit: nat)
    requires DistinctIds(remaining) && PageOf(RowTooLarge, remaining, limit) && q.Page?
    ensures !PageOf(q, remaining, limit)
  {
    hide Less, Leads, Sorted, DistinctIds, Bytes;
    if PageOf(q, remaining, limit) {
      var r :| NoRoomFor([], r, remaining);
      NothingWeighs();
      FirstIsThere(r, remaining);
      FirstIs(r, q.rows, remaining);
    }
  }

  lemma FirstIs(r: Row, rows: seq<Row>, remaining: set<Row>)
    requires DistinctIds(remaining) && Leads([] + [r], remaining) && Leads(rows, remaining) && |rows| > 0
    ensures rows[0] == r
  {
    hide Less, Leads, DistinctIds;
    LeadsUnique([] + [r], rows, remaining);
    assert rows[..1][0] == rows[0];
  }

  lemma NothingWeighs()
    ensures Bytes([]) == 0
  {
  }

  lemma FirstIsThere(r: Row, remaining: set<Row>)
    requires Leads([] + [r], remaining)
    ensures r in remaining
  {
    hide Less;
    assert ([] + [r])[0] == r;
  }

  lemma NoShorterPage(p: Page, q: Page, remaining: set<Row>, limit: nat)
    requires DistinctIds(remaining) && PageOf(p, remaining, limit) && PageOf(q, remaining, limit) && p.Page? && q.Page?
    ensures |p.rows| >= |q.rows|
  {
    hide Less, Leads, Sorted, DistinctIds, Bytes;
    if |p.rows| < |q.rows| {
      LeadsSize(remaining, q.rows);
      var r :| NoRoomFor(p.rows, r, remaining);
      LeadsUnique(p.rows + [r], q.rows, remaining);
      BytesGrow(q.rows, |p.rows| + 1);
      BytesNext(p.rows, r);
    }
  }

  lemma {:induction false} BytesGrow(rows: seq<Row>, n: nat)
    requires n <= |rows|
    ensures Bytes(rows[..n]) <= Bytes(rows)
  {
    if n < |rows| {
      BytesGrow(rows[..|rows| - 1], n);
      assert rows[..|rows| - 1][..n] == rows[..n];
    } else {
      assert rows[..n] == rows;
    }
  }

  lemma BytesNext(rows: seq<Row>, r: Row)
    ensures Bytes(rows + [r]) == Bytes(rows) + r.size
  {
    assert (rows + [r])[..|rows|] == rows;
  }

  lemma SameRows(p: Page, q: Page, remaining: set<Row>, limit: nat)
    requires DistinctIds(remaining) && PageOf(p, remaining, limit) && PageOf(q, remaining, limit) && p.Page? && q.Page? && |p.rows| == |q.rows|
    ensures p == q
  {
    hide Less, Leads, Sorted, DistinctIds, Bytes, NoRoomFor;
    LeadsUnique(p.rows, q.rows, remaining);
    assert q.rows[..|p.rows|] == q.rows;
  }

  lemma PageMade(rows: seq<Row>, output: seq<Row>, remaining: set<Row>, limit: nat, more: bool)
    requires DistinctIds(remaining) && Leads(rows, remaining) && 0 < limit <= MAX_PAGE && |rows| <= limit
    requires more <==> |rows| < |remaining|
    requires (|rows| == 0 ==> remaining == {}) && (more ==> |rows| == limit)
    requires output <= rows && Printable(output) && Bytes(output) <= BYTE_BUDGET && (|rows| > 0 ==> |output| > 0)
    requires |output| < |rows| ==> Bytes(output) + rows[|output|].size > BYTE_BUDGET
    ensures PageOf(Page(output, if (more || |output| < |rows|) && |output| > 0 then Some(CursorOf(output[|output| - 1])) else None), remaining, limit)
  {
    hide Less, Bytes, Leads, Sorted, Printable;
    assert output == rows[..|output|];
    LeadsPrefix(rows, remaining, |output|);
    LeadsSize(remaining, rows);
    if |output| < |rows| {
      LeadsPrefix(rows, remaining, |output| + 1);
      assert rows[..|output| + 1] == output + [rows[|output|]];
      assert NoRoomFor(output, rows[|output|], remaining);
    }
  }

  lemma DistinctPart(ledger: set<Row>, part: set<Row>)
    requires DistinctIds(ledger) && part <= ledger
    ensures DistinctIds(part)
  {
  }

  lemma GatherNone(ledger: set<Row>, accounts: seq<string>, remaining: set<Row>, most: nat)
    ensures Gathered({}, ledger, accounts, 0, remaining, most)
  {
  }

  lemma RemainingParts(ledger: set<Row>, accounts: seq<string>, from: int, through: int, cursor: Option<Cursor>)
    ensures var remaining := Remaining(ledger, accounts, from, through, cursor);
            remaining <= ledger && forall r :: r in remaining ==> r.account in accounts[..|accounts|]
  {
    assert accounts[..|accounts|] == accounts;
  }

  /** The first rows of each account. */
  method GatherRows(ledger: set<Row>, accounts: seq<string>, from: int, through: int, cursor: Option<Cursor>, most: nat) returns (rows: set<Row>)
    requires DistinctIds(ledger) && OrdinaryIds(ledger)
    ensures Gathered(rows, ledger, accounts, |accounts|, Remaining(ledger, accounts, from, through, cursor), most)
  {
    hide *;
    ghost var remaining := Remaining(ledger, accounts, from, through, cursor);
    RemainingParts(ledger, accounts, from, through, cursor);
    DistinctPart(ledger, remaining);
    GatherNone(ledger, accounts, remaining, most);
    rows := {};
    for k := 0 to |accounts|
      invariant Gathered(rows, ledger, accounts, k, remaining, most)
    {
      var selected := Selected(ledger, accounts[k], from, through, HistoryAfter(accounts[k], cursor, from));
      SelectedRemains(ledger, accounts, from, through, cursor, accounts[k]);
      assert selected <= remaining;
      DistinctPart(remaining, selected);
      var part := Take(selected, most);
      GatherOne(rows, part, ledger, accounts, k, remaining, selected, most);
      rows := rows + RowsOf(part);
    }
  }

  /** One page: the first rows of each account, merged in order, cut to the limit and to the byte budget. */
  method ReadPage(ledger: set<Row>, accounts: seq<string>, from: int, through: int, limit: nat, cursor: Option<Cursor>) returns (page: Page)
    requires DistinctIds(ledger) && OrdinaryIds(ledger)
    ensures limit == 0 ==> page == Page([], None)
    ensures limit > 0 ==> PageOf(page, Remaining(ledger, accounts, from, through, cursor), PageSize(limit))
  {
    hide *;
    ghost var remaining := Remaining(ledger, accounts, from, through, cursor);
    RemainingParts(ledger, accounts, from, through, cursor);
    DistinctPart(ledger, remaining);
    var size := PageSize(limit);
    var rows := GatherRows(ledger, accounts, from, through, cursor, size + 1);
    GatheredWithin(rows, ledger, accounts, |accounts|, remaining, size + 1);
    DistinctPart(remaining, rows);
    var sorted := Take(rows, |rows|);
    MergedLeads(rows, remaining, sorted, size, ledger, accounts);
    var more := |sorted| > size;
    var kept := if more then sorted[..size] else sorted;
    if size == 0 {
      return Page([], None);
    }
    var output := CutToBudget(kept);
    if output.None? {
      TooLarge(kept, remaining, size);
      return RowTooLarge;
    }
    PageMade(kept, output.value, remaining, size, more);
    var last := |output.value|;
    page := Page(output.value, if (more || last < |kept|) && last > 0 then Some(CursorOf(output.value[last - 1])) else None);
  }

  lemma GatheredWithin(rows: set<Row>, ledger: set<Row>, accounts: seq<string>, k: nat, remaining: set<Row>, most: nat)
    requires Gathered(rows, ledger, accounts, k, remaining, most)
    ensures rows <= remaining
  {
  }

  lemma TooLarge(kept: seq<Row>, remaining: set<Row>, limit: nat)
    requires Leads(kept, remaining) && |kept| > 0 && kept[0].size > BYTE_BUDGET
    ensures PageOf(RowTooLarge, remaining, limit)
  {
    hide Less, Leads;
    LeadsPrefix(kept, remaining, 1);
    assert kept[..1] == [] + [kept[0]];
    assert NoRoomFor([], kept[0], remaining);
  }

  /** The merged rows, cut to the limit, lead everything still to come; more than the limit were found exactly when more are left. */
  lemma MergedLeads(rows: set<Row>, remaining: set<Row>, sorted: seq<Row>, size: nat, ledger: set<Row>, accounts: seq<string>)
    requires DistinctIds(remaining) && Gathered(rows, ledger, accounts, |accounts|, remaining, size + 1)
    requires forall r :: r in remaining ==> r.account in accounts[..|accounts|]
    requires FirstRows(sorted, rows, |rows|)
    ensures var kept := if |sorted| > size then sorted[..size] else sorted;
            && Leads(kept, remaining)
            && (|sorted| > size <==> |kept| < |remaining|)
            && (size > 0 && |kept| == 0 ==> remaining == {})
  {
    hide Less;
    hide Cut;
    LeadsFromParts(remaining, rows, sorted, size + 1);
    if |sorted| > size {
      LeadsPrefix(sorted[..size + 1], remaining, size);
      assert sorted[..size + 1][..size] == sorted[..size];
      SortedSize(remaining, sorted[..size + 1]);
    } else {
      assert sorted[..|sorted|] == sorted;
      SortedSize(remaining, sorted);
    }
  }

  // ---------- following the cursor ----------

  lemma RemainingAfter(ledger: set<Row>, accounts: seq<string>, from: int, through: int, output: seq<Row>)
    requires DistinctIds(ledger) && Leads(output, Matching(ledger, accounts, from, through)) && |output| > 0
    ensures Remaining(ledger, accounts, from, through, Some(CursorOf(output[|output| - 1]))) == Matching(ledger, accounts, from, through) - RowsOf(output)
  {
    hide Less;
    var all, last := Matching(ledger, accounts, from, through), output[|output| - 1];
    forall r | r in all ensures Beyond(r, Some(CursorOf(last))) <==> r !in output {
      SizeIgnored(last, r);
      if r in output {
        var k :| 0 <= k < |output| && output[k] == r;
        LessTotal(all, r, last);
      } else {
        assert AllLess(output, r);
      }
    }
  }

  lemma SizeIgnored(a: Row, r: Row)
    ensures Less(Row(a.time, a.account, a.id, 0), r) <==> Less(a, r)
  {
  }

  /** How far the reading has come: the output leads everything, and the cursor stands right behind it. */
  ghost predicate ReadSoFar(output: seq<Row>, ledger: set<Row>, accounts: seq<string>, from: int, through: int, cursor: Option<Cursor>) {
    var all := Matching(ledger, accounts, from, through);
    Leads(output, all) && Printable(output) && Remaining(ledger, accounts, from, through, cursor) == all - RowsOf(output) && |output| <= |all|
  }

  lemma ReadNothing(ledger: set<Row>, accounts: seq<string>, from: int, through: int)
    ensures ReadSoFar([], ledger, accounts, from, through, None)
  {
    assert RowsOf([]) == {};
  }

  /** One page further. */
  lemma ReadOnePage(output: seq<Row>, page: Page, ledger: set<Row>, accounts: seq<string>, from: int, through: int, cursor: Option<Cursor>, limit: nat)
    requires DistinctIds(ledger) && ReadSoFar(output, ledger, accounts, from, through, cursor)
    requires PageOf(page, Remaining(ledger, accounts, from, through, cursor), limit)
    ensures var all := Matching(ledger, accounts, from, through);
            if page.RowTooLarge? then exists r :: r in all && r.size > BYTE_BUDGET
            else
              var after := output + page.rows;
              && Sorted(after) && |after| <= |all|
              && (page.next.None? ==> RowsOf(after) == all && |after| == |all| && forall r :: r in all ==> r.size <= BYTE_BUDGET)
              && (page.next.Some? ==> ReadSoFar(after, ledger, accounts, from, through, page.next) && |after| > |output|)
  {
    hide Less, Beyond, Leads, DistinctIds, Remaining, Printable, Matching;
    var all := Matching(ledger, accounts, from, through);
    var remaining := Remaining(ledger, accounts, from, through, cursor);
    if page.RowTooLarge? {
      FirstTooLarge(remaining);
      StillMatching(all, remaining);
    } else {
      var after := output + page.rows;
      MatchingDistinct(ledger, accounts, from, through);
      LeadsAppend(output, page.rows, all, remaining);
      LeadsSize(all, after);
      PrintableBoth(output, page.rows);
      RowsOfBoth(output, page.rows);
      if page.next.None? {
        DistinctPart(all, remaining);
        LeadsAll(page.rows, remaining);
        LeadsSize(remaining, page.rows);
        LeadsSize(all, output);
        assert RowsOf(after) == all by {
          LeadsWithin(all, output);
        }
        PrintableAll(after, all);
      } else {
        assert after[|after| - 1] == page.rows[|page.rows| - 1];
        RemainingAfter(ledger, accounts, from, through, after);
      }
    }
  }

  lemma FirstTooLarge(remaining: set<Row>)
    ensures (exists r :: NoRoomFor([], r, remaining)) ==> exists r :: r in remaining && r.size > BYTE_BUDGET
  {
    hide Less;
    if r :| NoRoomFor([], r, remaining) {
      assert ([] + [r])[0] == r;
    }
  }

  lemma StillMatching(all: set<Row>, remaining: set<Row>)
    ensures remaining <= all && (exists r :: r in remaining && r.size > BYTE_BUDGET) ==> exists r :: r in all && r.size > BYTE_BUDGET
  {
  }

  lemma MatchingDistinct(ledger: set<Row>, accounts: seq<string>, from: int, through: int)
    requires DistinctIds(ledger)
    ensures DistinctIds(Matching(ledger, accounts, from, through))
  {
    DistinctPart(ledger, Matching(ledger, accounts, from, through));
  }

  lemma LeadsSize(s: set<Row>, q: seq<Row>)
    requires DistinctIds(s) && Leads(q, s)
    ensures Sorted(q) && |RowsOf(q)| == |q| <= |s|
  {
    hide Less;
    SortedSize(s, q);
  }

  lemma LeadsWithin(s: set<Row>, q: seq<Row>)
    requires Leads(q, s)
    ensures RowsOf(q) <= s
  {
    hide Less;
  }

  lemma PrintableBoth(p: seq<Row>, q: seq<Row>)
    requires Printable(p) && Printable(q)
    ensures Printable(p + q)
  {
  }

  lemma RowsOfBoth(p: seq<Row>, q: seq<Row>)
    ensures RowsOf(p + q) == RowsOf(p) + RowsOf(q)
  {
  }

  /** Reads page after page from the start until no cursor is left: on one snapshot every matching row exactly once, in order; the only
      way to fail is a row that no page can hold. */
  method ReadHistory(ledger: set<Row>, accounts: seq<string>, from: int, through: int, limit: nat) returns (history: Option<seq<Row>>)
    requires DistinctIds(ledger) && OrdinaryIds(ledger) && limit > 0
    ensures history.Some? ==>
              && Sorted(history.value) && RowsOf(history.value) == Matching(ledger, accounts, from, through)
              && |history.value| == |Matching(ledger, accounts, from, through)|
    ensures history.None? <==> exists r :: r in Matching(ledger, accounts, from, through) && r.size > BYTE_BUDGET
  {
    hide *;
    ghost var all := Matching(ledger, accounts, from, through);
    var output: seq<Row> := [];
    var cursor: Option<Cursor> := None;
    ReadNothing(ledger, accounts, from, through);
    while true
      invariant ReadSoFar(output, ledger, accounts, from, through, cursor)
      decreases |all| - |output|
    {
      var page := ReadPage(ledger, accounts, from, through, limit, cursor);
      ReadOnePage(output, page, ledger, accounts, from, through, cursor, PageSize(limit));
      if page.RowTooLarge? {
        return None;
      }
      output := output + page.rows;
      if page.next.None? {
        return Some(output);
      }
      cursor := page.next;
    }
  }

  lemma PrintableAll(output: seq<Row>, all: set<Row>)
    requires Printable(output) && RowsOf(output) == all
    ensures forall r :: r in all ==> r.size <= BYTE_BUDGET
  {
    assert forall r :: r in all ==> r in output;
  }

  /** With an empty id a row is lost: after the page ending at the first row, no account's query returns the second one. */
  lemma EmptyIdIsSkipped()
    ensures var first, second := Row(1, "a", "x", 1), Row(1, "b", "", 1);
            var ledger, cursor := {first, second}, Some(CursorOf(first));
            && DistinctIds(ledger) && Less(first, second)
            && second in Remaining(ledger, ["a", "b"], 0, 2, cursor)
            && forall account :: account in ["a", "b"] ==> second !in Selected(ledger, account, 0, 2, HistoryAfter(account, cursor, 0))
  {
    assert Before("a", "b") && !Before("b", "a");
  }

  /** With an id above the last code point a row comes twice: the page ending at the second row has had the first one, and its own
      account's query returns it again. */
  lemma HighIdIsRepeated()
    ensures var first, second := Row(1, "a", LAST_ID + "x", 1), Row(1, "b", "x", 1);
            var ledger, cursor := {first, second}, Some(CursorOf(second));
            && DistinctIds(ledger) && Less(first, second)
            && first !in Remaining(ledger, ["a", "b"], 0, 2, cursor)
            && first in Selected(ledger, "a", 0, 2, HistoryAfter("a", cursor, 0))
  {
    var id := LAST_ID + "x";
    assert Before("a", "b");
    assert id[1..] == "x" && LAST_ID[1..] == "";
    assert Before(LAST_ID, id);
    assert !Before("b", "a");
  }
}
