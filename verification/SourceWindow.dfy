/** Resumable windows over a venue's history: what a saved cursor means, and that no row is left behind. */
module SourceWindow {
  import opened Options
  import opened Amounts

  const PAGE := 100
  const I64_MIN: int := -0x8000_0000_0000_0000
  const I64_MAX: int := 0x7fff_ffff_ffff_ffff

  predicate I64(n: int) {
    I64_MIN <= n <= I64_MAX
  }

  /** `text` is empty once a window is complete; otherwise it names the window and the last row read. */
  datatype SourceCursor = SourceCursor(text: string, watermark: int)

  datatype Window = Window(completed: int, begin: int, end: int, after: string)

  // ---------- cursor texts ----------

  function PrintInt(n: int): string {
    if n < 0 then "-" + Print(0 - n) else Print(n)
  }

  /** Digits with an optional sign, within 64 bits. */
  function ParseInt(s: string): Option<int> {
    var negative := |s| > 0 && s[0] == '-';
    var digits := if |s| > 0 && (s[0] == '-' || s[0] == '+') then s[1..] else s;
    if |digits| == 0 || !AllDigits(digits) then None
    else
      var n := if negative then 0 - DigitsValue(digits) else DigitsValue(digits);
      if I64(n) then Some(n) else None
  }

  /** `s.split('|')`. */
  function SplitBar(s: string): (parts: seq<string>)
    ensures |parts| > 0
    decreases |s|
  {
    var i := IndexOf(s, '|');
    if i == |s| then [s] else [s[..i]] + SplitBar(s[i + 1..])
  }

  function CursorText(begin: int, end: int, id: string): string {
    PrintInt(begin) + "|" + PrintInt(end) + "|" + id
  }

  function ParseCursor(text: string): Option<(int, int, string)> {
    var p := SplitBar(text);
    if |p| != 3 then None
    else
      var begin, end := ParseInt(p[0]), ParseInt(p[1]);
      if begin.None? || end.None? then None else Some((begin.value, end.value, p[2]))
  }

  lemma PrintIntParses(n: int)
    requires I64(n)
    ensures ParseInt(PrintInt(n)) == Some(n) && '|' !in PrintInt(n) && |PrintInt(n)| > 0
  {
    if n < 0 {
      PrintValue(0 - n);
      assert PrintInt(n)[1..] == Print(0 - n);
      assert Print(0 - n)[0] != '-';
    } else {
      PrintValue(n);
      assert IsDigit(Print(n)[0]);
    }
  }

  lemma {:induction false} IndexBefore(a: string, b: string)
    requires '|' !in a
    ensures IndexOf(a + "|" + b, '|') == |a|
  {
    var s := a + "|" + b;
    if |a| > 0 {
      IndexBefore(a[1..], b);
      assert s[1..] == a[1..] + "|" + b;
      assert s[0] == a[0] && a[0] in a;
    }
  }

  lemma SplitHead(a: string, b: string)
    requires '|' !in a
    ensures SplitBar(a + "|" + b) == [a] + SplitBar(b)
  {
    IndexBefore(a, b);
    assert (a + "|" + b)[..|a|] == a && (a + "|" + b)[|a| + 1..] == b;
  }

  lemma {:induction false} SplitNone(id: string)
    ensures '|' !in id <==> |SplitBar(id)| == 1
    ensures '|' !in id ==> SplitBar(id) == [id]
  {
    FirstBar(id);
  }

  lemma {:induction false} FirstBar(s: string)
    ensures IndexOf(s, '|') <= |s|
    ensures IndexOf(s, '|') == |s| <==> '|' !in s
  {
    if |s| > 0 && s[0] != '|' {
      FirstBar(s[1..]);
      assert s == [s[0]] + s[1..];
    }
  }

  /** A printed cursor parses back to exactly its window and id when the id has no bar in it; with one it is never accepted. */
  lemma CursorRoundTrip(begin: int, end: int, id: string)
    requires I64(begin) && I64(end)
    ensures ParseCursor(CursorText(begin, end, id)) == if '|' in id then None else Some((begin, end, id))
    ensures CursorText(begin, end, id) != ""
  {
    PrintIntParses(begin);
    PrintIntParses(end);
    var rest := PrintInt(end) + "|" + id;
    assert CursorText(begin, end, id) == PrintInt(begin) + "|" + rest;
    SplitHead(PrintInt(begin), rest);
    SplitHead(PrintInt(end), id);
    SplitNone(id);
  }

  // ---------- opening and saving a window ----------

  function Max(a: int, b: int): int {
    if a > b then a else b
  }

  /** The window left pending, or a new one that overlaps the last by a millisecond. */
  function Resume(cursor: Option<SourceCursor>, t0: int, now: int): Option<Window> {
    if cursor.Some? && cursor.value.text != "" then
      match ParseCursor(cursor.value.text)
      case None => None
      case Some((begin, end, after)) => Some(Window(cursor.value.watermark, begin, end, after))
    else
      var completed := if cursor.Some? then cursor.value.watermark else t0;
      Some(Window(completed, Max(Max(completed, t0) - 1, t0), now, ""))
  }

  /** What is saved after a page: the window complete, or where to go on. A page that leads nowhere is refused. */
  function NextCursor(w: Window, lastId: Option<string>, complete: bool): Option<SourceCursor> {
    var id := lastId.GetOr("");
    if !complete && (id == "" || id == w.after) then None
    else if complete then Some(SourceCursor("", w.end))
    else Some(SourceCursor(CursorText(w.begin, w.end, id), w.completed))
  }

  /** A saved pending window is resumed just as it was, whatever the time has become; an id with a bar in it blocks it for good. */
  lemma PendingIsKept(w: Window, id: string, next: SourceCursor, t0: int, later: int)
    requires I64(w.begin) && I64(w.end) && NextCursor(w, Some(id), false) == Some(next)
    ensures Resume(Some(next), t0, later) == if '|' in id then None else Some(Window(w.completed, w.begin, w.end, id))
  {
    hide CursorText, ParseCursor;
    CursorRoundTrip(w.begin, w.end, id);
  }

  // ---------- the venue ----------

  /** A row has a key of its own; the venue's id for it, which a cursor names, may be missing. */
  datatype Row = Row(key: string, id: string, time: int)

  predicate InWindow(r: Row, w: Window) {
    w.begin <= r.time <= w.end
  }

  /** Newest first, the rows of the window among the first `n` to have appeared, at most `limit` of them, and where the reading stopped. */
  function Newest(rows: seq<Row>, n: nat, w: Window, limit: nat): (r: (seq<Row>, nat))
    requires n <= |rows|
    ensures |r.0| <= limit && r.1 <= n
    ensures forall i :: 0 <= i < |r.0| ==> r.0[i] in rows && InWindow(r.0[i], w)
    ensures forall i :: r.1 <= i < n && InWindow(rows[i], w) ==> rows[i] in r.0
    ensures |r.0| < limit ==> r.1 == 0
    ensures |r.0| > 0 && |r.0| == limit ==> r.1 < n && rows[r.1] == r.0[|r.0| - 1]
  {
    if n == 0 || limit == 0 then ([], if limit == 0 then n else 0)
    else if !InWindow(rows[n - 1], w) then Newest(rows, n - 1, w, limit)
    else if limit == 1 then ([rows[n - 1]], n - 1)
    else
      var rest := Newest(rows, n - 1, w, limit - 1);
      ([rows[n - 1]] + rest.0, rest.1)
  }

  /** Where the row with this id stands; the number of rows for no id. */
  function Place(rows: seq<Row>, id: string): (n: nat)
    ensures n <= |rows|
    ensures n < |rows| ==> rows[n].id == id
    ensures (exists i :: 0 <= i < |rows| && rows[i].id == id) ==> n < |rows|
  {
    if |rows| == 0 then 0 else if rows[0].id == id then 0 else 1 + Place(rows[1..], id)
  }

  predicate DistinctRows(rows: seq<Row>) {
    forall i, j :: 0 <= i < j < |rows| ==> rows[i].key != rows[j].key && (rows[i].id != "" ==> rows[i].id != rows[j].id)
  }

  // ---------- no gap ----------

  /** Every row that happened from `low` and before `high`, and appeared at `from` or later, has been taken in; so has one that happened
      exactly at `high`, if it is among the first `known` to appear. */
  predicate Covered(rows: seq<Row>, ingested: set<Row>, from: nat, low: int, high: int, known: nat) {
    forall i :: from <= i < |rows| && low <= rows[i].time && (rows[i].time < high || (rows[i].time == high && i < known)) ==> rows[i] in ingested
  }

  /** How many rows there were when the window that reached the watermark was opened, and when the pending one was. */
  datatype Marks = Marks(known: nat, atOpening: nat)

  /** What a saved cursor guarantees: everything up to its watermark, and the part of a pending window that has been read. */
  ghost predicate CursorInv(rows: seq<Row>, ingested: set<Row>, cursor: SourceCursor, t0: int, clock: int, marks: Marks) {
    && marks.known <= |rows| && marks.atOpening <= |rows|
    && Covered(rows, ingested, 0, t0, cursor.watermark, marks.known) && cursor.watermark <= clock
    && (cursor.text != "" ==> exists begin, end, n: nat :: PendingAt(rows, ingested, cursor, t0, clock, marks, begin, end, n))
  }

  /** A pending window starts no later than the watermark and has been read back to its `n`-th row. */
  ghost predicate PendingAt(rows: seq<Row>, ingested: set<Row>, cursor: SourceCursor, t0: int, clock: int, marks: Marks, begin: int, end: int, n: nat) {
    && n < |rows| && rows[n].id != "" && cursor.text == CursorText(begin, end, rows[n].id)
    && t0 <= begin <= Max(t0, cursor.watermark) && end <= clock && I64(begin) && I64(end)
    && Covered(rows, ingested, n, begin, end, marks.atOpening)
  }

  /** Later rows do not happen before the clock, so nothing a cursor guarantees comes undone. */
  lemma RowsAppear(rows: seq<Row>, more: seq<Row>, ingested: set<Row>, cursor: SourceCursor, t0: int, clock: int, marks: Marks)
    requires CursorInv(rows, ingested, cursor, t0, clock, marks)
    requires forall i :: 0 <= i < |more| ==> more[i].time >= clock
    ensures CursorInv(rows + more, ingested, cursor, t0, clock, marks)
  {
    hide CursorText;
    var all := rows + more;
    assert forall i :: 0 <= i < |rows| ==> all[i] == rows[i];
    assert Covered(all, ingested, 0, t0, cursor.watermark, marks.known);
    if cursor.text != "" {
      var begin, end, n: nat :| PendingAt(rows, ingested, cursor, t0, clock, marks, begin, end, n);
      assert PendingAt(all, ingested, cursor, t0, clock, marks, begin, end, n);
    }
  }

  /** A window as resumed: what has been read of it lies behind `n`. */
  ghost predicate WindowAt(rows: seq<Row>, ingested: set<Row>, w: Window, t0: int, now: int, marks: Marks, n: nat) {
    && n <= |rows| && marks.known <= |rows| && marks.atOpening <= |rows|
    && t0 <= w.begin <= Max(t0, w.completed) && w.end <= now && I64(w.begin) && I64(w.end)
    && (w.after == "" ==> n == |rows|) && (w.after != "" ==> n < |rows| && rows[n].id == w.after)
    && Covered(rows, ingested, 0, t0, w.completed, marks.known) && w.completed <= now
    && Covered(rows, ingested, n, w.begin, w.end, marks.atOpening)
  }

  /** A new window is opened on the rows there are now; before the first one nothing is known. */
  function MarksAt(rows: seq<Row>, cursor: Option<SourceCursor>, marks: Marks): Marks {
    if cursor.None? then Marks(0, |rows|) else if cursor.value.text == "" then marks.(atOpening := |rows|) else marks
  }

  /** The time may have stepped back since the cursor was saved; nothing the window rests on lies after `top`, the latest time seen. */
  lemma ResumedWindow(rows: seq<Row>, ingested: set<Row>, cursor: Option<SourceCursor>, t0: int, now: int, top: int, marks: Marks) returns (n: nat)
    requires I64(t0) && I64(now) && I64(top) && now <= top && t0 <= top && DistinctRows(rows)
    requires cursor.Some? ==> CursorInv(rows, ingested, cursor.value, t0, top, marks)
    requires Resume(cursor, t0, now).Some?
    ensures WindowAt(rows, ingested, Resume(cursor, t0, now).value, t0, top, MarksAt(rows, cursor, marks), n)
    ensures n == if Resume(cursor, t0, now).value.after == "" then |rows| else Place(rows, Resume(cursor, t0, now).value.after)
  {
    hide CursorText, ParseCursor;
    n := |rows|;
    if cursor.Some? && cursor.value.text != "" {
      var begin, end, k: nat :| PendingAt(rows, ingested, cursor.value, t0, top, marks, begin, end, k);
      CursorRoundTrip(begin, end, rows[k].id);
      n := k;
      assert rows[Place(rows, rows[k].id)].id == rows[k].id;
    }
  }

  /** The page closes the gap between where the window stood and where the reading stopped. */
  lemma PageCovers(rows: seq<Row>, ingested: set<Row>, w: Window, t0: int, now: int, marks: Marks, n: nat)
    requires WindowAt(rows, ingested, w, t0, now, marks, n)
    ensures var page, after := Newest(rows, n, w, PAGE), ingested + Taken(Newest(rows, n, w, PAGE).0, t0);
            && Covered(rows, after, page.1, w.begin, w.end, marks.atOpening) && Covered(rows, after, 0, t0, w.completed, marks.known)
            && (|page.0| < PAGE ==> Covered(rows, after, 0, t0, w.end, marks.atOpening))
  {
    var page := Newest(rows, n, w, PAGE);
    var after := ingested + Taken(page.0, t0);
    hide Newest;
    forall i | page.1 <= i < |rows| && w.begin <= rows[i].time && (rows[i].time < w.end || (rows[i].time == w.end && i < marks.atOpening))
      ensures rows[i] in after
    {
      if i < n {
        assert InWindow(rows[i], w);
      }
    }
    forall i | 0 <= i < |rows| && t0 <= rows[i].time && (rows[i].time < w.completed || (rows[i].time == w.completed && i < marks.known))
      ensures rows[i] in after
    {
      assert rows[i] in ingested;
    }
  }

  lemma PendingSaved(rows: seq<Row>, after: set<Row>, w: Window, t0: int, now: int, marks: Marks, n: nat, next: SourceCursor)
    requires n < |rows| && marks.known <= |rows| && marks.atOpening <= |rows|
    && t0 <= w.begin <= Max(t0, w.completed) && w.end <= now && I64(w.begin) && I64(w.end) && w.completed <= now
    requires Covered(rows, after, n, w.begin, w.end, marks.atOpening) && Covered(rows, after, 0, t0, w.completed, marks.known)
    requires NextCursor(w, Some(rows[n].id), false) == Some(next)
    ensures CursorInv(rows, after, next, t0, now, marks) && Captured(rows, after, w, next, t0, marks, false) && next.text != ""
  {
    hide CursorText, Covered;
    CursorRoundTrip(w.begin, w.end, rows[n].id);
    assert PendingAt(rows, after, next, t0, now, marks, w.begin, w.end, n);
  }

  /** After a page is taken in, the cursor saved for it guarantees what it should; completing a window leaves no gap before its end. */
  lemma PageTaken(rows: seq<Row>, ingested: set<Row>, w: Window, t0: int, now: int, marks: Marks, n: nat, next: SourceCursor)
    requires WindowAt(rows, ingested, w, t0, now, marks, n)
    requires var page := Newest(rows, n, w, PAGE);
             NextCursor(w, if |page.0| > 0 then Some(page.0[|page.0| - 1].id) else None, |page.0| < PAGE) == Some(next)
    ensures CursorInv(rows, ingested + Taken(Newest(rows, n, w, PAGE).0, t0), next, t0, now, Turned(marks, |Newest(rows, n, w, PAGE).0| < PAGE))
    ensures Captured(rows, ingested + Taken(Newest(rows, n, w, PAGE).0, t0), w, next, t0, marks, |Newest(rows, n, w, PAGE).0| < PAGE)
    ensures next.text == "" <==> |Newest(rows, n, w, PAGE).0| < PAGE
  {
    hide Newest, CursorText, Covered, Taken, PendingAt;
    PageCovers(rows, ingested, w, t0, now, marks, n);
    var page := Newest(rows, n, w, PAGE);
    if |page.0| == PAGE {
      PendingSaved(rows, ingested + Taken(page.0, t0), w, t0, now, marks, page.1, next);
    }
  }

  /** A completed window reaches the watermark with the rows it was opened on. */
  function Turned(marks: Marks, complete: bool): Marks {
    if complete then marks.(known := marks.atOpening) else marks
  }

  /** What a page leaves behind: a completed window covers everything up to its end, but for rows of that very millisecond that appeared
      after it was opened; a pending one goes on from another row. */
  ghost predicate Captured(rows: seq<Row>, ingested: set<Row>, w: Window, next: SourceCursor, t0: int, marks: Marks, complete: bool) {
    if complete then next == SourceCursor("", w.end) && Covered(rows, ingested, 0, t0, w.end, marks.atOpening)
    else exists id :: id != "" && id != w.after && NextCursor(w, Some(id), false) == Some(next)
  }

  /** The page that a window reads next. */
  function PageAt(rows: seq<Row>, w: Window): seq<Row> {
    Newest(rows, if w.after == "" then |rows| else Place(rows, w.after), w, PAGE).0
  }

  /** A full page that ends on no row, or on the very row it was to go on from. */
  predicate Stalled(page: seq<Row>, w: Window) {
    |page| == PAGE && (page[PAGE - 1].id == "" || page[PAGE - 1].id == w.after)
  }

  lemma NextOrStalled(rows: seq<Row>, w: Window)
    ensures var page := PageAt(rows, w);
            NextCursor(w, if |page| > 0 then Some(page[|page| - 1].id) else None, |page| < PAGE).None? <==> Stalled(page, w)
  {
    hide Newest, Place, CursorText;
  }

  /** What of a page is taken in: rows before the start of the account's history are not. */
  function Taken(page: seq<Row>, t0: int): set<Row> {
    set r | r in page && r.time >= t0
  }

  // ---------- capturing ----------

  /** One source partition: the venue's rows in order of appearance, what has been taken in, the saved cursor, and the latest time that
      any reading has seen. A reading may see an earlier time than the one before it. */
  class Source {
    const t0: int
    var rows: seq<Row>
    var ingested: set<Row>
    var cursor: Option<SourceCursor>
    var clock: int
    ghost var marks: Marks

    ghost predicate Valid()
      reads this
    {
      && I64(t0) && I64(clock) && t0 <= clock
      && DistinctRows(rows)
      && (cursor.Some? ==> CursorInv(rows, ingested, cursor.value, t0, clock, marks))
    }

    constructor (start: int, history: seq<Row>)
      requires I64(start) && DistinctRows(history)
      ensures Valid() && t0 == start && rows == history && cursor.None? && ingested == {}
    {
      t0, rows, ingested, cursor, clock, marks := start, history, {}, None, start, Marks(0, 0);
    }

    /** New rows appear at the venue; none happens before the last reading. */
    method Appear(more: seq<Row>)
      requires Valid() && DistinctRows(rows + more)
      requires forall i :: 0 <= i < |more| ==> more[i].time >= clock
      modifies `rows
      ensures Valid() && rows == old(rows) + more
    {
      if cursor.Some? {
        RowsAppear(rows, more, ingested, cursor.value, t0, clock, marks);
      }
      rows := rows + more;
    }

    /** Reads and takes in one page. Whatever fails leaves the cursor and what was taken in as they were. */
    method Capture(now: int, fails: bool) returns (result: Option<bool>)
      requires Valid() && I64(now)
      modifies `ingested, `cursor, `clock, `marks
      ensures Valid() && clock == Max(old(clock), now)
      ensures result.None? ==> ingested == old(ingested) && cursor == old(cursor) && marks == old(marks)
      ensures result.None? <==> fails || Resume(old(cursor), t0, now).None? || Stalled(PageAt(rows, Resume(old(cursor), t0, now).value), Resume(old(cursor), t0, now).value)
      ensures result.Some? ==> cursor.Some? && (cursor.value.text == "" <==> result.value) && old(ingested) <= ingested
      ensures result.Some? ==> ingested == old(ingested) + Taken(PageAt(rows, Resume(old(cursor), t0, now).value), t0)
      ensures result.Some? ==> marks == Turned(MarksAt(rows, old(cursor), old(marks)), result.value)
      ensures result.Some? ==>
                Resume(old(cursor), t0, now).Some? && Captured(rows, ingested, Resume(old(cursor), t0, now).value, cursor.value, t0, MarksAt(rows, old(cursor), old(marks)), result.value)
    {
      hide CursorInv, Resume, DistinctRows, WindowAt, NextCursor, Captured, Newest, Place, Taken, MarksAt, Turned, Stalled;
      if cursor.Some? {
        ClockMoves(rows, ingested, cursor.value, t0, clock, Max(clock, now), marks);
      }
      clock := Max(clock, now);
      var resumed := Resume(cursor, t0, now);
      if resumed.None? {
        return None;
      }
      var w := resumed.value;
      ghost var current := MarksAt(rows, cursor, marks);
      var at := ResumedWindow(rows, ingested, cursor, t0, now, clock, marks);
      var from := if w.after == "" then |rows| else Place(rows, w.after);
      var page := Newest(rows, from, w, PAGE);
      var complete := |page.0| < PAGE;
      var next := NextCursor(w, if |page.0| > 0 then Some(page.0[|page.0| - 1].id) else None, complete);
      NextOrStalled(rows, w);
      if next.None? || fails {
        return None;
      }
      PageTaken(rows, ingested, w, t0, clock, current, at, next.value);
      marks := Turned(current, complete);
      var taken := TakeIn(page.0);
      ingested := ingested + taken;
      cursor := Some(next.value);
      result := Some(complete);
    }

    /** The rows of a page that are kept. */
    method TakeIn(page: seq<Row>) returns (taken: set<Row>)
      ensures taken == Taken(page, t0)
    {
      taken := {};
      for n := 0 to |page|
        invariant taken == Taken(page[..n], t0)
      {
        assert page[..n + 1] == page[..n] + [page[n]];
        if page[n].time < t0 {
          continue;
        }
        taken := taken + {page[n]};
      }
      assert page[..|page|] == page;
    }

    lemma ClockMoves(rows: seq<Row>, ingested: set<Row>, c: SourceCursor, t0: int, clock: int, now: int, marks: Marks)
      requires CursorInv(rows, ingested, c, t0, clock, marks) && clock <= now
      ensures CursorInv(rows, ingested, c, t0, now, marks)
    {
      hide CursorText;
      if c.text != "" {
        var begin, end, n: nat :| PendingAt(rows, ingested, c, t0, clock, marks, begin, end, n);
        assert PendingAt(rows, ingested, c, t0, now, marks, begin, end, n);
      }
    }
  }
}
