/** The bounded window of finance observations: what a clean ten minutes stands for, and the nearest-rank percentiles beside it. */
module FinanceWindow {
  import opened Options

  const WINDOW: int := 600_000
  const CAPACITY: nat := 2048
  const MAX_TICK_GAP: int := 5000
  const MAX_SOURCE_AGE: int := 5000

  datatype Attempt = Attempt(at: int, generation: int, elapsed: nat, age: Option<int>, failed: bool)

  datatype State = NotProven | Failed | ObservedClean

  datatype Summary = Summary(state: State, samples: nat, failures: nat, stale: nat, gaps: nat, generationChanges: nat)

  predicate Chronological(s: seq<Attempt>) {
    forall i, j :: 0 <= i < j < |s| ==> s[i].at <= s[j].at
  }

  predicate Fresh(a: Attempt) {
    a.age.Some? && 0 <= a.age.value <= MAX_SOURCE_AGE
  }

  // ---------- the passes of a summary ----------

  /** The last sample at or before the start of the window. */
  function Anchor(s: seq<Attempt>, start: int): (r: Option<nat>)
    ensures r.Some? ==> r.value < |s| && s[r.value].at <= start && forall i :: r.value < i < |s| ==> s[i].at > start
    ensures r.None? ==> forall i :: 0 <= i < |s| ==> s[i].at > start
  {
    if |s| == 0 then None else if s[|s| - 1].at <= start then Some(|s| - 1) else Anchor(s[..|s| - 1], start)
  }

  /** The samples after the start and not after the end. */
  function Selected(s: seq<Attempt>, start: int, end: int): (r: seq<Attempt>)
    ensures forall i :: 0 <= i < |r| ==> r[i] in s && start < r[i].at <= end
  {
    if |s| == 0 then []
    else
      var a := s[|s| - 1];
      var before := Selected(s[..|s| - 1], start, end);
      if start < a.at <= end then before + [a] else before
  }

  /** How many samples up to now there are. */
  function Upto(s: seq<Attempt>, end: int): (n: nat)
    ensures n <= |s| && forall i :: n <= i < |s| ==> s[i].at > end
    ensures n > 0 ==> s[n - 1].at <= end
  {
    if |s| == 0 then 0 else if s[|s| - 1].at <= end then |s| else Upto(s[..|s| - 1], end)
  }

  /** Where the window's samples begin. */
  function From(s: seq<Attempt>, start: int): (n: nat)
    ensures n <= |s|
  {
    if Anchor(s, start).Some? then Anchor(s, start).value + 1 else 0
  }

  lemma LastStep(s: seq<Attempt>, start: int, end: int)
    requires |s| > 0
    ensures var n := |s| - 1;
            && From(s, start) == (if s[n].at <= start then |s| else From(s[..n], start))
            && Upto(s, end) == (if s[n].at <= end then |s| else Upto(s[..n], end))
            && Selected(s, start, end) == if start < s[n].at <= end then Selected(s[..n], start, end) + [s[n]] else Selected(s[..n], start, end)
  {
  }

  lemma UptoAll(s: seq<Attempt>, end: int)
    requires forall i :: 0 <= i < |s| ==> s[i].at <= end
    ensures Upto(s, end) == |s|
  {
  }

  /** In chronological order the selected samples are those right behind the anchor. */
  lemma {:induction false} SelectedIsSlice(s: seq<Attempt>, start: int, end: int)
    requires Chronological(s) && start <= end
    ensures From(s, start) <= Upto(s, end) && Selected(s, start, end) == s[From(s, start)..Upto(s, end)]
  {
    hide Anchor, Upto, Selected, From, Chronological;
    if |s| > 0 {
      var n := |s| - 1;
      var before := s[..n];
      LastStep(s, start, end);
      LastIsLatest(s, before);
      SelectedIsSlice(before, start, end);
      if s[n].at <= start {
        SelectedNone(before, start, end);
      } else if s[n].at <= end {
        UptoAll(before, end);
        SliceStep(s, From(before, start), n);
      } else {
        SliceOfPrefix(s, n, From(before, start), Upto(before, end));
      }
    } else {
      Nothing(s, start, end);
    }
  }

  lemma SliceOfPrefix<T>(s: seq<T>, n: nat, a: nat, b: nat)
    requires a <= b <= n <= |s|
    ensures s[..n][a..b] == s[a..b]
  {
  }

  lemma SliceStep<T>(s: seq<T>, a: nat, n: nat)
    requires a <= n && |s| == n + 1
    ensures s[..n][a..n] + [s[n]] == s[a..n + 1]
  {
  }

  lemma Nothing(s: seq<Attempt>, start: int, end: int)
    requires |s| == 0
    ensures Selected(s, start, end) == [] && From(s, start) == 0 == Upto(s, end)
  {
  }

  lemma LastIsLatest(s: seq<Attempt>, before: seq<Attempt>)
    requires Chronological(s) && |s| > 0 && before == s[..|s| - 1]
    ensures Chronological(before) && forall i :: 0 <= i < |before| ==> before[i].at <= s[|s| - 1].at
  {
  }

  lemma {:induction false} SelectedNone(s: seq<Attempt>, start: int, end: int)
    requires forall i :: 0 <= i < |s| ==> s[i].at <= start
    ensures Selected(s, start, end) == []
  {
    if |s| > 0 {
      SelectedNone(s[..|s| - 1], start, end);
    }
  }

  /** The sample before the `n`-th selected one. */
  function Before(previous: Option<Attempt>, s: seq<Attempt>, n: nat): Option<Attempt>
    requires n <= |s|
  {
    if n == 0 then previous else Some(s[n - 1])
  }

  predicate GapBefore(previous: Option<Attempt>, s: seq<Attempt>, n: nat)
    requires n < |s|
  {
    Before(previous, s, n).Some? && s[n].at - Before(previous, s, n).value.at > MAX_TICK_GAP
  }

  predicate ChangeBefore(previous: Option<Attempt>, s: seq<Attempt>, n: nat)
    requires n < |s|
  {
    Before(previous, s, n).Some? && s[n].generation != Before(previous, s, n).value.generation
  }

  predicate StaleAt(s: seq<Attempt>, n: nat)
    requires n < |s|
  {
    !s[n].failed && !Fresh(s[n])
  }

  /** What may be held against a sample. */
  datatype Fault = Gap | Change | Failure | Stale

  predicate Faulty(first: Option<Attempt>, s: seq<Attempt>, n: nat, fault: Fault)
    requires n < |s|
  {
    match fault
    case Gap => GapBefore(first, s, n)
    case Change => ChangeBefore(first, s, n)
    case Failure => s[n].failed
    case Stale => StaleAt(s, n)
  }

  /** Which of the first `n` samples have this fault. */
  function Faults(first: Option<Attempt>, s: seq<Attempt>, n: nat, fault: Fault): set<nat>
    requires n <= |s|
  {
    set k: nat | k < n && Faulty(first, s, k, fault)
  }

  lemma FaultsNext(first: Option<Attempt>, s: seq<Attempt>, n: nat, fault: Fault)
    requires n < |s|
    ensures |Faults(first, s, n + 1, fault)| == |Faults(first, s, n, fault)| + if Faulty(first, s, n, fault) then 1 else 0
  {
    hide Faulty;
    var before := Faults(first, s, n, fault);
    assert n !in before;
    assert Faults(first, s, n + 1, fault) == if Faulty(first, s, n, fault) then before + {n} else before;
  }

  lemma NoFaults(first: Option<Attempt>, s: seq<Attempt>, n: nat, fault: Fault)
    requires n <= |s|
    ensures |Faults(first, s, n, fault)| == 0 <==> forall k :: 0 <= k < n ==> !Faulty(first, s, k, fault)
  {
    hide Faulty;
    var f := Faults(first, s, n, fault);
    if |f| == 0 {
      forall k | 0 <= k < n ensures !Faulty(first, s, k, fault) {
        assert k !in f;
      }
    } else {
      var k :| k in f;
      assert Faulty(first, s, k, fault);
    }
  }

  // ---------- the window ----------

  /** What a clean window has seen: a sample no later than its start, and from it to now samples at most five seconds apart, all
      successful, fresh, and of one source generation. */
  ghost predicate Clean(s: seq<Attempt>, now: int) {
    && Anchor(s, now - WINDOW).Some? && Upto(s, now) > Anchor(s, now - WINDOW).value + 1
    && now - s[Upto(s, now) - 1].at <= MAX_TICK_GAP
    && forall i :: Anchor(s, now - WINDOW).value < i < Upto(s, now) ==> CleanAt(s, i)
  }

  predicate CleanAt(s: seq<Attempt>, i: nat)
    requires 0 < i < |s|
  {
    && !s[i].failed && Fresh(s[i])
    && s[i].at - s[i - 1].at <= MAX_TICK_GAP && s[i].generation == s[i - 1].generation
  }

  /** The samples kept are the latest of the log. */
  ghost predicate Suffix(s: seq<Attempt>, log: seq<Attempt>) {
    |s| <= |log| && s == log[|log| - |s|..]
  }

  /** The samples kept after one more attempt. */
  function Recorded(s: seq<Attempt>, a: Attempt): seq<Attempt> {
    var kept := if |s| > 0 && a.at < s[|s| - 1].at then [a] else s + [a];
    if |kept| > CAPACITY then kept[1..] else kept
  }

  /** The samples kept after a whole log of attempts. */
  function Replay(log: seq<Attempt>): seq<Attempt> {
    if |log| == 0 then [] else Recorded(Replay(log[..|log| - 1]), log[|log| - 1])
  }

  lemma RecordedLength(s: seq<Attempt>, a: Attempt)
    requires |s| <= CAPACITY
    ensures |Recorded(s, a)| == if |s| > 0 && a.at < s[|s| - 1].at then 1 else if |s| < CAPACITY then |s| + 1 else CAPACITY
  {
  }

  lemma RecordedIsChronological(s: seq<Attempt>, a: Attempt)
    requires Chronological(s)
    ensures Chronological(Recorded(s, a))
  {
    var kept := s + [a];
    if |s| == 0 || s[|s| - 1].at <= a.at {
      assert Chronological(kept);
      assert Chronological(kept[1..]);
    }
  }

  lemma RecordedIsSuffix(s: seq<Attempt>, before: seq<Attempt>, a: Attempt)
    requires Suffix(s, before)
    ensures Suffix(Recorded(s, a), before + [a])
  {
    var log := before + [a];
    assert log[|log| - |s| - 1..] == s + [a];
    assert log[|log| - |s|..] == (s + [a])[1..];
    assert log[|log| - 1..] == [a];
  }

  lemma ReplayStep(log: seq<Attempt>, before: seq<Attempt>)
    requires |log| == |before| + 1 && before == log[..|before|]
    ensures Replay(log) == Recorded(Replay(before), log[|before|]) && log == before + [log[|before|]]
  {
    hide Recorded;
  }

  lemma {:induction false} ReplayIsSuffix(log: seq<Attempt>)
    ensures |Replay(log)| <= CAPACITY && Chronological(Replay(log)) && Suffix(Replay(log), log)
    ensures |log| > 0 ==> |Replay(log)| > 0
  {
    hide Recorded, Chronological, Suffix, Replay;
    if |log| == 0 {
      ReplayNothing(log);
    } else {
      var before := log[..|log| - 1];
      ReplayIsSuffix(before);
      ReplayStep(log, before);
      RecordedLength(Replay(before), log[|before|]);
      RecordedIsChronological(Replay(before), log[|before|]);
      RecordedIsSuffix(Replay(before), before, log[|before|]);
    }
  }

  lemma ReplayNothing(log: seq<Attempt>)
    requires |log| == 0
    ensures Replay(log) == [] && Chronological(Replay(log)) && Suffix(Replay(log), log)
  {
  }

  /** The clock did not go back for the `j`-th attempt. */
  predicate NotBack(log: seq<Attempt>, j: nat)
    requires 0 < j < |log|
  {
    log[j - 1].at <= log[j].at
  }

  /** Nor for any after the `k`-th. */
  predicate NeverBack(log: seq<Attempt>, k: nat) {
    forall j :: k < j < |log| ==> NotBack(log, j)
  }

  lemma NeverBackStep(log: seq<Attempt>, before: seq<Attempt>, k: nat)
    requires k < |before| && |log| == |before| + 1 && before == log[..|before|]
    ensures NeverBack(log, k) <==> NeverBack(before, k) && NotBack(log, |before|)
  {
    assert forall j :: k < j < |before| ==> (NotBack(before, j) <==> NotBack(log, j));
  }

  /** What one more attempt leaves of a log. */
  lemma ReplayLength(log: seq<Attempt>, before: seq<Attempt>)
    requires |before| > 0 && |log| == |before| + 1 && before == log[..|before|]
    ensures var s := Replay(before);
            && 0 < |s| <= CAPACITY
            && |Replay(log)| == if !NotBack(log, |before|) then 1 else if |s| < CAPACITY then |s| + 1 else CAPACITY
  {
    hide Recorded, Chronological, Replay;
    ReplayIsSuffix(before);
    ReplayStep(log, before);
    RecordedLength(Replay(before), log[|before|]);
    assert Replay(before)[|Replay(before)| - 1] == before[|before| - 1] == log[|before| - 1];
  }

  /** An attempt is still kept exactly when the clock has not gone back since and it is among the latest 2048. */
  lemma {:induction false} KeptExactly(log: seq<Attempt>, k: nat)
    requires k < |log|
    ensures k >= |log| - |Replay(log)| <==> |log| - k <= CAPACITY && NeverBack(log, k)
  {
    var before := log[..|log| - 1];
    if k < |before| {
      hide Replay, NeverBack, NotBack;
      KeptExactly(before, k);
      NeverBackStep(log, before, k);
      ReplayLength(log, before);
    } else {
      hide Replay, Chronological, Suffix;
      ReplayIsSuffix(log);
    }
  }

  lemma ReplayGoesOn(log: seq<Attempt>, a: Attempt)
    ensures Replay(log + [a]) == Recorded(Replay(log), a) && Chronological(Replay(log + [a]))
  {
    hide Recorded, Chronological, Suffix, Replay;
    ReplayStep(log + [a], log);
    ReplayIsSuffix(log + [a]);
  }

  class Window {
    var samples: seq<Attempt>
    ghost var log: seq<Attempt>

    ghost predicate Valid()
      reads this
    {
      samples == Replay(log) && Chronological(samples)
    }

    constructor ()
      ensures Valid() && samples == [] && log == []
    {
      samples, log := [], [];
    }

    /** Adds an attempt; a clock that went back discards what came before, and the oldest goes when the window is full. */
    method Record(a: Attempt)
      requires Valid()
      modifies this
      ensures Valid() && log == old(log) + [a] && samples == Recorded(old(samples), a)
    {
      ReplayGoesOn(log, a);
      if |samples| > 0 && a.at < samples[|samples| - 1].at {
        samples := [];
      }
      samples := samples + [a];
      log := log + [a];
      if |samples| > CAPACITY {
        samples := samples[1..];
      }
    }

    /** The summary of the ten minutes up to now. */
    method Summarize(now: int) returns (summary: Summary)
      requires Valid()
      ensures summary.samples == |Selected(samples, now - WINDOW, now)|
      ensures summary.state.ObservedClean? <==> Clean(samples, now)
      ensures summary.state.NotProven? <==>
                !(Anchor(samples, now - WINDOW).Some? && Upto(samples, now) > Anchor(samples, now - WINDOW).value + 1
                  && now - samples[Upto(samples, now) - 1].at <= MAX_TICK_GAP)
      ensures var first, s := Previous(samples, now - WINDOW), Selected(samples, now - WINDOW, now);
              && summary.gaps == |Faults(first, s, |s|, Gap)| && summary.generationChanges == |Faults(first, s, |s|, Change)|
              && summary.failures == |Faults(first, s, |s|, Failure)| && summary.stale == |Faults(first, s, |s|, Stale)|
    {
      hide Anchor, Upto, Selected, Chronological, Suffix, Spotless, Faulty, Faults, CleanAt;
      var start := now - WINDOW;
      var anchor := Anchor(samples, start);
      var selected := Selected(samples, start, now);
      var first := Previous(samples, start);
      var gaps, changes := CountBreaks(first, selected);
      var failures, stale := CountFaults(first, selected);
      NothingCounted(first, selected);
      var last := Before(first, selected, |selected|);
      var lastIsFresh := last.Some? && last.value.at <= now && now - last.value.at <= MAX_TICK_GAP;
      var covered := anchor.Some? && lastIsFresh && |selected| > 0;
      CoveredIs(samples, now, selected);
      if covered {
        CleanIs(samples, now, selected);
      }
      var state := if !covered then NotProven else if failures > 0 || stale > 0 || gaps > 0 || changes > 0 then Failed else ObservedClean;
      summary := Summary(state, |selected|, failures, stale, gaps, changes);
    }
  }

  /** The sample the window starts from. */
  function Previous(s: seq<Attempt>, start: int): Option<Attempt> {
    if Anchor(s, start).Some? then Some(s[Anchor(s, start).value]) else None
  }

  lemma CoveredIs(s: seq<Attempt>, now: int, selected: seq<Attempt>)
    requires Chronological(s) && selected == Selected(s, now - WINDOW, now)
    ensures Anchor(s, now - WINDOW).Some? ==>
              && (|selected| > 0 <==> Upto(s, now) > Anchor(s, now - WINDOW).value + 1)
              && (|selected| > 0 ==> selected[|selected| - 1] == s[Upto(s, now) - 1])
  {
    hide Anchor, Upto, Selected, Chronological;
    SelectedIsSlice(s, now - WINDOW, now);
  }

  /** A sample with nothing to count against it. */
  predicate Spotless(previous: Option<Attempt>, selected: seq<Attempt>, n: nat)
    requires n < |selected|
  {
    !GapBefore(previous, selected, n) && !ChangeBefore(previous, selected, n) && !selected[n].failed && !StaleAt(selected, n)
  }

  lemma SpotlessIsClean(s: seq<Attempt>, a: nat, selected: seq<Attempt>, n: nat)
    requires a + 1 + |selected| <= |s| && selected == s[a + 1..a + 1 + |selected|] && n < |selected|
    ensures Spotless(Some(s[a]), selected, n) <==> CleanAt(s, a + 1 + n)
  {
    assert selected[n] == s[a + 1 + n];
    if n > 0 {
      assert selected[n - 1] == s[a + n];
    }
  }

  /** Nothing was counted exactly when every selected sample is clean. */
  lemma CleanIs(s: seq<Attempt>, now: int, selected: seq<Attempt>)
    requires Chronological(s) && selected == Selected(s, now - WINDOW, now) && Anchor(s, now - WINDOW).Some?
    ensures var a := Anchor(s, now - WINDOW).value;
            (forall n :: 0 <= n < |selected| ==> Spotless(Some(s[a]), selected, n)) <==> forall i :: a < i < Upto(s, now) ==> CleanAt(s, i)
  {
    hide Anchor, Upto, Selected, Chronological, Spotless, CleanAt;
    SelectedIsSlice(s, now - WINDOW, now);
    var a := Anchor(s, now - WINDOW).value;
    forall n | 0 <= n < |selected| ensures Spotless(Some(s[a]), selected, n) <==> CleanAt(s, a + 1 + n) {
      SpotlessIsClean(s, a, selected, n);
    }
    if forall n :: 0 <= n < |selected| ==> Spotless(Some(s[a]), selected, n) {
      forall i | a < i < Upto(s, now) ensures CleanAt(s, i) {
        assert Spotless(Some(s[a]), selected, i - a - 1);
      }
    }
  }

  /** Nothing is counted exactly when every sample is spotless. */
  lemma NothingCounted(first: Option<Attempt>, s: seq<Attempt>)
    ensures (|Faults(first, s, |s|, Gap)| == 0 && |Faults(first, s, |s|, Change)| == 0 && |Faults(first, s, |s|, Failure)| == 0 && |Faults(first, s, |s|, Stale)| == 0)
            <==> forall n :: 0 <= n < |s| ==> Spotless(first, s, n)
  {
    hide Faults, Faulty, Spotless;
    NoFaults(first, s, |s|, Gap);
    NoFaults(first, s, |s|, Change);
    NoFaults(first, s, |s|, Failure);
    NoFaults(first, s, |s|, Stale);
    forall n | 0 <= n < |s|
      ensures Spotless(first, s, n) <==>
                !Faulty(first, s, n, Gap) && !Faulty(first, s, n, Change) && !Faulty(first, s, n, Failure) && !Faulty(first, s, n, Stale)
    {
      SpotlessIs(first, s, n);
    }
  }

  lemma SpotlessIs(first: Option<Attempt>, s: seq<Attempt>, n: nat)
    requires n < |s|
    ensures Spotless(first, s, n) <==>
              !Faulty(first, s, n, Gap) && !Faulty(first, s, n, Change) && !Faulty(first, s, n, Failure) && !Faulty(first, s, n, Stale)
  {
  }

  /** How often consecutive samples are too far apart, and of different generations. */
  method CountBreaks(first: Option<Attempt>, selected: seq<Attempt>) returns (gaps: nat, changes: nat)
    ensures gaps == |Faults(first, selected, |selected|, Gap)| && changes == |Faults(first, selected, |selected|, Change)|
  {
    hide Faults;
    var previous := first;
    gaps, changes := 0, 0;
    NoFaults(first, selected, 0, Gap);
    NoFaults(first, selected, 0, Change);
    for n := 0 to |selected|
      invariant previous == Before(first, selected, n)
      invariant gaps == |Faults(first, selected, n, Gap)| && changes == |Faults(first, selected, n, Change)|
    {
      FaultsNext(first, selected, n, Gap);
      FaultsNext(first, selected, n, Change);
      var sample := selected[n];
      if previous.Some? {
        if sample.at - previous.value.at > MAX_TICK_GAP {
          gaps := gaps + 1;
        }
        if sample.generation != previous.value.generation {
          changes := changes + 1;
        }
      }
      previous := Some(sample);
    }
  }

  /** How many attempts failed, and how many successful ones had no fresh source. */
  method CountFaults(first: Option<Attempt>, selected: seq<Attempt>) returns (failures: nat, stale: nat)
    ensures failures == |Faults(first, selected, |selected|, Failure)| && stale == |Faults(first, selected, |selected|, Stale)|
  {
    hide Faults;
    failures, stale := 0, 0;
    NoFaults(first, selected, 0, Failure);
    NoFaults(first, selected, 0, Stale);
    for n := 0 to |selected|
      invariant failures == |Faults(first, selected, n, Failure)| && stale == |Faults(first, selected, n, Stale)|
    {
      FaultsNext(first, selected, n, Failure);
      FaultsNext(first, selected, n, Stale);
      if selected[n].failed {
        failures := failures + 1;
      } else if !Fresh(selected[n]) {
        stale := stale + 1;
      }
    }
  }

  // ---------- what a clean window stands for ----------

  /** At every moment of a clean window there was a sample in the five seconds before. */
  lemma NoUncoveredGap(s: seq<Attempt>, now: int, moment: int)
    requires Chronological(s) && Clean(s, now) && now - WINDOW <= moment <= now
    ensures exists i :: 0 <= i < |s| && s[i].at <= moment <= s[i].at + MAX_TICK_GAP
  {
    var a := Anchor(s, now - WINDOW).value;
    var i := LastBefore(s, a, moment);
    if i + 1 < Upto(s, now) {
      assert CleanAt(s, i + 1);
    } else {
      assert s[i].at >= s[Upto(s, now) - 1].at;
    }
    assert s[i].at <= moment <= s[i].at + MAX_TICK_GAP;
  }

  /** The last sample at or before a moment. */
  lemma {:induction false} LastBefore(s: seq<Attempt>, a: nat, moment: int) returns (i: nat)
    requires Chronological(s) && a < |s| && s[a].at <= moment
    ensures a <= i < |s| && s[i].at <= moment && (i + 1 < |s| ==> s[i + 1].at > moment)
    decreases |s| - a
  {
    i := a;
    if a + 1 < |s| && s[a + 1].at <= moment {
      i := LastBefore(s, a + 1, moment);
    }
  }

  /** All samples of a clean window, its anchor included, are of one generation. */
  lemma {:induction false} OneGeneration(s: seq<Attempt>, now: int, i: nat)
    requires Clean(s, now) && Anchor(s, now - WINDOW).value <= i < Upto(s, now)
    ensures s[i].generation == s[Anchor(s, now - WINDOW).value].generation
    decreases i
  {
    if i > Anchor(s, now - WINDOW).value {
      OneGeneration(s, now, i - 1);
      assert CleanAt(s, i);
    }
  }

  lemma {:induction false} NeverBackOrders(log: seq<Attempt>, k: nat, j: nat)
    requires NeverBack(log, k) && k <= j < |log|
    ensures log[k].at <= log[j].at
    decreases j - k
  {
    if k < j {
      NeverBackOrders(log, k, j - 1);
      assert NotBack(log, j);
    }
  }

  /** Where the clock has not gone back since an attempt, and the attempt lies in a clean window, it neither failed nor was stale: the
      bounded memory cannot have forgotten it. */
  lemma NothingForgotten(log: seq<Attempt>, now: int, k: nat)
    requires Clean(Replay(log), now) && k < |log| && NeverBack(log, k) && now - WINDOW < log[k].at <= now
    ensures !log[k].failed && Fresh(log[k])
  {
    hide Replay, Suffix, NeverBack;
    var s := Replay(log);
    ReplayIsSuffix(log);
    var offset, a := |log| - |s|, Anchor(s, now - WINDOW).value;
    InLog(s, log, a);
    if k <= offset + a {
      NeverBackOrders(log, k, offset + a);
    }
    InLog(s, log, k - offset);
    assert k - offset < Upto(s, now);
    assert CleanAt(s, k - offset);
  }

  lemma InLog(s: seq<Attempt>, log: seq<Attempt>, i: nat)
    requires Suffix(s, log) && i < |s|
    ensures log[|log| - |s| + i] == s[i]
  {
  }

  /** Where it has gone back since, what became of the attempt leaves no trace: any other outcome at that time leaves the same samples. */
  lemma ForgottenLeavesNoTrace(log: seq<Attempt>, k: nat, other: Attempt)
    requires k < |log| && !NeverBack(log, k) && other.at == log[k].at
    ensures Replay(log[k := other]) == Replay(log)
  {
    hide Replay, NeverBack, CAPACITY;
    var changed := log[k := other];
    ReplayIsSuffix(log);
    ReplayIsSuffix(changed);
    SameTimesSameLength(log, changed);
    KeptExactly(log, k);
    var n := |Replay(log)|;
    assert changed[|log| - n..] == log[|log| - n..];
  }

  /** How many samples are kept depends on the times alone. */
  lemma SameTimesSameLength(log: seq<Attempt>, changed: seq<Attempt>)
    requires |changed| == |log| > 0 && forall j :: 0 <= j < |log| ==> changed[j].at == log[j].at
    ensures |Replay(changed)| == |Replay(log)|
  {
    hide Replay, Suffix, Chronological;
    ReplayIsSuffix(log);
    ReplayIsSuffix(changed);
    SuffixFits(Replay(log), log);
    SuffixFits(Replay(changed), changed);
    var j, k := |log| - |Replay(log)|, |log| - |Replay(changed)|;
    KeptExactly(log, j);
    KeptExactly(changed, j);
    KeptExactly(log, k);
    KeptExactly(changed, k);
    SameTimes(log, changed, j);
    SameTimes(log, changed, k);
  }

  lemma SuffixFits(s: seq<Attempt>, log: seq<Attempt>)
    requires Suffix(s, log)
    ensures |s| <= |log|
  {
  }

  lemma SameTimes(log: seq<Attempt>, changed: seq<Attempt>, k: nat)
    requires |changed| == |log| && forall j :: 0 <= j < |log| ==> changed[j].at == log[j].at
    ensures NeverBack(log, k) <==> NeverBack(changed, k)
  {
    assert forall j :: 0 < j < |log| ==> (NotBack(log, j) <==> NotBack(changed, j));
  }

  /** So a failure can vanish: put a failed attempt at this very moment before the samples of any clean window, and the same samples are kept. */
  lemma ForgottenWhenClockGoesBack(log: seq<Attempt>, now: int)
    requires Chronological(log) && |log| <= CAPACITY && Clean(log, now)
    ensures var lost := Attempt(now, 0, 0, None, true);
            lost.failed && now - WINDOW < lost.at <= now && Replay(log) == log == Replay([lost] + log)
  {
    hide Replay, Anchor, Upto;
    var lost := Attempt(now, 0, 0, None, true);
    assert |log| > 0 && log[0].at < lost.at by {
      assert log[0].at <= log[Anchor(log, now - WINDOW).value].at;
    }
    ReplayIsSuffix(log);
    ReplayIsSuffix([lost] + log);
    SteadyIsKept(log);
    BackIsForgotten(lost, log);
  }

  lemma SteadyIsKept(log: seq<Attempt>)
    requires Chronological(log) && 0 < |log| <= CAPACITY
    ensures |Replay(log)| >= |log|
  {
    hide Replay;
    assert forall j :: 0 < j < |log| ==> NotBack(log, j);
    KeptExactly(log, 0);
  }

  lemma BackIsForgotten(lost: Attempt, log: seq<Attempt>)
    requires Chronological(log) && 0 < |log| <= CAPACITY && log[0].at < lost.at
    ensures |Replay([lost] + log)| == |log|
  {
    hide Replay;
    var longer := [lost] + log;
    assert !NotBack(longer, 1);
    KeptExactly(longer, 0);
    assert forall j :: 1 < j < |longer| ==> NotBack(longer, j);
    KeptExactly(longer, 1);
    ReplayIsSuffix(longer);
  }

  /** One fresh sample every five seconds, `n` of them. */
  function Ticks(n: nat): (log: seq<Attempt>)
    ensures |log| == n && forall i :: 0 <= i < n ==> log[i] == Attempt(i * MAX_TICK_GAP, 1, 0, Some(0), false)
  {
    seq(n, i => Attempt(i * MAX_TICK_GAP, 1, 0, Some(0), false))
  }

  /** Ten minutes of such samples make a clean window, also when a failed attempt of its last moment came before a step back of the clock. */
  lemma TicksAreClean()
    ensures Chronological(Ticks(121)) && Clean(Ticks(121), WINDOW)
    ensures Replay([Attempt(WINDOW, 0, 0, None, true)] + Ticks(121)) == Ticks(121)
  {
    hide Ticks, Anchor, Upto, Clean, Replay;
    CleanTicks();
    ForgottenWhenClockGoesBack(Ticks(121), WINDOW);
  }

  lemma CleanTicks()
    ensures Chronological(Ticks(121)) && Clean(Ticks(121), WINDOW)
  {
    hide Ticks, Anchor, Upto;
    var log := Ticks(121);
    assert log[0].at == 0;
    assert log[120].at == WINDOW;
    assert Anchor(log, 0) == Some(0);
    assert Upto(log, WINDOW) == 121;
    assert forall i :: 0 < i < 121 ==> CleanAt(log, i);
  }

  // ---------- percentiles ----------

  predicate Sorted(v: seq<nat>) {
    forall i, j :: 0 <= i < j < |v| ==> v[i] <= v[j]
  }

  /** How many values are at most `x`. */
  function AtMost(v: seq<nat>, x: nat): nat {
    if |v| == 0 then 0 else AtMost(v[..|v| - 1], x) + if v[|v| - 1] <= x then 1 else 0
  }

  function Insert(v: seq<nat>, x: nat): seq<nat> {
    if |v| == 0 || x <= v[0] then [x] + v else [v[0]] + Insert(v[1..], x)
  }

  lemma {:induction false} InsertKeeps(v: seq<nat>, x: nat)
    ensures multiset(Insert(v, x)) == multiset(v) + multiset{x}
    ensures forall i :: 0 <= i < |Insert(v, x)| ==> Insert(v, x)[i] == x || Insert(v, x)[i] in v
  {
    if |v| > 0 && x > v[0] {
      InsertKeeps(v[1..], x);
      assert v == [v[0]] + v[1..];
    }
  }

  lemma {:induction false} InsertSorts(v: seq<nat>, x: nat)
    requires Sorted(v)
    ensures Sorted(Insert(v, x))
  {
    if |v| > 0 && x > v[0] {
      var rest := v[1..];
      assert forall i :: 0 <= i < |rest| ==> rest[i] == v[i + 1] >= v[0];
      InsertSorts(rest, x);
      InsertKeeps(rest, x);
      Prepend(v[0], Insert(rest, x));
    }
  }

  lemma Prepend(x: nat, v: seq<nat>)
    requires Sorted(v) && forall i :: 0 <= i < |v| ==> x <= v[i]
    ensures Sorted([x] + v)
  {
  }

  /** The values in order. */
  method Sort(values: seq<nat>) returns (v: seq<nat>)
    ensures Sorted(v) && multiset(v) == multiset(values)
  {
    hide Sorted, Insert;
    v := [];
    assert Sorted(v) by { SortedNone(); }
    for n := 0 to |values|
      invariant Sorted(v) && multiset(v) == multiset(values[..n])
    {
      InsertKeeps(v, values[n]);
      InsertSorts(v, values[n]);
      assert values[..n + 1] == values[..n] + [values[n]];
      v := Insert(v, values[n]);
    }
    assert values[..|values|] == values;
  }

  lemma SortedNone()
    ensures Sorted([])
  {
  }

  /** The nearest-rank percentile: the least value that at least that share of the values does not exceed. */
  ghost predicate IsPercentile(values: seq<nat>, percentile: nat, x: nat) {
    && x in values
    && AtMost(values, x) * 100 >= |values| * percentile
    && forall y: nat :: y < x ==> AtMost(values, y) * 100 < |values| * percentile
  }

  lemma {:induction false} SortedCounts(v: seq<nat>, k: nat, y: nat)
    requires Sorted(v) && k < |v|
    ensures AtMost(v, v[k]) >= k + 1
    ensures y < v[k] ==> AtMost(v, y) <= k
  {
    var n := |v| - 1;
    if k == n {
      AllAtMost(v, v[k]);
      CountWithin(v[..n], y);
    } else {
      assert v[..n][k] == v[k];
      SortedCounts(v[..n], k, y);
    }
  }

  lemma {:induction false} AllAtMost(v: seq<nat>, x: nat)
    requires forall i :: 0 <= i < |v| ==> v[i] <= x
    ensures AtMost(v, x) == |v|
  {
    if |v| > 0 {
      AllAtMost(v[..|v| - 1], x);
    }
  }

  lemma {:induction false} CountWithin(v: seq<nat>, x: nat)
    ensures AtMost(v, x) <= |v|
  {
    if |v| > 0 {
      CountWithin(v[..|v| - 1], x);
    }
  }

  lemma {:induction false} CountSplit(u: seq<nat>, v: seq<nat>, x: nat)
    ensures AtMost(u + v, x) == AtMost(u, x) + AtMost(v, x)
  {
    if |v| == 0 {
      assert u + v == u;
    } else {
      var n := |v| - 1;
      assert (u + v)[..|u| + n] == u + v[..n];
      CountSplit(u, v[..n], x);
    }
  }

  /** Counting does not depend on the order. */
  lemma {:induction false} CountPermutes(u: seq<nat>, v: seq<nat>, x: nat)
    requires multiset(u) == multiset(v)
    ensures AtMost(u, x) == AtMost(v, x) && |u| == |v|
  {
    if |u| == 0 {
      assert |multiset(v)| == |v| && |multiset(u)| == |u|;
    } else {
      var n := |u| - 1;
      assert u == u[..n] + [u[n]];
      assert u[n] in multiset(v);
      var k :| 0 <= k < |v| && v[k] == u[n];
      var rest := v[..k] + v[k + 1..];
      WithoutOne(v, k, rest, x);
      CountPermutes(u[..n], rest, x);
    }
  }

  lemma WithoutOne(v: seq<nat>, k: nat, rest: seq<nat>, x: nat)
    requires k < |v| && rest == v[..k] + v[k + 1..]
    ensures multiset(rest) == multiset(v) - multiset{v[k]} && |rest| == |v| - 1
    ensures AtMost(v, x) == AtMost(rest, x) + if v[k] <= x then 1 else 0
  {
    hide AtMost;
    assert v == v[..k] + [v[k]] + v[k + 1..];
    CountSplit(v[..k], v[k + 1..], x);
    CountSplit(v[..k] + [v[k]], v[k + 1..], x);
    CountSplit(v[..k], [v[k]], x);
    CountOne(v[k], x);
  }

  lemma CountOne(y: nat, x: nat)
    ensures AtMost([y], x) == if y <= x then 1 else 0
  {
    assert [y][..0] == [];
  }

  /** The value at rank `ceil(n * p / 100)` of the sorted values. */
  method NearestRank(values: seq<nat>, percentile: nat) returns (x: Option<nat>)
    requires 0 < percentile <= 100
    ensures x.None? <==> |values| == 0
    ensures x.Some? ==> IsPercentile(values, percentile, x.value)
  {
    hide Sorted, AtMost, IsPercentile;
    var v := Sort(values);
    CountPermutes(v, values, 0);
    var n := |v|;
    if n == 0 {
      return None;
    }
    var index := RankIndex(n, percentile);
    RankIsPercentile(v, values, percentile, index);
    x := Some(v[index]);
  }

  lemma RankIsPercentile(v: seq<nat>, values: seq<nat>, percentile: nat, index: nat)
    requires Sorted(v) && multiset(v) == multiset(values) && index < |v|
    requires (index + 1) * 100 >= |v| * percentile && index * 100 < |v| * percentile
    ensures IsPercentile(values, percentile, v[index])
  {
    hide Sorted, AtMost;
    assert v[index] in multiset(v);
    CountPermutes(v, values, v[index]);
    SortedCounts(v, index, 0);
    forall y: nat | y < v[index] ensures AtMost(values, y) * 100 < |values| * percentile {
      CountPermutes(v, values, y);
      SortedCounts(v, index, y);
    }
  }

  method RankIndex(n: nat, percentile: nat) returns (index: nat)
    requires n > 0 && 0 < percentile <= 100
    ensures index < n && (index + 1) * 100 >= n * percentile && index * 100 < n * percentile
  {
    var product := n * percentile;
    assert product > 0 && product <= n * 100;
    index := (product + 99) / 100 - 1;
  }
}
