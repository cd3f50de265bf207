/**
 The error memory of interactive jobs (source/common/sge_ijs_comm.cc): two permanent errors
 that are believed only after they have been reported for a while, one passing error, and the
 suppression of bind errors while ports are probed. All updates happen under one mutex, so a
 history is a sequence of events.
 */
module ErrorLatch {

  const READ_TIMEOUT := 30

  // ----- counting seconds -----

  /** `time` is the last report counted, 0 for none. */
  datatype Timer = Timer(time: int, counter: int)

  function Restarted(t: Timer, now: int): Timer {
    if now - t.time > 3 * READ_TIMEOUT then Timer(0, 0) else t
  }

  function Counted(t: Timer, now: int): Timer {
    var u := Restarted(t, now);
    if u.time < now then Timer(now, u.counter + if u.time == 0 then 1 else now - u.time) else u
  }

  predicate Rings(t: Timer, now: int) {
    Restarted(t, now).time < now && Counted(t, now).counter > 2 * READ_TIMEOUT
  }

  datatype Latch = Latch(up: bool, timer: Timer)

  function Reported(l: Latch, now: int): Latch {
    if l.up then l else Latch(Rings(l.timer, now), Counted(l.timer, now))
  }

  const DOWN := Latch(false, Timer(0, 0))

  /** The latch after reports at these times. */
  function After(ts: seq<int>): Latch {
    if ts == [] then DOWN else Reported(After(ts[..|ts| - 1]), ts[|ts| - 1])
  }

  // ----- what the latch means -----

  /** The reports that are later than all before them. */
  function Rising(ts: seq<int>): (r: seq<int>)
    ensures IsRising(r)
  {
    if ts == [] then []
    else
      var r, now := Rising(ts[..|ts| - 1]), ts[|ts| - 1];
      if now > Last(r) then r + [now] else r
  }

  predicate IsRising(r: seq<int>) {
    (forall k | 0 <= k < |r| :: r[k] > 0) && forall i, k | 0 <= i < k < |r| :: r[i] < r[k]
  }

  function Last(r: seq<int>): int {
    if r == [] then 0 else r[|r| - 1]
  }

  /** Successive reports from `i` to `j` are at most three timeouts apart. */
  predicate IsChain(r: seq<int>, i: nat, j: nat) {
    i <= j < |r| && forall k | i < k <= j :: r[k] - r[k - 1] <= 3 * READ_TIMEOUT
  }

  predicate IsLongWindow(r: seq<int>, i: nat, j: nat) {
    IsChain(r, i, j) && r[j] - r[i] >= 2 * READ_TIMEOUT
  }

  ghost predicate HasLongWindow(r: seq<int>) {
    exists i: nat, j: nat :: IsLongWindow(r, i, j)
  }

  /** Where the window that ends with the last report starts. */
  function WindowStart(r: seq<int>): (i: nat)
    requires r != []
    ensures IsChain(r, i, |r| - 1) && (i > 0 ==> r[i] - r[i - 1] > 3 * READ_TIMEOUT)
  {
    var n := |r| - 1;
    if n == 0 || r[n] - r[n - 1] > 3 * READ_TIMEOUT then n
    else
      assert r[..n][n - 1] == r[n - 1];
      WindowStart(r[..n])
  }

  predicate IsSorted(r: seq<int>) {
    forall i, k | 0 <= i <= k < |r| :: r[i] <= r[k]
  }

  lemma ChainIn(r: seq<int>, n: nat, i: nat, j: nat)
    requires n <= |r| && j < n
    ensures IsLongWindow(r[..n], i, j) <==> IsLongWindow(r, i, j)
  {
  }

  lemma EarlierWindow(r: seq<int>, n: nat)
    requires n < |r| && HasLongWindow(r[..n])
    ensures HasLongWindow(r)
  {
    var i: nat, j: nat :| IsLongWindow(r[..n], i, j);
    ChainIn(r, n, i, j);
  }

  lemma WindowAtEnd(r: seq<int>, i: nat)
    requires r != [] && IsSorted(r) && IsLongWindow(r, i, |r| - 1)
    ensures r[|r| - 1] - r[WindowStart(r)] >= 2 * READ_TIMEOUT
  {
    var w := WindowStart(r);
    if i < w {
      assert false;
    }
    assert r[w] <= r[i];
  }

  /** A long window ends before the last report, or the window of the last report is long. */
  lemma LongWindowSplits(r: seq<int>, n: nat)
    requires |r| == n + 1 && IsSorted(r)
    ensures HasLongWindow(r) <==> HasLongWindow(r[..n]) || r[n] - r[WindowStart(r)] >= 2 * READ_TIMEOUT
  {
    if HasLongWindow(r[..n]) {
      EarlierWindow(r, n);
    } else if HasLongWindow(r) {
      var i: nat, j: nat :| IsLongWindow(r, i, j);
      if j < n {
        ChainIn(r, n, i, j);
      } else {
        WindowAtEnd(r, i);
      }
    } else {
      assert !IsLongWindow(r, WindowStart(r), n);
    }
  }

  /** The counter telescopes: one more than the span of the current window. */
  predicate Telescopes(t: Timer, r: seq<int>) {
    if r == [] then t == Timer(0, 0)
    else t.time == Last(r) && t.counter == 1 + Last(r) - r[WindowStart(r)]
  }

  lemma CountedTelescopes(t: Timer, r: seq<int>, now: int)
    requires IsRising(r) && Telescopes(t, r)
    ensures var r' := if now > Last(r) then r + [now] else r;
      && Telescopes(Counted(t, now), r')
      && (Rings(t, now) <==> r' != r && Last(r') - r'[WindowStart(r')] >= 2 * READ_TIMEOUT)
  {
    if now > Last(r) {
      var r' := r + [now];
      assert r'[..|r|] == r;
      if r != [] && now - Last(r) <= 3 * READ_TIMEOUT {
        assert r'[WindowStart(r)] == r[WindowStart(r)];
      }
    }
  }

  lemma RisingIsSorted(r: seq<int>)
    requires IsRising(r)
    ensures IsSorted(r)
  {
  }

  /** The latch, and the timer as long as it is down, from the reports alone. */
  lemma {:induction false} LatchInvariant(ts: seq<int>)
    ensures After(ts).up <==> HasLongWindow(Rising(ts))
    ensures !After(ts).up ==> Telescopes(After(ts).timer, Rising(ts)) && After(ts).timer.counter <= 2 * READ_TIMEOUT
  {
    if ts == [] {
    } else {
      var n := |ts| - 1;
      var l, r, now := After(ts[..n]), Rising(ts[..n]), ts[n];
      LatchInvariant(ts[..n]);
      var r' := Rising(ts);
      if r' != r {
        RisingIsSorted(r');
        LongWindowSplits(r', |r|);
        assert r'[..|r|] == r;
      }
      if !l.up {
        CountedTelescopes(l.timer, r, now);
      }
    }
  }

  /**
   For reports at any times whatsoever: the latch is up exactly when some window, with gaps of
   at most three timeouts, spans at least two. Reports from before the last one count for nothing.
   */
  lemma LatchExactly(ts: seq<int>)
    ensures After(ts).up <==> HasLongWindow(Rising(ts))
  {
    LatchInvariant(ts);
  }

  /** The counter stays small, so the machine integer of the source cannot overflow. */
  lemma {:induction false} CounterIsBounded(ts: seq<int>)
    ensures 0 <= After(ts).timer.counter <= 5 * READ_TIMEOUT
  {
    if ts == [] {
    } else {
      var n := |ts| - 1;
      CounterIsBounded(ts[..n]);
      LatchInvariant(ts[..n]);
      var l := After(ts[..n]);
      if !l.up {
        var r := Rising(ts[..n]);
        assert l.timer.time == Last(r);
        assert l.timer.time == 0 ==> l.timer.counter == 0;
      }
    }
  }

  lemma WindowStartSame(r: seq<int>, n: nat)
    requires |r| == n + 1 && n > 0 && r[n] == r[n - 1]
    ensures WindowStart(r) == WindowStart(r[..n]) && r[WindowStart(r)] == r[..n][WindowStart(r)]
  {
  }

  lemma RepeatedReport(r: seq<int>, n: nat)
    requires |r| == n + 1 && n > 0 && r[n] == r[n - 1] && IsSorted(r)
    ensures HasLongWindow(r) <==> HasLongWindow(r[..n])
  {
    LongWindowSplits(r, n);
    WindowStartSame(r, n);
    var w := WindowStart(r);
    if r[n] - r[w] >= 2 * READ_TIMEOUT {
      assert IsLongWindow(r[..n], w, n - 1);
    }
  }

  /** Two sequences with the same last window. */
  predicate WindowsAgree(r: seq<int>, ts: seq<int>) {
    && Last(r) == Last(ts) && (r == [] <==> ts == [])
    && (ts != [] ==> r[WindowStart(r)] == ts[WindowStart(ts)])
  }

  lemma WindowStartAppend(r: seq<int>, now: int)
    ensures WindowStart(r + [now]) == if r == [] || now - Last(r) > 3 * READ_TIMEOUT then |r| else WindowStart(r)
  {
    var s := r + [now];
    assert s[|r|] == now && s[..|r|] == r && (r != [] ==> s[|r| - 1] == Last(r));
  }

  lemma AppendAgrees(r: seq<int>, ts: seq<int>, now: int)
    requires WindowsAgree(r, ts)
    ensures WindowsAgree(r + [now], ts + [now])
  {
    WindowStartAppend(r, now);
    WindowStartAppend(ts, now);
  }

  lemma LongWindowAppend(r: seq<int>, now: int)
    requires IsSorted(r + [now])
    ensures HasLongWindow(r + [now])
       <==> HasLongWindow(r) || now - (r + [now])[WindowStart(r + [now])] >= 2 * READ_TIMEOUT
  {
    LongWindowSplits(r + [now], |r|);
    assert (r + [now])[..|r|] == r;
  }

  lemma AppendKeeps(r: seq<int>, ts: seq<int>, now: int)
    requires WindowsAgree(r, ts) && IsSorted(r + [now]) && IsSorted(ts + [now])
    requires HasLongWindow(r) <==> HasLongWindow(ts)
    ensures HasLongWindow(r + [now]) <==> HasLongWindow(ts + [now])
  {
    AppendAgrees(r, ts, now);
    LongWindowAppend(r, now);
    LongWindowAppend(ts, now);
  }

  lemma {:induction false} SameWindows(ts: seq<int>)
    requires IsSorted(ts) && (ts != [] ==> ts[0] > 0)
    ensures WindowsAgree(Rising(ts), ts) && (HasLongWindow(Rising(ts)) <==> HasLongWindow(ts))
  {
    if ts == [] {
    } else {
      var n := |ts| - 1;
      var init, r, now := ts[..n], Rising(ts[..n]), ts[n];
      assert ts == init + [now];
      SameWindows(init);
      if now > Last(r) {
        RisingIsSorted(Rising(ts));
        AppendAgrees(r, init, now);
        AppendKeeps(r, init, now);
      } else {
        RepeatedReport(ts, n);
        WindowStartSame(ts, n);
      }
    }
  }

  /** For a clock that does not go back: the windows are those of the report times themselves. */
  lemma LatchOnForwardClock(ts: seq<int>)
    requires IsSorted(ts) && (ts != [] ==> ts[0] > 0)
    ensures After(ts).up <==> HasLongWindow(ts)
  {
    LatchExactly(ts);
    SameWindows(ts);
  }
}
