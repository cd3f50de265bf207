/**
 Runs of a sequence of handlers over an option list, for any such sequence: what reaches a
 handler, what it uses and what is left behind.
 */
module HandlerRuns {
  import opened Options
  import opened JobParameters

  /** The state after the first `k` handlers. */
  function Run(hs: seq<Handler>, k: nat, st: State): State
    requires k <= |hs|
    decreases k, 1
  {
    if k == 0 then st else RunEnd(hs, k, st)
  }

  function RunEnd(hs: seq<Handler>, k: nat, st: State): State
    requires 0 < k <= |hs|
    decreases k, 0
  {
    Step(hs[k - 1], Run(hs, k - 1, st))
  }

  predicate StepAt(hs: seq<Handler>, tr: seq<State>, k: nat)
    requires k < |hs| && |tr| == |hs| + 1
  {
    tr[k + 1] == Step(hs[k], tr[k])
  }

  /** All states of a run, from the first to the last. */
  ghost predicate IsTrace(hs: seq<Handler>, tr: seq<State>) {
    |tr| == |hs| + 1 && forall k | 0 <= k < |hs| :: StepAt(hs, tr, k)
  }

  ghost function Trace(hs: seq<Handler>, n: nat, st: State): (tr: seq<State>)
    requires n <= |hs|
    ensures |tr| == n + 1 && forall k: nat | k <= n :: tr[k] == Run(hs, k, st)
  {
    if n == 0 then [st] else Trace(hs, n - 1, st) + [Run(hs, n, st)]
  }

  lemma TraceOf(hs: seq<Handler>, st: State) returns (tr: seq<State>)
    ensures IsTrace(hs, tr) && tr[0] == st && tr[|hs|] == Run(hs, |hs|, st)
  {
    tr := Trace(hs, |hs|, st);
    forall k | 0 <= k < |hs|
      ensures StepAt(hs, tr, k)
    {
      assert tr[k + 1] == Run(hs, k + 1, st);
    }
  }

  predicate Untouched(hs: seq<Handler>, lo: nat, hi: nat, sw: Switch)
    requires hi <= |hs|
  {
    forall x | lo <= x < hi :: !Touches(hs[x], sw)
  }

  /** -clear is worked off at `c` and nowhere else. */
  predicate ClearsAt(hs: seq<Handler>, c: nat) {
    c < |hs| && hs[c] == ClearPass && Untouched(hs, 0, c, Clear) && Untouched(hs, c + 1, |hs|, Clear)
  }

  /** The handler at `k` takes all records of the switch, or one, and no other handler concerns it. */
  predicate HandledAt(hs: seq<Handler>, k: nat, sw: Switch) {
    && k < |hs| && (hs[k] == All(sw) || hs[k] == First(sw))
    && Untouched(hs, 0, k, sw) && Untouched(hs, k + 1, |hs|, sw)
  }

  predicate StopsAt(hs: seq<Handler>, h: nat) {
    h < |hs| && hs[h] == StopOnHelp && forall x | 0 <= x < |hs| && x != h :: hs[x] != StopOnHelp
  }

  // ----- what one step does to the records of a switch -----

  lemma StoppedStays(hs: seq<Handler>, tr: seq<State>, k: nat)
    requires IsTrace(hs, tr) && k < |hs|
    ensures tr[k].stopped ==> tr[k + 1] == tr[k]
    ensures !tr[k].stopped && hs[k] != StopOnHelp ==> !tr[k + 1].stopped
  {
    assert StepAt(hs, tr, k);
  }

  lemma KeptAt(hs: seq<Handler>, tr: seq<State>, k: nat, sw: Switch)
    requires IsTrace(hs, tr) && k < |hs| && !Touches(hs[k], sw) && !Touches(hs[k], Clear)
    ensures Only(tr[k + 1].cmd, sw) == Only(tr[k].cmd, sw) && Only(tr[k + 1].used, sw) == Only(tr[k].used, sw)
    ensures Surviving(tr[k + 1].cmd, sw) == Surviving(tr[k].cmd, sw)
  {
    assert StepAt(hs, tr, k);
    StepKeeps(hs[k], tr[k], sw);
  }

  lemma ClearedAt(hs: seq<Handler>, tr: seq<State>, c: nat, sw: Switch)
    requires IsTrace(hs, tr) && c < |hs| && hs[c] == ClearPass && sw != Clear && !tr[c].stopped
    ensures Only(tr[c + 1].used, sw) == Only(tr[c].used, sw)
    ensures Only(tr[c + 1].cmd, sw) == if IsPseudo(sw) then Only(tr[c].cmd, sw) else Surviving(tr[c].cmd, sw)
  {
    assert StepAt(hs, tr, c);
    ClearedOnly(tr[c].cmd, sw);
  }

  lemma UsedAt(hs: seq<Handler>, tr: seq<State>, k: nat, sw: Switch)
    requires IsTrace(hs, tr) && k < |hs| && (hs[k] == All(sw) || hs[k] == First(sw)) && !tr[k].stopped
    ensures var own := Only(tr[k].cmd, sw);
      && Only(tr[k + 1].used, sw) == Only(tr[k].used, sw) + (if hs[k].First? then FirstOf(own) else own)
      && Only(tr[k + 1].cmd, sw) == (if hs[k].First? then RestOf(own) else [])
  {
    assert StepAt(hs, tr, k);
    StepUses(hs[k], tr[k], sw);
  }

  lemma LeftAt(hs: seq<Handler>, tr: seq<State>, k: nat, sw: Switch)
    requires IsTrace(hs, tr) && k < |hs| && (hs[k] == All(sw) || hs[k] == First(sw)) && !tr[k].stopped && sw != Clear
    ensures Surviving(tr[k + 1].cmd, sw) == if hs[k].First? then RestIfFirstSurvives(tr[k].cmd, sw) else []
  {
    assert StepAt(hs, tr, k);
    StepSurviving(hs[k], tr[k], sw);
  }

  lemma HelpAt(hs: seq<Handler>, tr: seq<State>, h: nat)
    requires IsTrace(hs, tr) && h < |hs| && hs[h] == StopOnHelp && !tr[h].stopped
    ensures tr[h + 1].stopped <==> Only(tr[h].cmd, Help) != []
  {
    assert StepAt(hs, tr, h);
    NoneLeft(tr[h].cmd, Help);
  }

  // ----- stretches of a run -----

  lemma {:induction false} RunNotStopped(hs: seq<Handler>, tr: seq<State>, k: nat, m: nat)
    requires IsTrace(hs, tr) && k <= m <= |hs| && !tr[m].stopped
    ensures !tr[k].stopped
    decreases m - k
  {
    if k == m {
    } else {
      StoppedStays(hs, tr, m - 1);
      RunNotStopped(hs, tr, k, m - 1);
    }
  }

  lemma {:induction false} RunStopped(hs: seq<Handler>, tr: seq<State>, k: nat, m: nat)
    requires IsTrace(hs, tr) && k <= m <= |hs| && tr[k].stopped
    ensures tr[m] == tr[k]
    decreases m - k
  {
    if k == m {
    } else {
      RunStopped(hs, tr, k, m - 1);
      StoppedStays(hs, tr, m - 1);
    }
  }

  /** Between two points with no handler for the switch and no -clear, its records stay. */
  lemma {:induction false} RunKeeps(hs: seq<Handler>, tr: seq<State>, k: nat, m: nat, sw: Switch)
    requires IsTrace(hs, tr) && k <= m <= |hs| && Untouched(hs, k, m, sw) && Untouched(hs, k, m, Clear)
    ensures Only(tr[m].cmd, sw) == Only(tr[k].cmd, sw) && Only(tr[m].used, sw) == Only(tr[k].used, sw)
    ensures Surviving(tr[m].cmd, sw) == Surviving(tr[k].cmd, sw)
    decreases m - k
  {
    if k == m {
    } else {
      RunKeeps(hs, tr, k, m - 1, sw);
      KeptAt(hs, tr, m - 1, sw);
    }
  }

  /** From in front of -clear to behind it. */
  lemma RunAcrossClear(hs: seq<Handler>, tr: seq<State>, c: nat, k: nat, m: nat, sw: Switch)
    requires IsTrace(hs, tr) && ClearsAt(hs, c) && k <= c < m <= |hs| && sw != Clear
    requires Untouched(hs, k, m, sw) && !tr[m].stopped
    ensures Only(tr[m].used, sw) == Only(tr[k].used, sw)
    ensures Only(tr[m].cmd, sw) == if IsPseudo(sw) then Only(tr[k].cmd, sw) else Surviving(tr[k].cmd, sw)
  {
    RunKeeps(hs, tr, k, c, sw);
    RunNotStopped(hs, tr, c, m);
    ClearedAt(hs, tr, c, sw);
    RunKeeps(hs, tr, c + 1, m, sw);
  }

  /** What is done stays done, in order. */
  lemma {:induction false} LogGrows(hs: seq<Handler>, tr: seq<State>, k: nat, m: nat) returns (more: seq<Deed>)
    requires IsTrace(hs, tr) && k <= m <= |hs|
    ensures tr[m].log == tr[k].log + more
    decreases m - k
  {
    more := [];
    if k == m {
    } else {
      var some := LogGrows(hs, tr, k, m - 1);
      var last := LogGrowsAt(hs, tr, m - 1);
      assert tr[k].log + (some + last) == (tr[k].log + some) + last;
      more := some + last;
    }
  }

  lemma LogGrowsAt(hs: seq<Handler>, tr: seq<State>, k: nat) returns (more: seq<Deed>)
    requires IsTrace(hs, tr) && k < |hs|
    ensures tr[k + 1].log == tr[k].log + more
  {
    assert StepAt(hs, tr, k);
    more := tr[k + 1].log[|tr[k].log|..];
  }

  /** The log of a run names the used records. */
  lemma {:induction false} RunLogs(hs: seq<Handler>, tr: seq<State>, k: nat)
    requires IsTrace(hs, tr) && k <= |hs| && RecordsOf(tr[0].log) == tr[0].used
    ensures RecordsOf(tr[k].log) == tr[k].used
  {
    if k == 0 {
    } else {
      RunLogs(hs, tr, k - 1);
      LogsAt(hs, tr, k - 1);
    }
  }

  lemma LogsAt(hs: seq<Handler>, tr: seq<State>, k: nat)
    requires IsTrace(hs, tr) && k < |hs| && RecordsOf(tr[k].log) == tr[k].used
    ensures RecordsOf(tr[k + 1].log) == tr[k + 1].used
  {
    assert StepAt(hs, tr, k);
    StepLogs(hs[k], tr[k]);
  }

  // ----- who uses which record -----

  /** In front of -clear every record of a switch is there; behind it, those that survive. */
  function Reaching(input: seq<Record>, sw: Switch, early: bool): seq<Record> {
    if early || IsPseudo(sw) then Only(input, sw) else Surviving(input, sw)
  }

  /** The records of a switch that its handler uses. */
  function UsedUp(input: seq<Record>, sw: Switch, h: Handler, early: bool): seq<Record> {
    if h.First? then FirstOf(Reaching(input, sw, early)) else Reaching(input, sw, early)
  }

  /** The records of a switch that are still in the list at the end. */
  function LeftBehind(input: seq<Record>, sw: Switch, h: Handler, early: bool): seq<Record> {
    if !h.First? then []
    else if early then RestIfFirstSurvives(input, sw)
    else RestOf(Reaching(input, sw, false))
  }

  ghost predicate IsDistributed(input: seq<Record>, last: State, sw: Switch, h: Handler, early: bool) {
    Only(last.used, sw) == UsedUp(input, sw, h, early) && Only(last.cmd, sw) == LeftBehind(input, sw, h, early)
  }

  lemma SameReaching(a: seq<Record>, b: seq<Record>, sw: Switch)
    requires Only(a, sw) == Only(b, sw) && Surviving(a, sw) == Surviving(b, sw)
    ensures RestIfFirstSurvives(a, sw) == RestIfFirstSurvives(b, sw)
  {
  }

  lemma EarlyReach(hs: seq<Handler>, tr: seq<State>, k: nat, input: seq<Record>, sw: Switch)
    returns (own: seq<Record>, rest: seq<Record>)
    requires IsTrace(hs, tr) && tr[0] == Start(input) && k <= |hs|
    requires Untouched(hs, 0, k, sw) && Untouched(hs, 0, k, Clear)
    ensures own == Only(tr[k].cmd, sw) == Reaching(input, sw, true) && Only(tr[k].used, sw) == []
    ensures rest == RestIfFirstSurvives(tr[k].cmd, sw) == RestIfFirstSurvives(input, sw)
  {
    RunKeeps(hs, tr, 0, k, sw);
    SameReaching(input, tr[k].cmd, sw);
    own, rest := Only(tr[k].cmd, sw), RestIfFirstSurvives(tr[k].cmd, sw);
  }

  lemma EarlyUse(hs: seq<Handler>, tr: seq<State>, k: nat, sw: Switch, own: seq<Record>, rest: seq<Record>)
    returns (used: seq<Record>, left: seq<Record>)
    requires IsTrace(hs, tr) && k < |hs| && (hs[k] == All(sw) || hs[k] == First(sw)) && sw != Clear && !tr[k].stopped
    requires own == Only(tr[k].cmd, sw) && Only(tr[k].used, sw) == [] && rest == RestIfFirstSurvives(tr[k].cmd, sw)
    ensures used == Only(tr[k + 1].used, sw) && left == Surviving(tr[k + 1].cmd, sw)
    ensures if hs[k].First? then used == FirstOf(own) && left == rest else used == own && left == []
  {
    UsedAt(hs, tr, k, sw);
    LeftAt(hs, tr, k, sw);
    used, left := Only(tr[k + 1].used, sw), Surviving(tr[k + 1].cmd, sw);
  }

  lemma EarlyRecords(hs: seq<Handler>, tr: seq<State>, c: nat, k: nat, input: seq<Record>, sw: Switch)
    requires IsTrace(hs, tr) && tr[0] == Start(input) && !tr[|hs|].stopped
    requires ClearsAt(hs, c) && HandledAt(hs, k, sw) && k < c && sw != Clear && !IsPseudo(sw)
    ensures IsDistributed(input, tr[|hs|], sw, hs[k], true)
  {
    RunNotStopped(hs, tr, k, |hs|);
    var own, rest := EarlyReach(hs, tr, k, input, sw);
    var used, left := EarlyUse(hs, tr, k, sw, own, rest);
    RunAcrossClear(hs, tr, c, k + 1, |hs|, sw);
  }

  lemma LateReach(hs: seq<Handler>, tr: seq<State>, c: nat, k: nat, input: seq<Record>, sw: Switch)
    returns (own: seq<Record>)
    requires IsTrace(hs, tr) && tr[0] == Start(input) && c < k <= |hs| && !tr[k].stopped
    requires ClearsAt(hs, c) && Untouched(hs, 0, k, sw) && sw != Clear
    ensures own == Only(tr[k].cmd, sw) == Reaching(input, sw, false) && Only(tr[k].used, sw) == []
  {
    own := Only(tr[k].cmd, sw);
    RunAcrossClear(hs, tr, c, 0, k, sw);
  }

  lemma LateUse(hs: seq<Handler>, tr: seq<State>, k: nat, m: nat, sw: Switch, own: seq<Record>)
    requires IsTrace(hs, tr) && HandledAt(hs, k, sw) && k < m <= |hs| && Untouched(hs, k, m, Clear) && !tr[k].stopped
    requires own == Only(tr[k].cmd, sw) && Only(tr[k].used, sw) == []
    ensures Only(tr[m].used, sw) == if hs[k].First? then FirstOf(own) else own
    ensures Only(tr[m].cmd, sw) == if hs[k].First? then RestOf(own) else []
  {
    UsedAt(hs, tr, k, sw);
    RunKeeps(hs, tr, k + 1, m, sw);
  }

  /** At any point behind its handler the surviving records of a switch have been used. */
  lemma LateUsedAt(hs: seq<Handler>, tr: seq<State>, c: nat, k: nat, m: nat, input: seq<Record>, sw: Switch)
    requires IsTrace(hs, tr) && tr[0] == Start(input) && ClearsAt(hs, c) && c < k < m <= |hs| && !tr[m].stopped
    requires HandledAt(hs, k, sw) && hs[k] == All(sw) && sw != Clear
    ensures Only(tr[m].used, sw) == Reaching(input, sw, false)
  {
    RunNotStopped(hs, tr, k, m);
    var own := LateReach(hs, tr, c, k, input, sw);
    LateUse(hs, tr, k, m, sw, own);
  }

  lemma LateRecords(hs: seq<Handler>, tr: seq<State>, c: nat, k: nat, input: seq<Record>, sw: Switch)
    requires IsTrace(hs, tr) && tr[0] == Start(input) && !tr[|hs|].stopped
    requires ClearsAt(hs, c) && HandledAt(hs, k, sw) && c < k && sw != Clear
    ensures IsDistributed(input, tr[|hs|], sw, hs[k], false)
  {
    RunNotStopped(hs, tr, k, |hs|);
    var own := LateReach(hs, tr, c, k, input, sw);
    LateUse(hs, tr, k, |hs|, sw, own);
  }

  /** Each record that reaches the handler of its switch is used there, in order, and nowhere else. */
  lemma RecordsReachTheirHandler(hs: seq<Handler>, c: nat, k: nat, input: seq<Record>, sw: Switch)
    requires ClearsAt(hs, c) && HandledAt(hs, k, sw) && sw != Clear && (k < c ==> !IsPseudo(sw))
    requires !Run(hs, |hs|, Start(input)).stopped
    ensures IsDistributed(input, Run(hs, |hs|, Start(input)), sw, hs[k], k < c)
  {
    var tr := TraceOf(hs, Start(input));
    if k < c {
      EarlyRecords(hs, tr, c, k, input, sw);
    } else {
      LateRecords(hs, tr, c, k, input, sw);
    }
  }

  /** Records of a switch without handler are left behind, those that survive. */
  lemma UnknownRecords(hs: seq<Handler>, c: nat, input: seq<Record>, sw: Switch)
    requires ClearsAt(hs, c) && Untouched(hs, 0, |hs|, sw) && sw != Clear && !Run(hs, |hs|, Start(input)).stopped
    ensures Only(Run(hs, |hs|, Start(input)).used, sw) == []
    ensures Only(Run(hs, |hs|, Start(input)).cmd, sw) == Reaching(input, sw, false)
  {
    var tr := TraceOf(hs, Start(input));
    RunAcrossClear(hs, tr, c, 0, |hs|, sw);
  }

  // ----- the end of a run -----

  lemma {:induction false} StoppedSame(hs: seq<Handler>, tr: seq<State>, h: nat, k: nat, m: nat)
    requires IsTrace(hs, tr) && StopsAt(hs, h) && k <= m <= |hs| && !(k <= h < m)
    ensures tr[m].stopped == tr[k].stopped
    decreases m - k
  {
    if k == m {
    } else {
      StoppedSame(hs, tr, h, k, m - 1);
      StoppedStays(hs, tr, m - 1);
    }
  }

  lemma HelpReaches(hs: seq<Handler>, tr: seq<State>, c: nat, h: nat, input: seq<Record>)
    requires IsTrace(hs, tr) && tr[0] == Start(input) && c < h < |hs| && !tr[h].stopped
    requires ClearsAt(hs, c) && Untouched(hs, 0, h, Help) && hs[h] == StopOnHelp
    ensures tr[h + 1].stopped <==> Surviving(input, Help) != []
  {
    var own := LateReach(hs, tr, c, h, input, Help);
    HelpAt(hs, tr, h);
  }

  lemma TraceStops(hs: seq<Handler>, tr: seq<State>, c: nat, h: nat, input: seq<Record>)
    requires IsTrace(hs, tr) && tr[0] == Start(input)
    requires ClearsAt(hs, c) && StopsAt(hs, h) && c < h && Untouched(hs, 0, h, Help)
    ensures tr[|hs|].stopped <==> Surviving(input, Help) != []
  {
    StoppedSame(hs, tr, h, 0, h);
    HelpReaches(hs, tr, c, h, input);
    StoppedSame(hs, tr, h, h + 1, |hs|);
  }

  /** Every handler runs unless a -help survives. */
  lemma CompleteUnlessHelp(hs: seq<Handler>, c: nat, h: nat, input: seq<Record>)
    requires ClearsAt(hs, c) && StopsAt(hs, h) && c < h && Untouched(hs, 0, h, Help)
    ensures Run(hs, |hs|, Start(input)).stopped <==> Surviving(input, Help) != []
  {
    var tr := TraceOf(hs, Start(input));
    TraceStops(hs, tr, c, h, input);
  }

  lemma {:induction false} TraceConserves(hs: seq<Handler>, tr: seq<State>, k: nat, r: Record)
    requires IsTrace(hs, tr) && k <= |hs|
    ensures Everywhere(tr[k], r) == Everywhere(tr[0], r)
  {
    if k == 0 {
    } else {
      TraceConserves(hs, tr, k - 1, r);
      ConservedAt(hs, tr, k, r);
    }
  }

  lemma ConservedAt(hs: seq<Handler>, tr: seq<State>, k: nat, r: Record)
    requires IsTrace(hs, tr) && 0 < k <= |hs|
    ensures Everywhere(tr[k], r) == Everywhere(tr[k - 1], r)
  {
    assert StepAt(hs, tr, k - 1);
    StepConserves(hs[k - 1], tr[k - 1], r);
  }

  /** Each input record ends up in the list, used or killed: exactly once. */
  lemma RunConserves(hs: seq<Handler>, input: seq<Record>, r: Record)
    ensures Everywhere(Run(hs, |hs|, Start(input)), r) == Count(input, r)
  {
    var tr := TraceOf(hs, Start(input));
    TraceConserves(hs, tr, |hs|, r);
  }
}
