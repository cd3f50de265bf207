/**
 From option records to a job (`cull_parse_job_parameter` in source/common/parse_job_cull.cc):
 a fixed sequence of handlers, each of which finds its records in the list, uses them and
 removes them.
 */
module JobParameters {
  import opened Options

  // ----- the handlers, in the order of the source -----

  datatype Handler =
    | All(sw: Switch)                      // while a record is found: use and remove it
    | InScope(sw: Switch, scope: Scope)    // one pass over the records of one scope
    | ContextPass                          // one pass over the three context switches
    | First(sw: Switch)                    // at most one record
    | ClearPass
    | RenameEnvAll
    | CollapseLists(sw: Switch)            // drop all but the last item of a name
    | StopOnHelp

  predicate IsContext(sw: Switch) {
    sw == AddContext || sw == DeleteContext || sw == SetContext
  }

  predicate Touches(h: Handler, sw: Switch) {
    match h
    case All(x) => x == sw
    case InScope(x, _) => x == sw
    case ContextPass => IsContext(sw)
    case First(x) => x == sw
    case ClearPass => sw == Clear
    case CollapseLists(_) => false
    case RenameEnvAll => sw == Env || sw == EnvAll
    case StopOnHelp => sw == Help
  }

  // ----- one handler on the list -----

  predicate Matches(h: Handler, r: Record) {
    match h
    case All(sw) => r.sw == sw
    case InScope(sw, scope) => r.sw == sw && r.scope == scope
    case ContextPass => IsContext(r.sw)
    case _ => false
  }

  function Taken(s: seq<Record>, h: Handler): seq<Record> {
    if s == [] then []
    else if Matches(h, s[0]) then [s[0]] + Taken(s[1..], h)
    else Taken(s[1..], h)
  }

  function Passed(s: seq<Record>, h: Handler): seq<Record> {
    if s == [] then []
    else if Matches(h, s[0]) then Passed(s[1..], h)
    else [s[0]] + Passed(s[1..], h)
  }

  function Pseudos(s: seq<Record>): seq<Record> {
    if s == [] then []
    else if IsPseudo(s[0].sw) then [s[0]] + Pseudos(s[1..])
    else Pseudos(s[1..])
  }

  function NonPseudos(s: seq<Record>): seq<Record> {
    if s == [] then []
    else if IsPseudo(s[0].sw) then NonPseudos(s[1..])
    else [s[0]] + NonPseudos(s[1..])
  }

  /** Before the last -clear only pseudo-arguments stay; behind it everything stays. */
  function Cleared(s: seq<Record>): seq<Record> {
    if s == [] then []
    else
      var n := |s| - 1;
      if s[n].sw == Clear then Pseudos(s[..n]) else Cleared(s[..n]) + [s[n]]
  }

  function Killed(s: seq<Record>): seq<Record> {
    if s == [] then []
    else
      var n := |s| - 1;
      if s[n].sw == Clear then NonPseudos(s[..n]) + [s[n]] else Killed(s[..n])
  }

  function Renamed(s: seq<Record>): (t: seq<Record>)
    ensures |t| == |s|
  {
    if s == [] then [] else [if s[0].sw == EnvAll then s[0].(sw := Env) else s[0]] + Renamed(s[1..])
  }

  /** The list, what has been used and killed so far, what was done to the job, and whether -help ended the run. */
  datatype State = State(cmd: seq<Record>, used: seq<Record>, killed: seq<Record>, log: seq<Deed>, stopped: bool)

  function Step(h: Handler, st: State): State {
    if st.stopped then st
    else
      match h
      case First(sw) => TakeOne(st, sw)
      case StopOnHelp => var st' := TakeOne(st, Help); st'.(stopped := |st'.used| > |st.used|)
      case ClearPass => st.(cmd := Cleared(st.cmd), killed := st.killed + Killed(st.cmd))
      case RenameEnvAll => st.(cmd := Renamed(st.cmd))
      case CollapseLists(sw) => st.(log := st.log + [Collapsed(sw)])
      case _ =>
        var taken := Taken(st.cmd, h);
        st.(cmd := Passed(st.cmd, h), used := st.used + taken, log := st.log + Takes(taken) + Behind(h, taken))
  }

  /** If a -masterq was taken, the queue requests move. */
  function Behind(h: Handler, taken: seq<Record>): seq<Deed> {
    if h.InScope? && h.sw == MasterQueue && taken != [] then [ShiftedQueues] else []
  }

  function TakeOne(st: State, sw: Switch): State {
    var k := Find(st.cmd, sw);
    if k < |st.cmd| then
      st.(cmd := RemoveAt(st.cmd, k), used := st.used + [st.cmd[k]], log := st.log + [Took(st.cmd[k])])
    else st
  }

  function Start(input: seq<Record>): State {
    State(input, [], [], [], false)
  }

  // ----- list laws of the handlers -----

  lemma {:induction false} TakenOfAll(s: seq<Record>, sw: Switch)
    ensures Taken(s, All(sw)) == Only(s, sw) && Passed(s, All(sw)) == Without(s, sw)
  {
    if s == [] {
    } else {
      TakenOfAll(s[1..], sw);
    }
  }

  lemma {:induction false} PassedKeeps(s: seq<Record>, h: Handler, sw: Switch)
    requires !Touches(h, sw)
    ensures Only(Passed(s, h), sw) == Only(s, sw) && Only(Taken(s, h), sw) == []
  {
    if s == [] {
    } else {
      PassedKeeps(s[1..], h, sw);
    }
  }

  lemma {:induction false} PassedConcat(a: seq<Record>, b: seq<Record>, h: Handler)
    ensures Passed(a + b, h) == Passed(a, h) + Passed(b, h) && Taken(a + b, h) == Taken(a, h) + Taken(b, h)
  {
    if a == [] {
      assert a + b == b;
    } else {
      assert (a + b)[0] == a[0] && (a + b)[1..] == a[1..] + b;
      PassedConcat(a[1..], b, h);
      if Matches(h, a[0]) {
        assert [a[0]] + (Taken(a[1..], h) + Taken(b, h)) == ([a[0]] + Taken(a[1..], h)) + Taken(b, h);
      } else {
        assert [a[0]] + (Passed(a[1..], h) + Passed(b, h)) == ([a[0]] + Passed(a[1..], h)) + Passed(b, h);
      }
    }
  }

  lemma {:induction false} PassedSurviving(s: seq<Record>, h: Handler, sw: Switch)
    requires !Touches(h, sw) && !Touches(h, Clear)
    ensures Surviving(Passed(s, h), sw) == Surviving(s, sw)
  {
    if s == [] {
    } else {
      var n := |s| - 1;
      PassedSurviving(s[..n], h, sw);
      assert s == s[..n] + [s[n]];
      PassedConcat(s[..n], [s[n]], h);
      if Matches(h, s[n]) {
        assert Passed([s[n]], h) == [] && Passed(s[..n], h) + [] == Passed(s[..n], h);
      } else {
        assert Passed([s[n]], h) == [s[n]];
        SurvivingLast(Passed(s[..n], h), s[n], sw);
      }
    }
  }

  lemma {:induction false} PseudosOnly(s: seq<Record>, sw: Switch)
    ensures Only(Pseudos(s), sw) == if IsPseudo(sw) then Only(s, sw) else []
  {
    if s == [] {
    } else {
      PseudosOnly(s[1..], sw);
    }
  }

  lemma ClearedLast(s: seq<Record>, n: nat)
    requires |s| == n + 1 && s[n].sw != Clear
    ensures var c := Cleared(s); c != [] && c[|c| - 1] == s[n] && c[..|c| - 1] == Cleared(s[..n])
  {
  }

  /** -clear keeps exactly the surviving options, and every pseudo-argument. */
  lemma {:induction false} ClearedOnly(s: seq<Record>, sw: Switch)
    requires sw != Clear
    ensures Only(Cleared(s), sw) == if IsPseudo(sw) then Only(s, sw) else Surviving(s, sw)
  {
    if s == [] {
    } else {
      var n := |s| - 1;
      OnlyLast(s, n, sw);
      if s[n].sw == Clear {
        PseudosOnly(s[..n], sw);
      } else {
        ClearedOnly(s[..n], sw);
        ClearedLast(s, n);
        OnlyLast(Cleared(s), |Cleared(s)| - 1, sw);
      }
    }
  }

  lemma {:induction false} RenamedOnly(s: seq<Record>, sw: Switch)
    requires sw != Env && sw != EnvAll
    ensures Only(Renamed(s), sw) == Only(s, sw)
  {
    if s == [] {
    } else {
      RenamedOnly(s[1..], sw);
    }
  }

  lemma {:induction false} RenamedPoint(s: seq<Record>, k: nat)
    requires k < |s|
    ensures Renamed(s)[k] == if s[k].sw == EnvAll then s[k].(sw := Env) else s[k]
    ensures Renamed(s)[..k] == Renamed(s[..k])
  {
    if k == 0 {
    } else {
      RenamedPoint(s[1..], k - 1);
      assert s[..k][1..] == s[1..][..k - 1];
    }
  }

  lemma {:induction false} RenamedSurviving(s: seq<Record>, sw: Switch)
    requires sw != Env && sw != EnvAll
    ensures Surviving(Renamed(s), sw) == Surviving(s, sw)
  {
    if s == [] {
    } else {
      var n := |s| - 1;
      RenamedPoint(s, n);
      RenamedSurviving(s[..n], sw);
    }
  }

  // ----- one step -----


  /** A handler that does not concern a switch leaves its records, and what -clear would leave of them. */
  lemma StepKeeps(h: Handler, st: State, sw: Switch)
    requires !Touches(h, sw) && !Touches(h, Clear)
    ensures Only(Step(h, st).cmd, sw) == Only(st.cmd, sw) && Only(Step(h, st).used, sw) == Only(st.used, sw)
    ensures Surviving(Step(h, st).cmd, sw) == Surviving(st.cmd, sw)
  {
    if !st.stopped {
      match h
      case First(x) => OneKeeps(st, x, sw);
      case StopOnHelp => OneKeeps(st, Help, sw);
      case RenameEnvAll =>
        RenamedOnly(st.cmd, sw);
        RenamedSurviving(st.cmd, sw);
      case _ =>
        PassedKeeps(st.cmd, h, sw);
        PassedSurviving(st.cmd, h, sw);
        OnlyConcat(st.used, Taken(st.cmd, h), sw);
    }
  }

  lemma OneKeeps(st: State, x: Switch, sw: Switch)
    requires x != sw && x != Clear
    ensures Only(TakeOne(st, x).cmd, sw) == Only(st.cmd, sw) && Only(TakeOne(st, x).used, sw) == Only(st.used, sw)
    ensures Surviving(TakeOne(st, x).cmd, sw) == Surviving(st.cmd, sw)
  {
    var k := Find(st.cmd, x);
    if k < |st.cmd| {
      RemoveOther(st.cmd, k, sw);
      RemoveSurviving(st.cmd, k, sw);
      OnlyConcat(st.used, [st.cmd[k]], sw);
      assert Only([st.cmd[k]], sw) == [];
    }
  }

  lemma StepUses(h: Handler, st: State, sw: Switch)
    requires !st.stopped && (h == All(sw) || h == First(sw))
    ensures var st' := Step(h, st);
      && Only(st'.used, sw) == Only(st.used, sw) + (if h.First? then FirstOf(Only(st.cmd, sw)) else Only(st.cmd, sw))
      && Only(st'.cmd, sw) == (if h.First? then RestOf(Only(st.cmd, sw)) else [])
  {
    NoneLeft(st.cmd, sw);
    if h.First? {
      var k := Find(st.cmd, sw);
      if k < |st.cmd| {
        TakeFirst(st.cmd, sw);
        OnlyConcat(st.used, [st.cmd[k]], sw);
        assert Only([st.cmd[k]], sw) == [st.cmd[k]];
      }
    } else {
      TakenOfAll(st.cmd, sw);
      OnlyConcat(st.used, Only(st.cmd, sw), sw);
      OnlyOnly(st.cmd, sw);
    }
  }

  lemma StepSurviving(h: Handler, st: State, sw: Switch)
    requires !st.stopped && sw != Clear && (h == All(sw) || h == First(sw))
    ensures Surviving(Step(h, st).cmd, sw)
         == if h.First? then RestIfFirstSurvives(st.cmd, sw) else []
  {
    NoneLeft(st.cmd, sw);
    SurvivingIsShorter(st.cmd, sw);
    if h.First? {
      if Find(st.cmd, sw) < |st.cmd| {
        RemoveFirstSurviving(st.cmd, sw);
      }
    } else {
      TakenOfAll(st.cmd, sw);
      SurvivingIsShorter(Without(st.cmd, sw), sw);
    }
  }

  // ----- no record is lost or used twice -----

  function Norm(r: Record): Record {
    if r.sw == EnvAll then r.(sw := Env) else r
  }

  /** How often a record occurs; a -V counts as the -v it becomes. */
  function Count(s: seq<Record>, r: Record): nat {
    if s == [] then 0 else (if Norm(s[0]) == r then 1 else 0) + Count(s[1..], r)
  }

  lemma {:induction false} CountConcat(a: seq<Record>, b: seq<Record>, r: Record)
    ensures Count(a + b, r) == Count(a, r) + Count(b, r)
  {
    ConcatFirst(a, b);
    if a == [] {
    } else {
      CountConcat(a[1..], b, r);
    }
  }

  lemma {:induction false} CountRenamed(s: seq<Record>, r: Record)
    ensures Count(Renamed(s), r) == Count(s, r)
  {
    if s == [] {
    } else {
      CountRenamed(s[1..], r);
    }
  }

  lemma {:induction false} CountTaken(s: seq<Record>, h: Handler, r: Record)
    ensures Count(s, r) == Count(Passed(s, h), r) + Count(Taken(s, h), r)
  {
    if s == [] {
    } else {
      CountTaken(s[1..], h, r);
    }
  }

  lemma {:induction false} CountPseudos(s: seq<Record>, r: Record)
    ensures Count(s, r) == Count(Pseudos(s), r) + Count(NonPseudos(s), r)
  {
    if s == [] {
    } else {
      CountPseudos(s[1..], r);
    }
  }

  lemma {:induction false} CountCleared(s: seq<Record>, r: Record)
    ensures Count(s, r) == Count(Cleared(s), r) + Count(Killed(s), r)
  {
    if s == [] {
    } else {
      var n := |s| - 1;
      assert s == s[..n] + [s[n]];
      CountConcat(s[..n], [s[n]], r);
      if s[n].sw == Clear {
        CountPseudos(s[..n], r);
        CountConcat(NonPseudos(s[..n]), [s[n]], r);
      } else {
        CountCleared(s[..n], r);
        CountConcat(Cleared(s[..n]), [s[n]], r);
      }
    }
  }

  lemma CountOne(st: State, sw: Switch, r: Record)
    ensures var st' := TakeOne(st, sw); Count(st'.cmd, r) + Count(st'.used, r) == Count(st.cmd, r) + Count(st.used, r)
  {
    var k := Find(st.cmd, sw);
    if k < |st.cmd| {
      var a, x, b := st.cmd[..k], [st.cmd[k]], st.cmd[k + 1..];
      SplitAt(st.cmd, k);
      CountConcat(a, x + b, r);
      CountConcat(x, b, r);
      CountConcat(a, b, r);
      CountConcat(st.used, x, r);
    }
  }

  function Everywhere(st: State, r: Record): nat {
    Count(st.cmd, r) + Count(st.used, r) + Count(st.killed, r)
  }

  lemma StepConserves(h: Handler, st: State, r: Record)
    ensures Everywhere(Step(h, st), r) == Everywhere(st, r)
  {
    if !st.stopped {
      match h
      case First(sw) => CountOne(st, sw, r);
      case StopOnHelp => CountOne(st, Help, r);
      case ClearPass =>
        CountCleared(st.cmd, r);
        CountConcat(st.killed, Killed(st.cmd), r);
      case RenameEnvAll => CountRenamed(st.cmd, r);
      case _ =>
        CountTaken(st.cmd, h, r);
        CountConcat(st.used, Taken(st.cmd, h), r);
    }
  }

  // ----- the log -----

  /** The log names the used records, in order. */
  lemma StepLogs(h: Handler, st: State)
    requires RecordsOf(st.log) == st.used
    ensures RecordsOf(Step(h, st).log) == Step(h, st).used
  {
    if st.stopped {
    } else {
      match h
      case First(sw) => OneLogs(st, sw);
      case StopOnHelp => OneLogs(st, Help);
      case ClearPass =>
      case RenameEnvAll =>
      case CollapseLists(sw) => RecordsConcat(st.log, [Collapsed(sw)]);
      case _ => TakenLogs(st.log, Taken(st.cmd, h), Behind(h, Taken(st.cmd, h)));
    }
  }

  lemma OneLogs(st: State, sw: Switch)
    requires RecordsOf(st.log) == st.used
    ensures RecordsOf(TakeOne(st, sw).log) == TakeOne(st, sw).used
  {
    var k := Find(st.cmd, sw);
    if k < |st.cmd| {
      RecordsConcat(st.log, [Took(st.cmd[k])]);
    }
  }

  lemma TakenLogs(log: seq<Deed>, taken: seq<Record>, behind: seq<Deed>)
    requires behind == [] || behind == [ShiftedQueues]
    ensures RecordsOf(log + Takes(taken) + behind) == RecordsOf(log) + taken
  {
    RecordsConcat(log + Takes(taken), behind);
    RecordsConcat(log, Takes(taken));
    RecordsOfTakes(taken);
  }
}
