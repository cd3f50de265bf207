/**
 Switches that are handled together, in one order: the laws of `Options` and `HandlerRuns` for
 the records of a set of switches.
 */
module SwitchGroups {
  import opened Options
  import opened JobParameters
  import opened HandlerRuns

  function Group(s: seq<Record>, g: set<Switch>): seq<Record> {
    if s == [] then [] else Group(s[..|s| - 1], g) + if s[|s| - 1].sw in g then [s[|s| - 1]] else []
  }

  /** The records of the group that no later -clear kills. */
  function SurvivingGroup(s: seq<Record>, g: set<Switch>): seq<Record> {
    if s == [] then []
    else
      var last := s[|s| - 1];
      if last.sw == Clear then []
      else SurvivingGroup(s[..|s| - 1], g) + if last.sw in g then [last] else []
  }

  lemma GroupLast(s: seq<Record>, r: Record, g: set<Switch>)
    ensures Group(s + [r], g) == Group(s, g) + if r.sw in g then [r] else []
    ensures SurvivingGroup(s + [r], g) == if r.sw == Clear then [] else SurvivingGroup(s, g) + if r.sw in g then [r] else []
  {
    assert (s + [r])[..|s|] == s;
  }

  lemma {:induction false} GroupConcat(a: seq<Record>, b: seq<Record>, g: set<Switch>)
    ensures Group(a + b, g) == Group(a, g) + Group(b, g)
    ensures SurvivingGroup(a + b, g)
         == if HasClear(b) then SurvivingGroup(b, g) else SurvivingGroup(a, g) + SurvivingGroup(b, g)
  {
    ConcatLast(a, b);
    if b == [] {
    } else {
      GroupConcat(a, b[..|b| - 1], g);
      HasClearLast(b);
    }
  }

  // ----- what the handlers leave of a group -----

  predicate AreUntouched(h: Handler, g: set<Switch>) {
    forall sw | sw in g :: !Touches(h, sw)
  }

  lemma PassedLast(s: seq<Record>, n: nat, h: Handler)
    requires |s| == n + 1
    ensures Passed(s, h) == Passed(s[..n], h) + if Matches(h, s[n]) then [] else [s[n]]
  {
    assert s == s[..n] + [s[n]];
    PassedConcat(s[..n], [s[n]], h);
  }

  lemma MatchesTouches(h: Handler, r: Record)
    requires Matches(h, r)
    ensures Touches(h, r.sw)
  {
  }

  lemma {:induction false} PassedGroup(s: seq<Record>, h: Handler, g: set<Switch>)
    requires AreUntouched(h, g) && !Touches(h, Clear)
    ensures Group(Passed(s, h), g) == Group(s, g) && SurvivingGroup(Passed(s, h), g) == SurvivingGroup(s, g)
  {
    if s == [] {
    } else {
      var n := |s| - 1;
      PassedGroup(s[..n], h, g);
      PassedLast(s, n, h);
      if Matches(h, s[n]) {
        MatchesTouches(h, s[n]);
        assert Passed(s, h) == Passed(s[..n], h);
      } else {
        GroupLast(Passed(s[..n], h), s[n], g);
      }
    }
  }

  lemma GroupSkips(a: seq<Record>, r: Record, g: set<Switch>)
    requires r.sw !in g && r.sw != Clear
    ensures Group(a + [r], g) == Group(a, g) && SurvivingGroup(a + [r], g) == SurvivingGroup(a, g)
  {
    GroupLast(a, r, g);
    assert Group(a, g) + [] == Group(a, g);
    assert SurvivingGroup(a, g) + [] == SurvivingGroup(a, g);
  }

  lemma GroupWithout(a: seq<Record>, r: Record, b: seq<Record>, g: set<Switch>)
    requires r.sw !in g && r.sw != Clear
    ensures Group(a + [r] + b, g) == Group(a + b, g) && SurvivingGroup(a + [r] + b, g) == SurvivingGroup(a + b, g)
  {
    GroupSkips(a, r, g);
    GroupConcat(a + [r], b, g);
    GroupConcat(a, b, g);
  }

  lemma RemovedGroup(s: seq<Record>, k: nat, g: set<Switch>)
    requires k < |s| && s[k].sw !in g && s[k].sw != Clear
    ensures Group(RemoveAt(s, k), g) == Group(s, g) && SurvivingGroup(RemoveAt(s, k), g) == SurvivingGroup(s, g)
  {
    GroupWithout(s[..k], s[k], s[k + 1..], g);
    assert s == s[..k] + [s[k]] + s[k + 1..];
  }

  lemma {:induction false} RenamedGroup(s: seq<Record>, g: set<Switch>)
    requires Env !in g && EnvAll !in g
    ensures Group(Renamed(s), g) == Group(s, g) && SurvivingGroup(Renamed(s), g) == SurvivingGroup(s, g)
  {
    if s == [] {
    } else {
      var n := |s| - 1;
      RenamedGroup(s[..n], g);
      RenamedPoint(s, n);
    }
  }

  lemma {:induction false} PseudosGroup(s: seq<Record>, g: set<Switch>)
    requires forall sw | sw in g :: !IsPseudo(sw)
    ensures Group(Pseudos(s), g) == []
  {
    if s == [] {
    } else {
      PseudosGroup(s[1..], g);
      if IsPseudo(s[0].sw) {
        GroupConcat([s[0]], Pseudos(s[1..]), g);
        GroupLast([], s[0], g);
        assert [] + [s[0]] == [s[0]];
      }
    }
  }

  lemma {:induction false} ClearedGroup(s: seq<Record>, g: set<Switch>)
    requires forall sw | sw in g :: !IsPseudo(sw)
    ensures Group(Cleared(s), g) == SurvivingGroup(s, g)
  {
    if s == [] {
    } else {
      var n := |s| - 1;
      if s[n].sw == Clear {
        PseudosGroup(s[..n], g);
      } else {
        ClearedGroup(s[..n], g);
        GroupLast(Cleared(s[..n]), s[n], g);
      }
    }
  }

  lemma OneKeepsGroup(st: State, x: Switch, g: set<Switch>)
    requires x !in g && x != Clear
    ensures Group(TakeOne(st, x).cmd, g) == Group(st.cmd, g)
    ensures SurvivingGroup(TakeOne(st, x).cmd, g) == SurvivingGroup(st.cmd, g)
  {
    if Find(st.cmd, x) < |st.cmd| {
      RemovedGroup(st.cmd, Find(st.cmd, x), g);
    }
  }

  lemma StepKeepsGroup(h: Handler, st: State, g: set<Switch>)
    requires AreUntouched(h, g) && !Touches(h, Clear)
    ensures Group(Step(h, st).cmd, g) == Group(st.cmd, g)
    ensures SurvivingGroup(Step(h, st).cmd, g) == SurvivingGroup(st.cmd, g)
  {
    if st.stopped {
    } else {
      match h
      case First(x) => OneKeepsGroup(st, x, g);
      case StopOnHelp => OneKeepsGroup(st, Help, g);
      case RenameEnvAll => RenamedGroup(st.cmd, g);
      case CollapseLists(_) =>
      case _ => PassedGroup(st.cmd, h, g);
    }
  }

  // ----- whole runs -----

  predicate GroupUntouched(hs: seq<Handler>, lo: nat, hi: nat, g: set<Switch>)
    requires hi <= |hs|
  {
    forall x | lo <= x < hi :: AreUntouched(hs[x], g)
  }

  lemma GroupKeptAt(hs: seq<Handler>, tr: seq<State>, k: nat, g: set<Switch>)
    requires IsTrace(hs, tr) && k < |hs| && AreUntouched(hs[k], g) && !Touches(hs[k], Clear)
    ensures Group(tr[k + 1].cmd, g) == Group(tr[k].cmd, g)
    ensures SurvivingGroup(tr[k + 1].cmd, g) == SurvivingGroup(tr[k].cmd, g)
  {
    assert StepAt(hs, tr, k);
    StepKeepsGroup(hs[k], tr[k], g);
  }

  lemma {:induction false} GroupKept(hs: seq<Handler>, tr: seq<State>, k: nat, m: nat, g: set<Switch>)
    requires IsTrace(hs, tr) && k <= m <= |hs| && GroupUntouched(hs, k, m, g) && Untouched(hs, k, m, Clear)
    ensures Group(tr[m].cmd, g) == Group(tr[k].cmd, g)
    ensures SurvivingGroup(tr[m].cmd, g) == SurvivingGroup(tr[k].cmd, g)
    decreases m - k
  {
    if k == m {
    } else {
      GroupKept(hs, tr, k, m - 1, g);
      GroupKeptAt(hs, tr, m - 1, g);
    }
  }

  lemma GroupClearedAt(hs: seq<Handler>, tr: seq<State>, c: nat, g: set<Switch>)
    requires IsTrace(hs, tr) && c < |hs| && hs[c] == ClearPass && !tr[c].stopped
    requires forall sw | sw in g :: !IsPseudo(sw)
    ensures Group(tr[c + 1].cmd, g) == SurvivingGroup(tr[c].cmd, g)
  {
    assert StepAt(hs, tr, c);
    ClearedGroup(tr[c].cmd, g);
  }

  /** What reaches a handler behind -clear: the records of the group that survive, in one order. */
  lemma GroupReach(hs: seq<Handler>, tr: seq<State>, c: nat, k: nat, input: seq<Record>, g: set<Switch>)
    requires IsTrace(hs, tr) && tr[0] == Start(input) && ClearsAt(hs, c) && c < k <= |hs| && !tr[k].stopped
    requires GroupUntouched(hs, 0, k, g) && forall sw | sw in g :: !IsPseudo(sw)
    ensures Group(tr[k].cmd, g) == SurvivingGroup(input, g)
  {
    GroupKept(hs, tr, 0, c, g);
    RunNotStopped(hs, tr, c, k);
    GroupClearedAt(hs, tr, c, g);
    GroupKept(hs, tr, c + 1, k, g);
  }

  // ----- the two groups -----

  const CONTEXTS: set<Switch> := {AddContext, DeleteContext, SetContext}

  const VARIABLES: set<Switch> := {Env, EnvAll}

  lemma GroupFacts()
    ensures Queue !in CONTEXTS && Validate !in CONTEXTS && Queue !in VARIABLES && Validate !in VARIABLES
    ensures forall sw | sw in CONTEXTS :: !IsPseudo(sw)
    ensures forall sw | sw in VARIABLES :: !IsPseudo(sw)
  {
  }

  lemma {:induction false} TakenContexts(s: seq<Record>)
    ensures Taken(s, ContextPass) == Group(s, CONTEXTS)
  {
    if s == [] {
    } else {
      var n := |s| - 1;
      TakenContexts(s[..n]);
      assert s == s[..n] + [s[n]];
      PassedConcat(s[..n], [s[n]], ContextPass);
    }
  }

  lemma RenamedNext(s: seq<Record>, n: nat)
    requires |s| == n + 1 && Only(Renamed(s[..n]), Env) == Renamed(Group(s[..n], VARIABLES))
    ensures Only(Renamed(s), Env) == Renamed(Group(s, VARIABLES))
  {
    var front, own := Renamed(s[..n]), Group(s[..n], VARIABLES);
    RenamedPoint(s, n);
    OnlyLast(Renamed(s), n, Env);
    assert Renamed(s)[..n] == front;
    if s[n].sw == Env || s[n].sw == EnvAll {
      assert Group(s, VARIABLES) == own + [s[n]];
      RenamedAppend(own, s[n]);
    } else {
      assert Group(s, VARIABLES) == own && Only(front, Env) + [] == Only(front, Env);
    }
  }

  lemma {:induction false} RenamedVariables(s: seq<Record>)
    ensures Only(Renamed(s), Env) == Renamed(Group(s, VARIABLES))
  {
    if s == [] {
      assert Only(Renamed(s), Env) == [] == Group(s, VARIABLES);
    } else {
      var n := |s| - 1;
      RenamedVariables(s[..n]);
      RenamedNext(s, n);
    }
  }

  lemma RenamedAppend(s: seq<Record>, r: Record)
    ensures Renamed(s + [r]) == Renamed(s) + [if r.sw == EnvAll then r.(sw := Env) else r]
  {
    RenamedPoint(s + [r], |s|);
    assert (s + [r])[..|s|] == s;
  }
}
