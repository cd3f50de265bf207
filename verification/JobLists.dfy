/**
 The lists of a job along a run of handlers, for any sequence of handlers: which handlers change
 a list, and how.
 */
module JobLists {
  import opened Options
  import opened Items
  import opened JobFields
  import opened JobParameters
  import opened HandlerRuns

  function JobAt(env: seq<Item>, st: State): Job {
    Fold(Fresh(env), st.log)
  }

  /** The list of a field at a point of a run. */
  function ListAt(env: seq<Item>, st: State, f: Field): seq<Item> {
    ListOf(JobAt(env, st), f)
  }

  /** May the handler change the list of the field? */
  predicate Feeds(h: Handler, f: Field) {
    match h
    case All(sw) => MayFeed(sw, f)
    case InScope(sw, _) => MayFeed(sw, f)
    case First(sw) => MayFeed(sw, f)
    case ContextPass => f.sw == SetContext || IsContextSwitch(f.sw)
    case CollapseLists(sw) => f.sw == sw
    case StopOnHelp => f.sw == Help
    case ClearPass => false
    case RenameEnvAll => false
  }

  predicate Unfed(hs: seq<Handler>, lo: nat, hi: nat, f: Field)
    requires hi <= |hs|
  {
    forall x | lo <= x < hi :: !Feeds(hs[x], f)
  }

  // ----- one step -----

  lemma {:induction false} TakenMatch(s: seq<Record>, h: Handler, k: nat)
    requires k < |Taken(s, h)|
    ensures Matches(h, Taken(s, h)[k])
  {
    if Matches(h, s[0]) {
      if k == 0 {
      } else {
        TakenMatch(s[1..], h, k - 1);
      }
    } else {
      TakenMatch(s[1..], h, k);
    }
  }

  lemma MatchesFeed(h: Handler, r: Record, f: Field)
    requires Matches(h, r) && MayFeed(r.sw, f)
    ensures Feeds(h, f)
  {
  }

  lemma TakenUnfed(s: seq<Record>, h: Handler, f: Field, before: seq<Item>)
    requires !Feeds(h, f)
    ensures ListThrough(before, Taken(s, h), f) == before
  {
    var rs := Taken(s, h);
    forall k | 0 <= k < |rs|
      ensures !MayFeed(rs[k].sw, f)
    {
      TakenMatch(s, h, k);
      if MayFeed(rs[k].sw, f) {
        MatchesFeed(h, rs[k], f);
      }
    }
    ListUnfed(before, rs, f);
  }

  lemma FoldTakesBehind(env: seq<Item>, log: seq<Deed>, rs: seq<Record>, f: Field)
    ensures ListOf(Fold(Fresh(env), log + Takes(rs)), f) == ListThrough(ListOf(Fold(Fresh(env), log), f), rs, f)
  {
    FoldConcat(Fresh(env), log, Takes(rs));
    FoldTakes(Fold(Fresh(env), log), rs, f);
  }

  lemma TakenKeeps(env: seq<Item>, st: State, h: Handler, f: Field)
    requires !Feeds(h, f)
    ensures var taken := Taken(st.cmd, h);
      ListOf(Fold(Fresh(env), st.log + Takes(taken) + Behind(h, taken)), f) == ListAt(env, st, f)
  {
    var taken := Taken(st.cmd, h);
    var log := st.log + Takes(taken);
    FoldTakesBehind(env, st.log, taken, f);
    TakenUnfed(st.cmd, h, f, ListAt(env, st, f));
    if Behind(h, taken) == [] {
      assert log + [] == log;
    } else {
      FoldLast(Fresh(env), log, ShiftedQueues);
      DoShift(Fold(Fresh(env), log), f);
    }
  }

  lemma OneKeepsList(env: seq<Item>, st: State, x: Switch, f: Field)
    requires !MayFeed(x, f)
    ensures ListAt(env, TakeOne(st, x), f) == ListAt(env, st, f)
  {
    var k := Find(st.cmd, x);
    if k < |st.cmd| {
      var r := st.cmd[k];
      FoldLast(Fresh(env), st.log, Took(r));
      DoList(JobAt(env, st), Took(r), f);
      if ListField(r) == Some(f) {
        FeedsItsField(r, f);
      }
    }
  }

  lemma StepKeepsList(env: seq<Item>, st: State, h: Handler, f: Field)
    requires !Feeds(h, f)
    ensures ListAt(env, Step(h, st), f) == ListAt(env, st, f)
  {
    if st.stopped {
    } else {
      match h
      case First(x) => OneKeepsList(env, st, x, f);
      case StopOnHelp => OneKeepsList(env, st, Help, f);
      case ClearPass =>
      case RenameEnvAll =>
      case CollapseLists(sw) =>
        FoldLast(Fresh(env), st.log, Collapsed(sw));
        DoCollapse(JobAt(env, st), sw, f);
      case _ => TakenKeeps(env, st, h, f);
    }
  }

  // ----- along a run -----

  lemma ListKeptAt(env: seq<Item>, hs: seq<Handler>, tr: seq<State>, k: nat, f: Field)
    requires IsTrace(hs, tr) && k < |hs| && !Feeds(hs[k], f)
    ensures ListAt(env, tr[k + 1], f) == ListAt(env, tr[k], f)
  {
    assert StepAt(hs, tr, k);
    StepKeepsList(env, tr[k], hs[k], f);
  }

  lemma {:induction false} ListKept(env: seq<Item>, hs: seq<Handler>, tr: seq<State>, k: nat, m: nat, f: Field)
    requires IsTrace(hs, tr) && k <= m <= |hs| && Unfed(hs, k, m, f)
    ensures ListAt(env, tr[m], f) == ListAt(env, tr[k], f)
    decreases m - k
  {
    if k == m {
    } else {
      ListKept(env, hs, tr, k, m - 1, f);
      ListKeptAt(env, hs, tr, m - 1, f);
    }
  }

  /** A handler that takes records puts them into the list, one after the other. */
  lemma ListTakenAt(env: seq<Item>, hs: seq<Handler>, tr: seq<State>, k: nat, f: Field)
    requires IsTrace(hs, tr) && k < |hs| && !tr[k].stopped
    requires (hs[k].All? || hs[k].InScope? || hs[k].ContextPass?) && Behind(hs[k], Taken(tr[k].cmd, hs[k])) == []
    ensures ListAt(env, tr[k + 1], f) == ListThrough(ListAt(env, tr[k], f), Taken(tr[k].cmd, hs[k]), f)
  {
    var taken := Taken(tr[k].cmd, hs[k]);
    assert StepAt(hs, tr, k);
    assert tr[k].log + Takes(taken) + [] == tr[k].log + Takes(taken);
    FoldTakesBehind(env, tr[k].log, taken, f);
  }

  lemma ListCollapsedAt(env: seq<Item>, hs: seq<Handler>, tr: seq<State>, k: nat, f: Field)
    requires IsTrace(hs, tr) && k < |hs| && !tr[k].stopped && hs[k] == CollapseLists(f.sw)
    ensures ListAt(env, tr[k + 1], f) == Compressed(ListAt(env, tr[k], f))
  {
    assert StepAt(hs, tr, k);
    FoldLast(Fresh(env), tr[k].log, Collapsed(f.sw));
    DoCollapse(JobAt(env, tr[k]), f.sw, f);
  }

  lemma FreshList(env: seq<Item>, input: seq<Record>, f: Field)
    ensures ListAt(env, Start(input), f) == if f == F(Env) then env else []
  {
  }

  /** A list that one handler changes: what that handler makes of the list of the fresh job. */
  lemma ListOver(env: seq<Item>, hs: seq<Handler>, tr: seq<State>, k: nat, f: Field, taken: seq<Record>)
    requires IsTrace(hs, tr) && k < |hs| && !tr[k].stopped && taken == Taken(tr[k].cmd, hs[k])
    requires (hs[k].All? || hs[k].InScope? || hs[k].ContextPass?) && Behind(hs[k], taken) == []
    requires Unfed(hs, 0, k, f) && Unfed(hs, k + 1, |hs|, f)
    ensures ListAt(env, tr[|hs|], f) == ListThrough(ListAt(env, tr[0], f), taken, f)
  {
    ListKept(env, hs, tr, 0, k, f);
    ListTakenAt(env, hs, tr, k, f);
    ListKept(env, hs, tr, k + 1, |hs|, f);
  }

  lemma PlainTaken(hs: seq<Handler>, tr: seq<State>, c: nat, k: nat, input: seq<Record>, sw: Switch)
    requires IsTrace(hs, tr) && k < |hs| && tr[0] == Start(input) && !tr[k].stopped
    requires ClearsAt(hs, c) && HandledAt(hs, k, sw) && hs[k] == All(sw) && c < k && sw != Clear
    ensures Taken(tr[k].cmd, hs[k]) == Reaching(input, sw, false)
  {
    var own := LateReach(hs, tr, c, k, input, sw);
    TakenOfAll(tr[k].cmd, sw);
  }

  /** The list of a switch with one handler: its records put into the list of the fresh job. */
  lemma ListOfPlain(env: seq<Item>, hs: seq<Handler>, tr: seq<State>, c: nat, k: nat, input: seq<Record>, f: Field)
    requires IsTrace(hs, tr) && tr[0] == Start(input) && !tr[|hs|].stopped
    requires ClearsAt(hs, c) && HandledAt(hs, k, f.sw) && hs[k] == All(f.sw) && c < k
    requires f.sw != Clear && Unfed(hs, 0, k, f) && Unfed(hs, k + 1, |hs|, f)
    ensures ListAt(env, tr[|hs|], f) == ListThrough(ListAt(env, tr[0], f), Reaching(input, f.sw, false), f)
  {
    RunNotStopped(hs, tr, k, |hs|);
    PlainTaken(hs, tr, c, k, input, f.sw);
    ListOver(env, hs, tr, k, f, Reaching(input, f.sw, false));
  }
}
