/**
 The passes over scoped requests (-l and -q) and the move of queue requests by -masterq, along a
 run of handlers.
 */
module RequestRuns {
  import opened Options
  import opened Items
  import opened JobFields
  import opened JobParameters
  import opened HandlerRuns
  import opened JobLists

  predicate IsScoped(sw: Switch) {
    sw == Resource || sw == Queue
  }

  // ----- one pass -----

  lemma ScopedField(r: Record, f: Field)
    requires IsScoped(f.sw) && r.sw == f.sw
    ensures ListField(r) == Some(f) <==> r.scope == f.scope && (r.hardSoft >= 2) == f.soft
  {
  }

  lemma OneContribution(r: Record, f: Field)
    ensures Contribution([r], f) == Added(r, f)
  {
    assert Contribution([r][..0], f) == [];
  }

  lemma ContributionFirst(r: Record, s: seq<Record>, f: Field)
    ensures Contribution([r] + s, f) == Added(r, f) + Contribution(s, f)
  {
    ContributionConcat([r], s, f);
    OneContribution(r, f);
  }

  /** The pass for a scope takes what goes into the lists of that scope, and nothing else. */
  lemma {:induction false} PassTakes(s: seq<Record>, pass: Scope, f: Field)
    requires IsScoped(f.sw)
    ensures var h := InScope(f.sw, pass); var own := Contribution(Only(s, f.sw), f);
      && Contribution(Taken(s, h), f) == (if pass == f.scope then own else [])
      && Contribution(Only(Passed(s, h), f.sw), f) == (if pass == f.scope then [] else own)
  {
    if s == [] {
    } else {
      PassTakes(s[1..], pass, f);
      if s[0].sw == f.sw {
        PassFirst(s, pass, f);
      } else {
        OnlyFirst(s, InScope(f.sw, pass), f.sw);
      }
    }
  }

  lemma OnlyFirst(s: seq<Record>, h: Handler, sw: Switch)
    requires s != [] && s[0].sw != sw && h.InScope? && h.sw == sw
    ensures Taken(s, h) == Taken(s[1..], h) && Only(Passed(s, h), sw) == Only(Passed(s[1..], h), sw)
    ensures Only(s, sw) == Only(s[1..], sw)
  {
    assert Passed(s, h)[1..] == Passed(s[1..], h);
  }

  lemma PassFirst(s: seq<Record>, pass: Scope, f: Field)
    requires IsScoped(f.sw) && s != [] && s[0].sw == f.sw
    ensures var h := InScope(f.sw, pass);
      && Contribution(Only(s, f.sw), f) == Added(s[0], f) + Contribution(Only(s[1..], f.sw), f)
      && Contribution(Taken(s, h), f) == (if s[0].scope == pass then Added(s[0], f) else []) + Contribution(Taken(s[1..], h), f)
      && Contribution(Only(Passed(s, h), f.sw), f)
         == (if s[0].scope == pass then [] else Added(s[0], f)) + Contribution(Only(Passed(s[1..], h), f.sw), f)
      && (Added(s[0], f) != [] ==> s[0].scope == f.scope)
  {
    var h := InScope(f.sw, pass);
    ScopedField(s[0], f);
    ContributionFirst(s[0], Only(s[1..], f.sw), f);
    if s[0].scope == pass {
      ContributionFirst(s[0], Taken(s[1..], h), f);
    } else {
      assert Passed(s, h)[1..] == Passed(s[1..], h);
      ContributionFirst(s[0], Only(Passed(s[1..], h), f.sw), f);
    }
  }

  // ----- three passes -----

  /** The passes over the three scopes start at `k`, and no other handler concerns the switch. */
  predicate PassesAt(hs: seq<Handler>, k: nat, sw: Switch) {
    && k + 3 < |hs| && Untouched(hs, 0, k, sw) && Untouched(hs, k + 3, |hs|, sw)
    && hs[k] == InScope(sw, Global) && hs[k + 1] == InScope(sw, Master) && hs[k + 2] == InScope(sw, Slave)
  }

  lemma PassAt(env: seq<Item>, hs: seq<Handler>, tr: seq<State>, k: nat, pass: Scope, f: Field)
    returns (list: seq<Item>, own: seq<Item>, list': seq<Item>, own': seq<Item>)
    requires IsTrace(hs, tr) && k < |hs| && !tr[k].stopped && hs[k] == InScope(f.sw, pass) && IsScoped(f.sw)
    ensures list == ListAt(env, tr[k], f) && own == Contribution(Only(tr[k].cmd, f.sw), f)
    ensures list' == ListAt(env, tr[k + 1], f) && own' == Contribution(Only(tr[k + 1].cmd, f.sw), f)
    ensures if pass == f.scope then list' == list + own && own' == [] else list' == list && own' == own
  {
    list, own := ListAt(env, tr[k], f), Contribution(Only(tr[k].cmd, f.sw), f);
    list', own' := ListAt(env, tr[k + 1], f), Contribution(Only(tr[k + 1].cmd, f.sw), f);
    ListTakenAt(env, hs, tr, k, f);
    ListAppended(list, Taken(tr[k].cmd, hs[k]), f);
    PassTakes(tr[k].cmd, pass, f);
    PassedAt(hs, tr, k);
  }

  lemma PassedAt(hs: seq<Handler>, tr: seq<State>, k: nat)
    requires IsTrace(hs, tr) && k < |hs| && !tr[k].stopped && hs[k].InScope?
    ensures tr[k + 1].cmd == Passed(tr[k].cmd, hs[k])
  {
    assert StepAt(hs, tr, k);
  }

  lemma ThreePasses(env: seq<Item>, hs: seq<Handler>, tr: seq<State>, k: nat, j: nat, f: Field)
    requires IsTrace(hs, tr) && IsScoped(f.sw) && PassesAt(hs, k, f.sw) && j == k + 3
    requires !tr[k].stopped && !tr[k + 1].stopped && !tr[k + 2].stopped
    ensures ListAt(env, tr[j], f) == ListAt(env, tr[k], f) + Contribution(Only(tr[k].cmd, f.sw), f)
  {
    var l0, o0, l1, o1 := PassAt(env, hs, tr, k, Global, f);
    var _, _, l2, o2 := PassAt(env, hs, tr, k + 1, Master, f);
    var _, _, l3, _ := PassAt(env, hs, tr, k + 2, Slave, f);
    assert l3 == l0 + o0;
    assert tr[k + 2 + 1] == tr[j];
  }

  /** After the passes each list holds what survives for it, in order. */
  lemma ScopedLists(env: seq<Item>, hs: seq<Handler>, tr: seq<State>, c: nat, k: nat, j: nat, input: seq<Record>, f: Field)
    returns (list: seq<Item>)
    requires IsTrace(hs, tr) && tr[0] == Start(input) && !tr[|hs|].stopped && ClearsAt(hs, c) && c < k
    requires IsScoped(f.sw) && PassesAt(hs, k, f.sw) && j == k + 3 && Unfed(hs, 0, k, f)
    ensures ListAt(env, tr[j], f) == list == Contribution(Surviving(input, f.sw), f)
  {
    list := ListAt(env, tr[j], f);
    RunNotStopped(hs, tr, k, |hs|);
    RunNotStopped(hs, tr, k + 1, |hs|);
    RunNotStopped(hs, tr, k + 2, |hs|);
    var own := LateReach(hs, tr, c, k, input, f.sw);
    ListKept(env, hs, tr, 0, k, f);
    FreshList(env, input, f);
    ThreePasses(env, hs, tr, k, j, f);
  }

  /** The resource lists of the job: the collapse behind the passes keeps the last item of each name. */
  lemma ResourceLists(env: seq<Item>, hs: seq<Handler>, tr: seq<State>, c: nat, k: nat, j: nat, input: seq<Record>, f: Field)
    requires IsTrace(hs, tr) && tr[0] == Start(input) && !tr[|hs|].stopped && ClearsAt(hs, c) && c < k
    requires IsScoped(f.sw) && PassesAt(hs, k, f.sw) && j == k + 3 && hs[j] == CollapseLists(f.sw)
    requires Unfed(hs, 0, k, f) && Unfed(hs, j + 1, |hs|, f)
    ensures ListAt(env, tr[|hs|], f) == Compressed(Contribution(Surviving(input, f.sw), f))
  {
    var list := ScopedLists(env, hs, tr, c, k, j, input, f);
    CollapsedToEnd(env, hs, tr, j, f, list);
  }

  lemma CollapsedToEnd(env: seq<Item>, hs: seq<Handler>, tr: seq<State>, k: nat, f: Field, list: seq<Item>)
    requires IsTrace(hs, tr) && k < |hs| && !tr[|hs|].stopped && hs[k] == CollapseLists(f.sw)
    requires ListAt(env, tr[k], f) == list && Unfed(hs, k + 1, |hs|, f)
    ensures ListAt(env, tr[|hs|], f) == Compressed(list)
  {
    RunNotStopped(hs, tr, k, |hs|);
    ListCollapsedAt(env, hs, tr, k, f);
    ListKept(env, hs, tr, k + 1, |hs|, f);
  }

  // ----- the move of queue requests -----

  function MasterRecords(s: seq<Record>): seq<Record> {
    if s == [] then []
    else if s[0].scope == Master then [s[0]] + MasterRecords(s[1..])
    else MasterRecords(s[1..])
  }

  const MASTER_PASS := InScope(MasterQueue, Master)

  const MASTER_LIST := Field(Queue, Master, false)

  lemma {:induction false} MasterTaken(s: seq<Record>)
    ensures Taken(s, MASTER_PASS) == MasterRecords(Only(s, MasterQueue))
  {
    if s == [] {
    } else {
      MasterTaken(s[1..]);
    }
  }

  lemma {:induction false} ContributesNothing(rs: seq<Record>, f: Field)
    requires forall k | 0 <= k < |rs| :: ListField(rs[k]) != Some(f)
    ensures Contribution(rs, f) == []
  {
    if rs == [] {
    } else {
      ContributesNothing(rs[..|rs| - 1], f);
    }
  }

  lemma MasterFeeds(s: seq<Record>, f: Field)
    ensures Contribution(Taken(s, MASTER_PASS), f) == if f == MASTER_LIST then Contribution(Taken(s, MASTER_PASS), f) else []
  {
    if f != MASTER_LIST {
      var masters := Taken(s, MASTER_PASS);
      forall k | 0 <= k < |masters|
        ensures ListField(masters[k]) != Some(f)
      {
        TakenMatch(s, MASTER_PASS, k);
      }
      ContributesNothing(masters, f);
    }
  }

  /** What a -masterq makes of a list: its own queues join those of the master, the global ones go to the slaves. */
  function MovedQueues(global: seq<Item>, own: seq<Item>, masters: seq<Item>, hasSet: bool, f: Field): seq<Item> {
    match f.scope
    case Master => own + if f.soft then [] else masters
    case Global => if hasSet then [] else own
    case Slave => if hasSet then global else own
  }

  lemma ShiftedLists(job: Job, f: Field)
    requires f.sw == Queue
    ensures ListOf(Do(job, ShiftedQueues), f)
      == MovedQueues(ListOf(job, Field(Queue, Global, f.soft)), ListOf(job, f), [], HasGlobalSet(job), f)
  {
  }

  /** Taking -masterq records changes the hard list of the master only. */
  lemma MastersKeep(job: Job, s: seq<Record>)
    ensures HasGlobalSet(Fold(job, Takes(Taken(s, MASTER_PASS)))) == HasGlobalSet(job)
  {
    var rs := Taken(s, MASTER_PASS);
    MastersKeepList(job, s, Field(Resource, Global, false));
    MastersKeepList(job, s, Field(Resource, Global, true));
    MastersKeepList(job, s, Field(Queue, Global, false));
    MastersKeepList(job, s, Field(Queue, Global, true));
    MastersKeepTexts(job, s);
  }

  lemma MastersKeepList(job: Job, s: seq<Record>, f: Field)
    requires IsScoped(f.sw) && f != MASTER_LIST
    ensures ListOf(Fold(job, Takes(Taken(s, MASTER_PASS))), f) == ListOf(job, f)
  {
    FoldTakes(job, Taken(s, MASTER_PASS), f);
    ListAppended(ListOf(job, f), Taken(s, MASTER_PASS), f);
    MasterFeeds(s, f);
  }

  lemma {:induction false} TakesKeepTexts(job: Job, rs: seq<Record>)
    requires forall k | 0 <= k < |rs| :: rs[k].sw == MasterQueue
    ensures Fold(job, Takes(rs)).texts == job.texts
  {
    if rs == [] {
    } else {
      var n := |rs| - 1;
      TakesKeepTexts(job, rs[..n]);
      FoldLast(job, Takes(rs[..n]), Took(rs[n]));
      MasterKeepsTexts(Fold(job, Takes(rs[..n])), rs[n]);
    }
  }

  lemma MasterKeepsTexts(job: Job, r: Record)
    requires r.sw == MasterQueue
    ensures Do(job, Took(r)).texts == job.texts
  {
  }

  lemma MastersKeepTexts(job: Job, s: seq<Record>)
    ensures Fold(job, Takes(Taken(s, MASTER_PASS))).texts == job.texts
  {
    var rs := Taken(s, MASTER_PASS);
    forall k | 0 <= k < |rs|
      ensures rs[k].sw == MasterQueue
    {
      TakenMatch(s, MASTER_PASS, k);
    }
    TakesKeepTexts(job, rs);
  }

  /** The queue lists behind the -masterq pass. */
  lemma MasterPassAt(env: seq<Item>, hs: seq<Handler>, tr: seq<State>, k: nat, f: Field) returns (moved: seq<Item>)
    requires IsTrace(hs, tr) && k < |hs| && !tr[k].stopped && hs[k] == MASTER_PASS && f.sw == Queue
    ensures moved == ListAt(env, tr[k + 1], f)
    ensures var taken := Taken(tr[k].cmd, MASTER_PASS); var own := ListAt(env, tr[k], f);
      moved == if taken == [] then own
               else MovedQueues(ListAt(env, tr[k], Field(Queue, Global, f.soft)), own, Contribution(taken, MASTER_LIST),
                                HasGlobalSet(JobAt(env, tr[k])), f)
  {
    var taken := Taken(tr[k].cmd, MASTER_PASS);
    moved := ListAt(env, tr[k + 1], f);
    assert StepAt(hs, tr, k);
    if taken == [] {
      assert tr[k].log + Takes(taken) + [] == tr[k].log;
    } else {
      MastersTaken(env, tr[k], f);
    }
  }

  lemma MastersTaken(env: seq<Item>, st: State, f: Field)
    requires f.sw == Queue
    ensures var taken := Taken(st.cmd, MASTER_PASS);
      ListOf(Fold(Fresh(env), st.log + Takes(taken) + [ShiftedQueues]), f)
      == MovedQueues(ListAt(env, st, Field(Queue, Global, f.soft)), ListAt(env, st, f), Contribution(taken, MASTER_LIST),
                     HasGlobalSet(JobAt(env, st)), f)
  {
    var taken := Taken(st.cmd, MASTER_PASS);
    var job := Fold(JobAt(env, st), Takes(taken));
    FoldConcat(Fresh(env), st.log, Takes(taken));
    FoldLast(Fresh(env), st.log + Takes(taken), ShiftedQueues);
    ShiftedLists(job, f);
    MastersKeep(JobAt(env, st), st.cmd);
    MastersKeepList(JobAt(env, st), st.cmd, Field(Queue, Global, f.soft));
    MastersList(JobAt(env, st), st.cmd, f);
  }

  lemma MastersList(job: Job, s: seq<Record>, f: Field)
    requires f.sw == Queue
    ensures var taken := Taken(s, MASTER_PASS);
      ListOf(Fold(job, Takes(taken)), f) == ListOf(job, f) + if f == MASTER_LIST then Contribution(taken, MASTER_LIST) else []
  {
    var taken := Taken(s, MASTER_PASS);
    FoldTakes(job, taken, f);
    ListAppended(ListOf(job, f), taken, f);
    if f != MASTER_LIST {
      MasterFeeds(s, f);
    }
  }

  /** The queue lists of the job. */
  lemma QueueLists(env: seq<Item>, hs: seq<Handler>, tr: seq<State>, c: nat, k: nat, j: nat, input: seq<Record>, f: Field)
    requires IsTrace(hs, tr) && tr[0] == Start(input) && !tr[|hs|].stopped && ClearsAt(hs, c) && c < k
    requires f.sw == Queue && PassesAt(hs, k, Queue) && j == k + 3 && hs[j] == MASTER_PASS && Untouched(hs, 0, j, MasterQueue)
    requires Unfed(hs, 0, k, f) && Unfed(hs, 0, k, Field(Queue, Global, f.soft)) && Unfed(hs, j + 1, |hs|, f)
    ensures var masters := MasterRecords(Surviving(input, MasterQueue));
      var own, global := Contribution(Surviving(input, Queue), f), Contribution(Surviving(input, Queue), Field(Queue, Global, f.soft));
      ListAt(env, tr[|hs|], f) ==
        if masters == [] then own
        else MovedQueues(global, own, Contribution(masters, MASTER_LIST), HasGlobalSet(JobAt(env, tr[j])), f)
  {
    var own := ScopedLists(env, hs, tr, c, k, j, input, f);
    var global := ScopedLists(env, hs, tr, c, k, j, input, Field(Queue, Global, f.soft));
    var masters := MastersReach(hs, tr, c, j, input);
    MovedToEnd(env, hs, tr, j, f, global, own, masters);
  }

  lemma MastersReach(hs: seq<Handler>, tr: seq<State>, c: nat, j: nat, input: seq<Record>) returns (masters: seq<Record>)
    requires IsTrace(hs, tr) && tr[0] == Start(input) && c < j < |hs| && !tr[|hs|].stopped && ClearsAt(hs, c)
    requires hs[j] == MASTER_PASS && Untouched(hs, 0, j, MasterQueue)
    ensures !tr[j].stopped && masters == Taken(tr[j].cmd, MASTER_PASS) == MasterRecords(Surviving(input, MasterQueue))
  {
    RunNotStopped(hs, tr, j, |hs|);
    var own := LateReach(hs, tr, c, j, input, MasterQueue);
    MasterTaken(tr[j].cmd);
    masters := Taken(tr[j].cmd, MASTER_PASS);
  }

  lemma MovedToEnd(env: seq<Item>, hs: seq<Handler>, tr: seq<State>, j: nat, f: Field,
                   global: seq<Item>, own: seq<Item>, masters: seq<Record>)
    requires IsTrace(hs, tr) && j < |hs| && !tr[j].stopped && hs[j] == MASTER_PASS && f.sw == Queue
    requires global == ListAt(env, tr[j], Field(Queue, Global, f.soft)) && own == ListAt(env, tr[j], f)
    requires masters == Taken(tr[j].cmd, MASTER_PASS) && Unfed(hs, j + 1, |hs|, f)
    ensures ListAt(env, tr[|hs|], f) ==
      if masters == [] then own
      else MovedQueues(global, own, Contribution(masters, MASTER_LIST), HasGlobalSet(JobAt(env, tr[j])), f)
  {
    var moved := MasterPassAt(env, hs, tr, j, f);
    KeptToEnd(env, hs, tr, j + 1, f, moved);
  }

  lemma KeptToEnd(env: seq<Item>, hs: seq<Handler>, tr: seq<State>, k: nat, f: Field, list: seq<Item>)
    requires IsTrace(hs, tr) && k <= |hs| && Unfed(hs, k, |hs|, f) && ListAt(env, tr[k], f) == list
    ensures ListAt(env, tr[|hs|], f) == list
  {
    ListKept(env, hs, tr, k, |hs|, f);
  }
}
