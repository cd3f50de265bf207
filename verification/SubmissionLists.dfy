/**
 End to end: the lists of the job. Resource and queue requests by scope and strength, lists that
 are merged by name, the environment and the context.
 */
module SubmissionLists {
  import opened Options
  import opened Items
  import opened JobFields
  import opened JobParameters
  import opened HandlerRuns
  import opened SwitchGroups
  import opened JobLists
  import opened RequestRuns
  import opened JobHandlers
  import opened Submission
  import opened SubmissionProperties

  // ----- resource requests -----

  /** The items of the surviving -l records of one scope and strength, in the order of the sources. */
  ghost function RequestsFor(q: Request, scope: Scope, soft: bool): seq<Item>
    requires AllOptions(q).Parsed?
  {
    Contribution(Surviving(Flat(Lists(q)), Resource), Field(Resource, scope, soft))
  }

  lemma ResourcesFed(f: Field, k: nat)
    requires f.sw == Resource && k == REQUESTS_AT
    ensures Unfed(Handlers(), 0, k, f) && Unfed(Handlers(), k + 4, HANDLERS, f)
  {
    UnfedOutside(0, k, f);
    UnfedOutside(k + 4, HANDLERS, f);
  }

  lemma ResourceListAt(env: seq<Item>, tr: seq<State>, all: seq<Record>, f: Field, k: nat)
    requires IsTrace(Handlers(), tr) && tr[0] == Start(all) && !tr[HANDLERS].stopped && f.sw == Resource && k == REQUESTS_AT
    ensures ListAt(env, tr[HANDLERS], f) == Compressed(Contribution(Surviving(all, Resource), f))
  {
    HandlersClear();
    ResourceHandlers(k);
    ResourcesFed(f, k);
    ResourceLists(env, Handlers(), tr, CLEAR_AT, k, k + 3, all, f);
  }

  lemma ResourceList(env: seq<Item>, all: seq<Record>, f: Field)
    requires !Final(all).stopped && f.sw == Resource
    ensures ListOf(JobOf(env, all), f) == Compressed(Contribution(Surviving(all, Resource), f))
  {
    var tr := TraceOf(Handlers(), Start(all));
    ResourceListAt(env, tr, all, f, REQUESTS_AT);
  }

  /**
   The resource list of one scope and strength: of the surviving requests, in the order of the
   sources, all but the last of each name are dropped. So each name occurs once, with the
   value of its last surviving request.
   */
  lemma RequestPrecedence(q: Request, scope: Scope, soft: bool, name: string)
    requires IsComplete(q)
    ensures var list := ListOf(JobFor(q), Field(Resource, scope, soft));
      && list == Compressed(RequestsFor(q, scope, soft)) && AreDistinct(list)
      && LastNamed(list, Some(name)) == LastNamed(RequestsFor(q, scope, soft), Some(name))
  {
    CompleteRuns(q);
    OptionsKeepOrder(q, Resource);
    ResourceList(q.env, AllOptions(q).records, Field(Resource, scope, soft));
    CompressedNamed(RequestsFor(q, scope, soft), Some(name));
    CompressedDistinct(RequestsFor(q, scope, soft));
  }

  // ----- queue requests -----

  ghost function QueuesFor(q: Request, scope: Scope, soft: bool): seq<Item>
    requires AllOptions(q).Parsed?
  {
    Contribution(Surviving(AllOptions(q).records, Queue), Field(Queue, scope, soft))
  }

  /** The queues of the surviving -masterq records. */
  ghost function MastersFor(q: Request): seq<Record>
    requires AllOptions(q).Parsed?
  {
    MasterRecords(Surviving(Flat(Lists(q)), MasterQueue))
  }

  /** Does the job have requests of the global scope when -masterq is handled? */
  ghost predicate HasGlobalRequests(q: Request)
    requires AllOptions(q).Parsed?
  {
    || RequestsFor(q, Global, false) != [] || RequestsFor(q, Global, true) != []
    || QueuesFor(q, Global, false) != [] || QueuesFor(q, Global, true) != []
    || Winner(Lists(q), Field(Allocation, Global, false)).Some?
  }

  /** The -q records that count, source by source. */
  lemma QueuesBySource(q: Request)
    requires AllOptions(q).Parsed?
    ensures Defaults(q).Parsed? && Cmdline(q).Parsed? && Embedded(q, Cmdline(q).records, Defaults(q).records).Parsed?
    ensures var cmd, defaults := Cmdline(q).records, Defaults(q).records;
      Surviving(AllOptions(q).records, Queue) == QueueSurvivors(defaults, Embedded(q, cmd, defaults).records, cmd)
  {
    var _, defaults, script, cmd := Parts(q);
    MergedQueueSurvivors(defaults, script, cmd);
  }

  lemma CompressedEmpty(s: seq<Item>)
    ensures Compressed(s) == [] <==> s == []
  {
  }

  /** The resource lists stand as they will stay when the queues are handled. */
  lemma ResourcesAt(env: seq<Item>, tr: seq<State>, all: seq<Record>, soft: bool, j: nat)
    requires IsTrace(Handlers(), tr) && tr[0] == Start(all) && tr[HANDLERS] == Final(all) && !tr[HANDLERS].stopped
    requires j == QUEUES_AT + 3
    ensures var f := Field(Resource, Global, soft);
      ListAt(env, tr[j], f) != [] <==> Contribution(Surviving(all, Resource), f) != []
  {
    var f := Field(Resource, Global, soft);
    ResourceList(env, all, f);
    UnfedOutside(j, HANDLERS, f);
    ListKept(env, Handlers(), tr, j, HANDLERS, f);
    CompressedEmpty(Contribution(Surviving(all, Resource), f));
  }

  lemma QueuesAt(env: seq<Item>, tr: seq<State>, all: seq<Record>, soft: bool, j: nat)
    requires IsTrace(Handlers(), tr) && tr[0] == Start(all) && !tr[HANDLERS].stopped && j == QUEUES_AT + 3
    ensures var f := Field(Queue, Global, soft); ListAt(env, tr[j], f) == Contribution(Surviving(all, Queue), f)
  {
    var f := Field(Queue, Global, soft);
    HandlersClear();
    QueueHandlers(QUEUES_AT);
    QueuesFed(f, QUEUES_AT);
    var list := ScopedLists(env, Handlers(), tr, CLEAR_AT, QUEUES_AT, j, all, f);
  }

  lemma AllocationRank()
    ensures IsLate(Allocation) && Rank(Allocation) < QUEUES_AT && IsTextField(Field(Allocation, Global, false))
  {
  }

  lemma AllocationAt(env: seq<Item>, tr: seq<State>, all: seq<Record>, j: nat)
    requires IsTrace(Handlers(), tr) && tr[0] == Start(all) && !tr[HANDLERS].stopped && j == QUEUES_AT + 3
    ensures var f := Field(Allocation, Global, false);
      f in JobAt(env, tr[j]).texts <==> LastHit(Surviving(all, Allocation), f).Some?
  {
    var f := Field(Allocation, Global, false);
    AllocationRank();
    HandlersClear();
    var k, h := HandlerOf(Allocation);
    RunNotStopped(Handlers(), tr, j, HANDLERS);
    LateUsedAt(Handlers(), tr, CLEAR_AT, k, j, all, Allocation);
    RunLogs(Handlers(), tr, j);
    TextIsSet(env, tr[j].log, f);
    LastHitOnly(tr[j].used, f);
  }

  /** Has the job a global request set, in terms of the records? */
  ghost predicate GlobalRecords(all: seq<Record>) {
    || Contribution(Surviving(all, Resource), Field(Resource, Global, false)) != []
    || Contribution(Surviving(all, Resource), Field(Resource, Global, true)) != []
    || Contribution(Surviving(all, Queue), Field(Queue, Global, false)) != []
    || Contribution(Surviving(all, Queue), Field(Queue, Global, true)) != []
    || LastHit(Surviving(all, Allocation), Field(Allocation, Global, false)).Some?
  }

  lemma GlobalSetAt(env: seq<Item>, tr: seq<State>, all: seq<Record>, j: nat)
    requires IsTrace(Handlers(), tr) && tr[0] == Start(all) && tr[HANDLERS] == Final(all) && !tr[HANDLERS].stopped
    requires j == QUEUES_AT + 3
    ensures HasGlobalSet(JobAt(env, tr[j])) <==> GlobalRecords(all)
  {
    ResourcesAt(env, tr, all, false, j);
    ResourcesAt(env, tr, all, true, j);
    QueuesAt(env, tr, all, false, j);
    QueuesAt(env, tr, all, true, j);
    AllocationAt(env, tr, all, j);
  }

  lemma QueuesFed(f: Field, k: nat)
    requires f.sw == Queue && k == QUEUES_AT
    ensures Unfed(Handlers(), 0, k, f) && Unfed(Handlers(), 0, k, Field(Queue, Global, f.soft))
    ensures Unfed(Handlers(), k + 4, HANDLERS, f)
  {
    UnfedOutside(0, k, f);
    UnfedOutside(0, k, Field(Queue, Global, f.soft));
    UnfedOutside(k + 4, HANDLERS, f);
  }

  lemma QueueListAt(env: seq<Item>, tr: seq<State>, all: seq<Record>, f: Field, k: nat, j: nat)
    requires IsTrace(Handlers(), tr) && tr[0] == Start(all) && !tr[HANDLERS].stopped
    requires f.sw == Queue && k == QUEUES_AT && j == k + 3
    ensures var masters := MasterRecords(Surviving(all, MasterQueue));
      var own, global := Contribution(Surviving(all, Queue), f), Contribution(Surviving(all, Queue), Field(Queue, Global, f.soft));
      ListAt(env, tr[HANDLERS], f) ==
        if masters == [] then own
        else MovedQueues(global, own, Contribution(masters, MASTER_LIST), HasGlobalSet(JobAt(env, tr[j])), f)
  {
    HandlersClear();
    QueueHandlers(k);
    QueuesFed(f, k);
    QueueLists(env, Handlers(), tr, CLEAR_AT, k, j, all, f);
  }

  lemma QueueList(env: seq<Item>, all: seq<Record>, f: Field)
    requires !Final(all).stopped && f.sw == Queue
    ensures var masters := MasterRecords(Surviving(all, MasterQueue));
      var own, global := Contribution(Surviving(all, Queue), f), Contribution(Surviving(all, Queue), Field(Queue, Global, f.soft));
      ListOf(JobOf(env, all), f) ==
        if masters == [] then own else MovedQueues(global, own, Contribution(masters, MASTER_LIST), GlobalRecords(all), f)
  {
    var tr := TraceOf(Handlers(), Start(all));
    QueueListAt(env, tr, all, f, QUEUES_AT, QUEUES_AT + 3);
    GlobalSetAt(env, tr, all, QUEUES_AT + 3);
  }

  /**
   The queue list of one scope and strength. Without -masterq it holds the items of the -q
   records that count. With one, its queues join the hard list of the master, and the global
   requests become those of the slaves.
   */
  lemma QueuePrecedence(q: Request, scope: Scope, soft: bool)
    requires IsComplete(q)
    ensures var own := QueuesFor(q, scope, soft);
      ListOf(JobFor(q), Field(Queue, scope, soft)) ==
        if MastersFor(q) == [] then own
        else MovedQueues(QueuesFor(q, Global, soft), own, Contribution(MastersFor(q), MASTER_LIST),
                         HasGlobalRequests(q), Field(Queue, scope, soft))
  {
    CompleteRuns(q);
    OptionsKeepOrder(q, MasterQueue);
    GlobalRequestsOf(q);
    QueueList(q.env, AllOptions(q).records, Field(Queue, scope, soft));
  }

  lemma GlobalRequestsOf(q: Request)
    requires AllOptions(q).Parsed?
    ensures GlobalRecords(AllOptions(q).records) <==> HasGlobalRequests(q)
  {
    OptionsKeepOrder(q, Resource);
    OptionsKeepOrder(q, Allocation);
    WinnerIsLast(Lists(q), Field(Allocation, Global, false));
  }

  // ----- lists that are merged by name -----

  predicate HaveNoItems(rs: seq<Record>) {
    forall k | 0 <= k < |rs| :: rs[k].value.items == []
  }

  /** From the last record back: its last item of the name. The first record with items is taken as it is. */
  function NamedIn(rs: seq<Record>, x: Option<string>): Option<Item> {
    if rs == [] then None
    else
      var n := |rs| - 1;
      var items := rs[n].value.items;
      if HaveNoItems(rs[..n]) then FirstNamed(items, x)
      else if LastNamed(items, x).Some? then LastNamed(items, x)
      else NamedIn(rs[..n], x)
  }

  predicate IsMerged(sw: Switch) {
    EffectOf(sw) == MergeItems && sw != Env
  }

  lemma MergeNext(list: seq<Item>, r: Record, sw: Switch)
    requires EffectOf(sw) == MergeItems && r.sw == sw
    ensures ListNext(list, r, F(sw)) == MergedInto(list, r.value.items)
  {
  }

  lemma NoItemsLast(rs: seq<Record>, n: nat)
    requires |rs| == n + 1
    ensures HaveNoItems(rs) <==> HaveNoItems(rs[..n]) && rs[n].value.items == []
  {
    if HaveNoItems(rs[..n]) && rs[n].value.items == [] {
      forall k | 0 <= k < |rs|
        ensures rs[k].value.items == []
      {
        if k < n {
          assert rs[..n][k].value.items == [];
        }
      }
    } else if HaveNoItems(rs) {
      forall k | 0 <= k < n
        ensures rs[..n][k].value.items == []
      {
        assert rs[k].value.items == [];
      }
    }
  }

  lemma {:induction false} MergedRecords(rs: seq<Record>, sw: Switch, x: Option<string>)
    requires EffectOf(sw) == MergeItems && forall k | 0 <= k < |rs| :: rs[k].sw == sw
    ensures var list := ListThrough([], rs, F(sw));
      (list == [] <==> HaveNoItems(rs)) && FirstNamed(list, x) == NamedIn(rs, x)
  {
    if rs == [] {
    } else {
      var n := |rs| - 1;
      var list := ListThrough([], rs[..n], F(sw));
      MergedRecords(rs[..n], sw, x);
      MergeNext(list, rs[n], sw);
      NoItemsLast(rs, n);
      if list != [] {
        MergedAllNamed(list, rs[n].value.items, x);
        MergedAllGrows(list, rs[n].value.items);
      }
    }
  }

  lemma MergedSwitches(sw: Switch)
    requires IsMerged(sw)
    ensures sw == StderrPath || sw == StdoutPath || sw == StdinPath || sw == ShellPath || sw == MailList
  {
  }

  lemma StderrPathIsLate()
    ensures IsLate(StderrPath)
  {
  }

  lemma StdoutPathIsLate()
    ensures IsLate(StdoutPath)
  {
  }

  lemma StdinPathIsLate()
    ensures IsLate(StdinPath)
  {
  }

  lemma ShellPathIsLate()
    ensures IsLate(ShellPath)
  {
  }

  lemma MailListIsLate()
    ensures IsLate(MailList)
  {
  }

  lemma MergedIsPlain(sw: Switch)
    requires IsMerged(sw)
    ensures IsLate(sw) && sw != Validate
  {
    MergedSwitches(sw);
    StderrPathIsLate();
    StdoutPathIsLate();
    StdinPathIsLate();
    ShellPathIsLate();
    MailListIsLate();
  }

  /**
   -e, -o, -i, -S and -M are merged by name (the host): a name has the value of the last
   surviving record that names it.
   */
  lemma NamedPrecedence(q: Request, sw: Switch, x: Option<string>)
    requires IsComplete(q) && IsMerged(sw)
    ensures FirstNamed(ListOf(JobFor(q), F(sw)), x) == NamedIn(Surviving(Flat(Lists(q)), sw), x)
  {
    var rs := Surviving(Flat(Lists(q)), sw);
    MergedIsPlain(sw);
    LateList(q, F(sw));
    forall k | 0 <= k < |rs|
      ensures rs[k].sw == sw
    {
      SurvivingHas(Flat(Lists(q)), sw, k);
    }
    MergedRecords(rs, sw, x);
  }

  // ----- the environment -----

  lemma RenamedAt(hs: seq<Handler>, tr: seq<State>, k: nat)
    requires IsTrace(hs, tr) && k < |hs| && !tr[k].stopped && hs[k] == RenameEnvAll
    ensures tr[k + 1].cmd == Renamed(tr[k].cmd)
  {
    assert StepAt(hs, tr, k);
  }

  /** What the -v handler takes: the surviving -v and -V records in one order. */
  lemma VariablesTaken(tr: seq<State>, all: seq<Record>, k: nat, j: nat) returns (own: seq<Record>)
    requires IsTrace(Handlers(), tr) && tr[0] == Start(all) && !tr[HANDLERS].stopped && k == VARIABLES_AT && j == k + 1
    ensures !tr[j].stopped && own == Taken(tr[j].cmd, All(Env)) == Renamed(SurvivingGroup(all, VARIABLES))
  {
    HandlersClear();
    GroupFacts();
    VariableHandlers(k);
    RunNotStopped(Handlers(), tr, k, HANDLERS);
    RunNotStopped(Handlers(), tr, j, HANDLERS);
    GroupReach(Handlers(), tr, CLEAR_AT, k, all, VARIABLES);
    RenamedAt(Handlers(), tr, k);
    RenamedVariables(tr[k].cmd);
    TakenOfAll(tr[j].cmd, Env);
    own := Taken(tr[j].cmd, All(Env));
  }

  lemma VariablesFed(f: Field, k: nat)
    requires f == F(Env) && k == VARIABLES_AT
    ensures Unfed(Handlers(), 0, k + 1, f) && Unfed(Handlers(), k + 3, HANDLERS, f)
  {
    UnfedOutside(0, k, f);
    UnfedOutside(k + 3, HANDLERS, f);
    VariableHandlers(k);
    assert !Feeds(RenameEnvAll, f);
    forall x | 0 <= x < k + 1
      ensures !Feeds(Handlers()[x], f)
    {
      if x == k {
        assert Handlers()[x] == RenameEnvAll;
      }
    }
  }

  lemma VariableList(env: seq<Item>, all: seq<Record>)
    requires !Final(all).stopped
    ensures ListOf(JobOf(env, all), F(Env))
      == Compressed(ListThrough(env, Renamed(SurvivingGroup(all, VARIABLES)), F(Env)))
  {
    var k, f := VARIABLES_AT, F(Env);
    var j := k + 1;
    var tr := TraceOf(Handlers(), Start(all));
    var own := VariablesTaken(tr, all, k, j);
    VariablesFed(f, k);
    VariableHandlers(k);
    ListKept(env, Handlers(), tr, 0, j, f);
    FreshList(env, all, f);
    ListTakenAt(env, Handlers(), tr, j, f);
    CollapsedToEnd(env, Handlers(), tr, j + 1, f, ListThrough(env, own, f));
  }

  /** The assignments of the surviving -v and -V records, in one order. */
  ghost function AssignmentsFor(q: Request): seq<Item>
    requires AllOptions(q).Parsed?
  {
    Contribution(Renamed(SurvivingGroup(Flat(Lists(q)), VARIABLES)), F(Env))
  }

  lemma MergedNext(env: seq<Item>, list: seq<Item>, front: seq<Item>, r: Record)
    requires r.sw == Env && list == MergedAll(env, front) && list != []
    ensures var next := ListNext(list, r, F(Env)); next == MergedAll(env, front + Added(r, F(Env))) && next != []
  {
    MergeNext(list, r, Env);
    AddedVariables(r);
    MergedAllConcat(env, front, r.value.items);
    MergedAllGrows(list, r.value.items);
  }

  lemma {:induction false} MergedVariables(env: seq<Item>, rs: seq<Record>)
    requires env != [] && forall k | 0 <= k < |rs| :: rs[k].sw == Env
    ensures ListThrough(env, rs, F(Env)) == MergedAll(env, Contribution(rs, F(Env)))
    ensures ListThrough(env, rs, F(Env)) != []
  {
    if rs == [] {
      assert MergedAll(env, []) == env;
    } else {
      var n := |rs| - 1;
      MergedVariables(env, rs[..n]);
      MergedNext(env, ListThrough(env, rs[..n], F(Env)), Contribution(rs[..n], F(Env)), rs[n]);
    }
  }

  lemma AddedVariables(r: Record)
    requires r.sw == Env
    ensures Added(r, F(Env)) == r.value.items
  {
  }

  lemma {:induction false} GroupHas(s: seq<Record>, g: set<Switch>, k: nat)
    requires k < |SurvivingGroup(s, g)|
    ensures SurvivingGroup(s, g)[k].sw in g
  {
    var n := |s| - 1;
    if k < |SurvivingGroup(s[..n], g)| {
      GroupHas(s[..n], g, k);
    }
  }

  lemma VariablesAreRenamed(s: seq<Record>)
    ensures var rs := Renamed(SurvivingGroup(s, VARIABLES)); forall k | 0 <= k < |rs| :: rs[k].sw == Env
  {
    var own := SurvivingGroup(s, VARIABLES);
    forall k | 0 <= k < |own|
      ensures Renamed(own)[k].sw == Env
    {
      GroupHas(s, VARIABLES, k);
      RenamedPoint(own, k);
    }
  }

  /**
   A variable has the value of its last assignment by a surviving -v or -V, in the order in
   which these stand, or else the one the job was set up with; no variable occurs twice.
   job_initialize_env stores by name and always stores SGE_O_HOST, so the environment that a
   job is set up with is not empty and names nothing twice.
   */
  lemma VariablePrecedence(q: Request, x: string)
    requires IsComplete(q) && q.env != [] && AreDistinct(q.env)
    ensures var list, last := ListOf(JobFor(q), F(Env)), LastNamed(AssignmentsFor(q), Some(x));
      AreDistinct(list) && LastNamed(list, Some(x)) == if last.Some? then last else LastNamed(q.env, Some(x))
  {
    var rs := Renamed(SurvivingGroup(Flat(Lists(q)), VARIABLES));
    CompleteRuns(q);
    GroupFacts();
    OptionsKeepGroup(q, VARIABLES);
    VariableList(q.env, AllOptions(q).records);
    VariablesAreRenamed(Flat(Lists(q)));
    MergedVariables(q.env, rs);
    CompressedVariables(q.env, AssignmentsFor(q), x);
  }

  lemma CompressedVariables(env: seq<Item>, items: seq<Item>, x: string)
    requires AreDistinct(env)
    ensures var list := Compressed(MergedAll(env, items)); var last := LastNamed(items, Some(x));
      AreDistinct(list) && LastNamed(list, Some(x)) == if last.Some? then last else LastNamed(env, Some(x))
  {
    var merged := MergedAll(env, items);
    CompressedDistinct(merged);
    CompressedNamed(merged, Some(x));
    MergedAllDistinct(env, items);
    DistinctNamed(merged, Some(x));
    MergedAllNamed(env, items, Some(x));
    DistinctNamed(env, Some(x));
  }

  // ----- the context -----

  lemma ContextsTaken(tr: seq<State>, all: seq<Record>, k: nat) returns (own: seq<Record>)
    requires IsTrace(Handlers(), tr) && tr[0] == Start(all) && !tr[HANDLERS].stopped && k == CONTEXTS_AT
    ensures !tr[k].stopped && own == Taken(tr[k].cmd, ContextPass) == SurvivingGroup(all, CONTEXTS)
  {
    HandlersClear();
    GroupFacts();
    ContextHandlers(k);
    RunNotStopped(Handlers(), tr, k, HANDLERS);
    GroupReach(Handlers(), tr, CLEAR_AT, k, all, CONTEXTS);
    TakenContexts(tr[k].cmd);
    own := Taken(tr[k].cmd, ContextPass);
  }

  lemma ContextFed(f: Field, k: nat)
    requires f == F(SetContext) && k == CONTEXTS_AT
    ensures Unfed(Handlers(), 0, k, f) && Unfed(Handlers(), k + 1, HANDLERS, f)
  {
    UnfedOutside(0, k, f);
    UnfedOutside(k + 1, HANDLERS, f);
  }

  lemma ContextAppends(rs: seq<Record>)
    ensures ListThrough([], rs, F(SetContext)) == Contribution(rs, F(SetContext))
  {
    ListAppended([], rs, F(SetContext));
  }

  lemma ContextList(env: seq<Item>, all: seq<Record>)
    requires !Final(all).stopped
    ensures ListOf(JobOf(env, all), F(SetContext)) == Contribution(SurvivingGroup(all, CONTEXTS), F(SetContext))
  {
    var k, f := CONTEXTS_AT, F(SetContext);
    ContextHandlers(k);
    ContextFed(f, k);
    var tr := TraceOf(Handlers(), Start(all));
    var own := ContextsTaken(tr, all, k);
    assert Behind(ContextPass, own) == [];
    ListOver(env, Handlers(), tr, k, f, own);
    FreshList(env, all, f);
    ContextAppends(own);
  }

  /** The context list: the entries of the surviving -ac, -dc and -sc records, in the one order in which these stand. */
  lemma ContextPrecedence(q: Request)
    requires IsComplete(q)
    ensures ListOf(JobFor(q), F(SetContext)) == Contribution(SurvivingGroup(Flat(Lists(q)), CONTEXTS), F(SetContext))
  {
    CompleteRuns(q);
    GroupFacts();
    OptionsKeepGroup(q, CONTEXTS);
    ContextList(q.env, AllOptions(q).records);
  }
}
