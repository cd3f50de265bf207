/**
 A whole submission (qsub): defaults files, command line and script are read, merged and turned
 into a job. The statements are end to end: from the texts and the arguments to the job.
 */
module Submission {
  import opened Options
  import opened CommandLine
  import opened ScriptOptions
  import opened Sources
  import opened SwitchGroups
  import opened JobParameters
  import opened JobFields
  import opened HandlerRuns
  import opened JobHandlers
  import opened JobBuilder

  /** Everything a submission reads, and the environment that a new job is set up with. */
  datatype Request = Request(files: seq<DefaultsFile>, argv: seq<string>, input: Input, rd: Reader, env: seq<Item>)

  datatype Result = Refused(error: Error) | Accepted(job: Job)

  function Cmdline(q: Request): Outcome {
    Parse(q.argv, Client(true, false, q.rd.prog), q.rd.parsers)
  }

  function Defaults(q: Request): Outcome {
    DefaultsFrom(q.files, 0, q.rd)
  }

  /** The first record of a switch decides. */
  predicate IsTrue(s: seq<Record>, sw: Switch) {
    var k := Find(s, sw);
    k < |s| && s[k].value.number == 1
  }

  predicate Has(s: seq<Record>, sw: Switch) {
    Find(s, sw) < |s|
  }

  predicate SkipsScript(cmd: seq<Record>, defaults: seq<Record>) {
    IsTrue(cmd, Binary) || (!Has(cmd, Binary) && IsTrue(defaults, Binary))
  }

  function Embedded(q: Request, cmd: seq<Record>, defaults: seq<Record>): Outcome {
    if SkipsScript(cmd, defaults) then Parsed([]) else ScriptRecords(cmd, q.input, q.rd)
  }

  function Checked(all: seq<Record>): Outcome {
    if Has(all, MasterQueue) && Has(all, ScopeWord) then Failed(MasterAndScope) else Parsed(all)
  }

  /** The merged option list. */
  function AllOptions(q: Request): Outcome {
    match Defaults(q)
    case Failed(e) => Failed(e)
    case Parsed(defaults) =>
      match Cmdline(q)
      case Failed(e) => Failed(e)
      case Parsed(cmd) =>
        if Has(cmd, Help) then Failed(Usage)
        else
          match Embedded(q, cmd, defaults)
          case Failed(e) => Failed(e)
          case Parsed(script) => Checked(Merged(defaults, script, cmd))
  }

  function Final(all: seq<Record>): State {
    Run(Handlers(), HANDLERS, Start(all))
  }

  function JobOf(env: seq<Item>, all: seq<Record>): Job {
    Fold(Fresh(env), Final(all).log)
  }

  function UnknownOf(all: seq<Record>): seq<Record> {
    if Final(all).stopped then [] else Final(all).cmd
  }

  predicate IsBinary(job: Job) {
    F(Binary) in job.numbers && job.numbers[F(Binary)] == 1
  }

  /** A binary job cannot be read from the standard input. */
  predicate LacksCommand(job: Job) {
    IsBinary(job) && (TextOf(job, F(Script)) == None || TextOf(job, F(Script)) == Some("-"))
  }

  /** A -help that survives, any option that is left, and a binary job without a command are errors. */
  function Verdict(env: seq<Item>, all: seq<Record>): Result {
    if Final(all).stopped then Refused(HelpNotAllowed)
    else if Final(all).cmd != [] then Refused(UnknownOptions(Final(all).cmd))
    else if LacksCommand(JobOf(env, all)) then Refused(CommandRequired)
    else Accepted(JobOf(env, all))
  }

  method Submit(q: Request) returns (r: Result)
    ensures r == match AllOptions(q)
      case Failed(e) => Refused(e)
      case Parsed(all) => Verdict(q.env, all)
  {
    var defaults := ReadDefaults(q.files, q.rd);
    if defaults.Failed? {
      return Refused(defaults.error);
    }
    var cmd := ParseArguments(q.argv, Client(true, false, q.rd.prog), q.rd.parsers);
    if cmd.Failed? {
      return Refused(cmd.error);
    }
    if Has(cmd.records, Help) {
      return Refused(Usage);
    }
    var script := Parsed([]);
    if !SkipsScript(cmd.records, defaults.records) {
      script := ReadScript(cmd.records, q.input, q.rd);
    }
    if script.Failed? {
      return Refused(script.error);
    }
    var all := Merge(defaults.records, script.records, cmd.records);
    if Has(all, MasterQueue) && Has(all, ScopeWord) {
      return Refused(MasterAndScope);
    }
    var builder := new Builder(all, q.env);
    var unknown := builder.Build();
    if builder.stopped {
      return Refused(HelpNotAllowed);
    }
    if unknown != [] {
      return Refused(UnknownOptions(unknown));
    }
    if LacksCommand(builder.job) {
      return Refused(CommandRequired);
    }
    r := Accepted(builder.job);
  }

  // ----- precedence between sources -----

  function Flat(sources: seq<seq<Record>>): seq<Record> {
    if sources == [] then [] else Flat(sources[..|sources| - 1]) + sources[|sources| - 1]
  }

  /** From the last source back: its last surviving record for the field; none if it clears; else ask the source before. */
  function Winner(sources: seq<seq<Record>>, f: Field): Option<Record> {
    if sources == [] then None
    else
      var n := |sources| - 1;
      var own := LastHit(Surviving(sources[n], f.sw), f);
      if own.Some? then own
      else if HasClear(sources[n]) then None
      else Winner(sources[..n], f)
  }

  function LastOf(s: seq<Record>): Option<Record> {
    if s == [] then None else Some(s[|s| - 1])
  }

  lemma {:induction false} WinnerIsLast(sources: seq<seq<Record>>, f: Field)
    ensures Winner(sources, f) == LastHit(Surviving(Flat(sources), f.sw), f)
  {
    if sources == [] {
    } else {
      var n := |sources| - 1;
      WinnerIsLast(sources[..n], f);
      SurvivingConcat(Flat(sources[..n]), sources[n], f.sw);
      LastHitConcat(Surviving(Flat(sources[..n]), f.sw), Surviving(sources[n], f.sw), f);
    }
  }

  /** From the first source on: its first record. */
  function FirstIn(sources: seq<seq<Record>>, sw: Switch): Option<Record> {
    if sources == [] then None
    else if Only(sources[0], sw) != [] then Some(Only(sources[0], sw)[0])
    else FirstIn(sources[1..], sw)
  }

  lemma {:induction false} FlatFirst(sources: seq<seq<Record>>)
    requires sources != []
    ensures Flat(sources) == sources[0] + Flat(sources[1..])
  {
    var n := |sources| - 1;
    var last := sources[n];
    if n == 0 {
      assert sources[..0] == [] && sources[1..] == [] && [] + last == last + [];
    } else {
      var front, rest := sources[..n], sources[1..];
      FlatFirst(front);
      assert front[0] == sources[0] && front[1..] == rest[..n - 1] && rest[n - 1] == last;
      assert Flat(rest) == Flat(front[1..]) + last;
      assert (sources[0] + Flat(front[1..])) + last == sources[0] + (Flat(front[1..]) + last);
    }
  }

  lemma {:induction false} FirstIsFirst(sources: seq<seq<Record>>, sw: Switch)
    ensures var own := Only(Flat(sources), sw); FirstIn(sources, sw) == if own == [] then None else Some(own[0])
  {
    if sources == [] {
    } else {
      FlatFirst(sources);
      OnlyConcat(sources[0], Flat(sources[1..]), sw);
      FirstIsFirst(sources[1..], sw);
    }
  }

  // ----- the merged list and its sources -----

  lemma WithoutSurviving(s: seq<Record>, sw: Switch)
    requires sw != Queue
    ensures Surviving(Without(s, Queue), sw) == Surviving(s, sw) && Only(Without(s, Queue), sw) == Only(s, sw)
  {
    TakenOfAll(s, Queue);
    PassedSurviving(s, All(Queue), sw);
    OnlyWithout(s, sw, Queue);
  }

  lemma OverriddenKeeps(left: seq<Record>, right: seq<Record>, sw: Switch)
    requires sw != Queue
    ensures Surviving(Overridden(left, right), sw) == Surviving(left + right, sw)
    ensures Only(Overridden(left, right), sw) == Only(left + right, sw)
  {
    WithoutSurviving(left, sw);
    SurvivingConcat(left, right, sw);
    SurvivingConcat(Without(left, Queue), right, sw);
    OnlyConcat(left, right, sw);
    OnlyConcat(Without(left, Queue), right, sw);
  }

  lemma SameBehind(a: seq<Record>, a': seq<Record>, b: seq<Record>, sw: Switch)
    requires Surviving(a, sw) == Surviving(a', sw) && Only(a, sw) == Only(a', sw)
    ensures Surviving(a + b, sw) == Surviving(a' + b, sw) && Only(a + b, sw) == Only(a' + b, sw)
  {
    SurvivingConcat(a, b, sw);
    SurvivingConcat(a', b, sw);
    OnlyConcat(a, b, sw);
    OnlyConcat(a', b, sw);
  }

  lemma OverriddenTwice(defaults: seq<Record>, script: seq<Record>, cmd: seq<Record>, sw: Switch)
    requires sw != Queue
    ensures var all, flat := Overridden(Overridden(defaults, script), cmd), defaults + script + cmd;
      Surviving(all, sw) == Surviving(flat, sw) && Only(all, sw) == Only(flat, sw)
  {
    var two := Overridden(defaults, script);
    OverriddenKeeps(defaults, script, sw);
    OverriddenKeeps(two, cmd, sw);
    SameBehind(two, defaults + script, cmd, sw);
  }

  lemma ValidationKeeps(all: seq<Record>, sw: Switch)
    requires sw != Validate
    ensures Surviving(WithValidation(all), sw) == Surviving(all, sw) && Only(WithValidation(all), sw) == Only(all, sw)
  {
    SurvivingLast(all, VALIDATE_ERROR, sw);
    OnlyConcat(all, [VALIDATE_ERROR], sw);
  }

  /** The merge keeps the order of the sources for every switch but -q; it may add one -w. */
  lemma MergedKeeps(defaults: seq<Record>, script: seq<Record>, cmd: seq<Record>, sw: Switch)
    requires sw != Queue && sw != Validate
    ensures Surviving(Merged(defaults, script, cmd), sw) == Surviving(defaults + script + cmd, sw)
    ensures Only(Merged(defaults, script, cmd), sw) == Only(defaults + script + cmd, sw)
  {
    OverriddenTwice(defaults, script, cmd, sw);
    ValidationKeeps(Overridden(Overridden(defaults, script), cmd), sw);
  }

  lemma OverriddenQueues(left: seq<Record>, right: seq<Record>)
    ensures Only(Overridden(left, right), Queue) == if Only(right, Queue) != [] then Only(right, Queue) else Only(left, Queue)
  {
    OnlyConcat(left, right, Queue);
    OnlyConcat(Without(left, Queue), right, Queue);
    NoneLeft(left, Queue);
  }

  /** Of the -q records only those of the strongest source with any are left. */
  lemma MergedQueues(defaults: seq<Record>, script: seq<Record>, cmd: seq<Record>)
    ensures Only(Merged(defaults, script, cmd), Queue) ==
      if Only(cmd, Queue) != [] then Only(cmd, Queue)
      else if Only(script, Queue) != [] then Only(script, Queue)
      else Only(defaults, Queue)
  {
    var two := Overridden(defaults, script);
    OverriddenQueues(defaults, script);
    OverriddenQueues(two, cmd);
    ValidationKeeps(Overridden(two, cmd), Queue);
  }

  lemma SurvivingEmpty(s: seq<Record>, sw: Switch)
    requires Only(s, sw) == []
    ensures Surviving(s, sw) == []
  {
    SurvivingIsShorter(s, sw);
  }

  lemma OverriddenSurvivors(left: seq<Record>, right: seq<Record>)
    ensures Surviving(Overridden(left, right), Queue)
      == if Only(right, Queue) != [] then Surviving(right, Queue)
         else if HasClear(right) then []
         else Surviving(left, Queue)
  {
    if Only(right, Queue) == [] {
      SurvivingEmpty(right, Queue);
      SurvivingConcat(left, right, Queue);
    } else {
      NoneLeft(left, Queue);
      SurvivingEmpty(Without(left, Queue), Queue);
      SurvivingConcat(Without(left, Queue), right, Queue);
    }
  }

  /**
   The -q records that are left behind -clear. The override comes first: a source with a -q
   takes away those of the weaker sources even if it clears its own.
   */
  function QueueSurvivors(defaults: seq<Record>, script: seq<Record>, cmd: seq<Record>): seq<Record> {
    if Only(cmd, Queue) != [] then Surviving(cmd, Queue)
    else if HasClear(cmd) then []
    else if Only(script, Queue) != [] then Surviving(script, Queue)
    else if HasClear(script) then []
    else Surviving(defaults, Queue)
  }

  lemma MergedQueueSurvivors(defaults: seq<Record>, script: seq<Record>, cmd: seq<Record>)
    ensures Surviving(Merged(defaults, script, cmd), Queue) == QueueSurvivors(defaults, script, cmd)
  {
    var two := Overridden(defaults, script);
    OverriddenSurvivors(defaults, script);
    OverriddenSurvivors(two, cmd);
    ValidationKeeps(Overridden(two, cmd), Queue);
  }

  // ----- groups of switches -----

  lemma WithoutQueueGroup(s: seq<Record>, g: set<Switch>)
    requires Queue !in g
    ensures SurvivingGroup(Without(s, Queue), g) == SurvivingGroup(s, g)
  {
    TakenOfAll(s, Queue);
    PassedGroup(s, All(Queue), g);
  }

  lemma OverriddenGroup(left: seq<Record>, right: seq<Record>, g: set<Switch>)
    requires Queue !in g
    ensures SurvivingGroup(Overridden(left, right), g) == SurvivingGroup(left + right, g)
  {
    WithoutQueueGroup(left, g);
    GroupConcat(left, right, g);
    GroupConcat(Without(left, Queue), right, g);
  }

  lemma MergedGroup(defaults: seq<Record>, script: seq<Record>, cmd: seq<Record>, g: set<Switch>)
    requires Queue !in g && Validate !in g
    ensures SurvivingGroup(Merged(defaults, script, cmd), g) == SurvivingGroup(defaults + script + cmd, g)
  {
    var two := Overridden(defaults, script);
    OverriddenGroup(defaults, script, g);
    OverriddenGroup(two, cmd, g);
    SameGroupBehind(two, defaults + script, cmd, g);
    ValidationKeepsGroup(Overridden(two, cmd), g);
  }

  lemma SameGroupBehind(a: seq<Record>, a': seq<Record>, b: seq<Record>, g: set<Switch>)
    requires SurvivingGroup(a, g) == SurvivingGroup(a', g)
    ensures SurvivingGroup(a + b, g) == SurvivingGroup(a' + b, g)
  {
    GroupConcat(a, b, g);
    GroupConcat(a', b, g);
  }

  lemma ValidationKeepsGroup(all: seq<Record>, g: set<Switch>)
    requires Validate !in g
    ensures SurvivingGroup(WithValidation(all), g) == SurvivingGroup(all, g)
  {
    GroupLast(all, VALIDATE_ERROR, g);
  }

  /** The records of each defaults file, from the `k`-th on. */
  function FileLists(files: seq<DefaultsFile>, k: nat, rd: Reader): seq<seq<Record>>
    requires k <= |files|
    decreases |files| - k
  {
    if k == |files| then [] else [OwnRecords(FileRecords(files, k, rd))] + FileLists(files, k + 1, rd)
  }

  function OwnRecords(r: Outcome): seq<Record> {
    if r.Parsed? then r.records else []
  }

  lemma DefaultsUnfold(files: seq<DefaultsFile>, k: nat, rd: Reader) returns (own: seq<Record>, more: seq<Record>)
    requires k < |files| && DefaultsFrom(files, k, rd).Parsed?
    ensures DefaultsFrom(files, k + 1, rd) == Parsed(more) && DefaultsFrom(files, k, rd) == Parsed(own + more)
    ensures FileRecords(files, k, rd) == Parsed(own) && FileLists(files, k, rd) == [own] + FileLists(files, k + 1, rd)
  {
    own, more := FileRecords(files, k, rd).records, DefaultsFrom(files, k + 1, rd).records;
  }

  lemma FlatCons(own: seq<Record>, lists: seq<seq<Record>>)
    ensures Flat([own] + lists) == own + Flat(lists)
  {
    FlatFirst([own] + lists);
    assert ([own] + lists)[1..] == lists;
  }

  lemma {:induction false} DefaultsAreFlat(files: seq<DefaultsFile>, k: nat, rd: Reader)
    requires k <= |files| && DefaultsFrom(files, k, rd).Parsed?
    ensures DefaultsFrom(files, k, rd).records == Flat(FileLists(files, k, rd))
    decreases |files| - k
  {
    if k == |files| {
    } else {
      var own, more := DefaultsUnfold(files, k, rd);
      DefaultsAreFlat(files, k + 1, rd);
      FlatCons(own, FileLists(files, k + 1, rd));
    }
  }

  /** The option lists of all sources, lowest priority first. */
  function Lists(q: Request): seq<seq<Record>>
    requires AllOptions(q).Parsed?
  {
    var cmd, defaults := Cmdline(q).records, Defaults(q).records;
    FileLists(q.files, 0, q.rd) + [Embedded(q, cmd, defaults).records] + [cmd]
  }

  lemma FlatTwo(lists: seq<seq<Record>>, a: seq<Record>, b: seq<Record>)
    ensures Flat(lists + [a] + [b]) == Flat(lists) + a + b
  {
    var two := lists + [a];
    assert (two + [b])[..|two|] == two && two[..|lists|] == lists;
  }

  lemma Parts(q: Request) returns (files: seq<seq<Record>>, defaults: seq<Record>, script: seq<Record>, cmd: seq<Record>)
    requires AllOptions(q).Parsed?
    ensures Defaults(q) == Parsed(defaults) && Cmdline(q) == Parsed(cmd) && Embedded(q, cmd, defaults) == Parsed(script)
    ensures AllOptions(q) == Parsed(Merged(defaults, script, cmd))
    ensures Lists(q) == files + [script] + [cmd] && files == FileLists(q.files, 0, q.rd)
  {
    cmd, defaults := Cmdline(q).records, Defaults(q).records;
    script := Embedded(q, cmd, defaults).records;
    files := FileLists(q.files, 0, q.rd);
  }

  lemma PartsAreFlat(q: Request)
    returns (files: seq<seq<Record>>, defaults: seq<Record>, script: seq<Record>, cmd: seq<Record>)
    requires AllOptions(q).Parsed?
    ensures Defaults(q) == Parsed(defaults) && Cmdline(q) == Parsed(cmd) && Embedded(q, cmd, defaults) == Parsed(script)
    ensures AllOptions(q) == Parsed(Merged(defaults, script, cmd))
    ensures Flat(Lists(q)) == defaults + script + cmd
  {
    files, defaults, script, cmd := Parts(q);
    DefaultsAreFlat(q.files, 0, q.rd);
    FlatTwo(files, script, cmd);
  }

  lemma OptionsKeepOrder(q: Request, sw: Switch)
    requires AllOptions(q).Parsed? && sw != Queue && sw != Validate
    ensures Surviving(AllOptions(q).records, sw) == Surviving(Flat(Lists(q)), sw)
    ensures Only(AllOptions(q).records, sw) == Only(Flat(Lists(q)), sw)
  {
    var _, defaults, script, cmd := PartsAreFlat(q);
    MergedKeeps(defaults, script, cmd, sw);
  }

  lemma OptionsKeepGroup(q: Request, g: set<Switch>)
    requires AllOptions(q).Parsed? && Queue !in g && Validate !in g
    ensures SurvivingGroup(AllOptions(q).records, g) == SurvivingGroup(Flat(Lists(q)), g)
  {
    var _, defaults, script, cmd := PartsAreFlat(q);
    MergedGroup(defaults, script, cmd, g);
  }
}
