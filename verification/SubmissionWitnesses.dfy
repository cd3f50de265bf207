/**
 Submissions that show where the code does not do what one expects of it.
 */
module SubmissionWitnesses {
  import opened Options
  import opened CommandLine
  import opened ScriptOptions
  import opened Sources
  import opened JobFields
  import opened Submission
  import opened SubmissionProperties
  import opened SubmissionHolds
  import opened SubmissionReadings

  // ----- reading a vector word by word -----

  /** Options whose records carry no flags. */
  predicate IsSimple(sw: Switch) {
    && sw != Resource && sw != Queue && sw != Allocation && sw != MasterQueue
    && sw != ScopeWord && sw != Other("-@") && sw != Hard && sw != Soft && sw != EnvAll
  }

  function Simple(sw: Switch, arg: string, v: Value): Record {
    Record(sw, Some(arg), v, 0, Global)
  }

  function Prepended(r: Record, rest: Outcome): Outcome {
    if rest.Failed? then rest else Parsed([r] + rest.records)
  }

  lemma OneWordArgument(argv: seq<string>, i: nat, fl: Flags, cl: Client, ps: Parsers, sw: Switch, v: Value)
    requires i + 1 < |argv| && Lookup(argv[i], cl) == Some(Entry(sw, 1)) && IsSimple(sw)
    requires ps.value(sw, argv[i + 1]) == Some(v)
    ensures Group(argv, i, fl, cl, ps) == Parsed([Simple(sw, argv[i + 1], v)])
    ensures Next(argv, i, cl) == i + 2 && FlagsBehind(argv, i, fl, cl) == fl
  {
    assert argv[i + 1..i + 1 + 1] == [argv[i + 1]];
  }

  lemma ReadArgument(argv: seq<string>, i: nat, fl: Flags, cl: Client, ps: Parsers, sw: Switch, v: Value)
    requires i + 1 < |argv| && Lookup(argv[i], cl) == Some(Entry(sw, 1)) && IsSimple(sw)
    requires ps.value(sw, argv[i + 1]) == Some(v)
    ensures ParseFrom(argv, i, fl, cl, ps) == Prepended(Simple(sw, argv[i + 1], v), ParseFrom(argv, i + 2, fl, cl, ps))
  {
    OneWordArgument(argv, i, fl, cl, ps, sw, v);
    assert ParseFrom(argv, i, fl, cl, ps) == ParseNext(argv, i, fl, cl, ps);
  }

  const HELD := Record(Hold, Some(""), Value(1, None, []), 0, Global)

  lemma NoWordArgument(argv: seq<string>, i: nat, fl: Flags, cl: Client, ps: Parsers, sw: Switch)
    requires i < |argv| && Lookup(argv[i], cl) == Some(Entry(sw, 0)) && IsSimple(sw)
    ensures Group(argv, i, fl, cl, ps) == Parsed([if sw == Hold then HELD else Bare(sw)])
    ensures Next(argv, i, cl) == i + 1 && FlagsBehind(argv, i, fl, cl) == fl
  {
    assert argv[i + 1..i + 1 + 0] == [];
  }

  lemma ReadFlag(argv: seq<string>, i: nat, fl: Flags, cl: Client, ps: Parsers, sw: Switch)
    requires i < |argv| && Lookup(argv[i], cl) == Some(Entry(sw, 0)) && IsSimple(sw)
    ensures ParseFrom(argv, i, fl, cl, ps)
      == Prepended(if sw == Hold then HELD else Bare(sw), ParseFrom(argv, i + 1, fl, cl, ps))
  {
    NoWordArgument(argv, i, fl, cl, ps, sw);
    assert ParseFrom(argv, i, fl, cl, ps) == ParseNext(argv, i, fl, cl, ps);
  }

  const SCRIPT := TextRecord(Script, "s")

  lemma ScriptWord(cl: Client)
    ensures Lookup("s", cl) == None
  {
  }

  lemma ScriptGroup(argv: seq<string>, i: nat, fl: Flags, cl: Client, ps: Parsers)
    requires |argv| == i + 1 && argv[i] == "s" && cl.pseudos && !cl.qalter
    ensures Group(argv, i, fl, cl, ps) == Parsed([SCRIPT]) && Next(argv, i, cl) == |argv|
  {
    ScriptWord(cl);
    assert argv[i + 1..] == [];
  }

  lemma ReadScriptWord(argv: seq<string>, i: nat, fl: Flags, cl: Client, ps: Parsers)
    requires |argv| == i + 1 && argv[i] == "s" && cl.pseudos && !cl.qalter
    ensures ParseFrom(argv, i, fl, cl, ps) == Parsed([SCRIPT])
  {
    ScriptGroup(argv, i, fl, cl, ps);
    assert ParseFrom(argv, i, fl, cl, ps) == ParseNext(argv, i, fl, cl, ps);
    assert ParseFrom(argv, |argv|, FlagsBehind(argv, i, fl, cl), cl, ps) == Parsed([]);
    assert [SCRIPT] + [] == [SCRIPT];
  }

  lemma WordC(cl: Client)
    ensures Lookup("-C", cl) == Some(Entry(Prefix, 1))
  {
  }

  lemma WordSync(cl: Client)
    ensures Lookup("-sync", cl) == Some(Entry(Sync, 1))
  {
  }

  lemma WordT(cl: Client)
    ensures Lookup("-t", cl) == Some(Entry(Tasks, 1))
  {
  }

  lemma WordClear(cl: Client)
    ensures Lookup("-clear", cl) == Some(Entry(Clear, 0))
  {
  }

  lemma WordsHB(cl: Client)
    requires !cl.qalter
    ensures Lookup("-h", cl) == Some(Entry(Hold, 0)) && Lookup("-b", cl) == Some(Entry(Binary, 1))
  {
  }

  /** Two options and the script, the words of the second starting at `i`, the script at `k`. */
  lemma TwoOptionsRead(q: Request, i: nat, k: nat, x: Record, y: Record)
    requires q.rd.prog == Submit && i <= k && k + 1 == |q.argv| && q.argv[k] == "s"
    requires var cl, ps := Client(true, false, Submit), q.rd.parsers;
      && ParseFrom(q.argv, 0, INITIAL, cl, ps) == Prepended(x, ParseFrom(q.argv, i, INITIAL, cl, ps))
      && ParseFrom(q.argv, i, INITIAL, cl, ps) == Prepended(y, ParseFrom(q.argv, k, INITIAL, cl, ps))
    ensures Cmdline(q) == Parsed([x, y, SCRIPT])
  {
    ReadScriptWord(q.argv, k, INITIAL, Client(true, false, Submit), q.rd.parsers);
    assert [y] + [SCRIPT] == [y, SCRIPT] && [x] + [y, SCRIPT] == [x, y, SCRIPT];
    CmdlineIs(q, [x, y, SCRIPT]);
  }

  // ----- submissions of a script without options -----

  lemma CmdlineIs(q: Request, rs: seq<Record>)
    requires q.rd.prog == Submit
    requires ParseFrom(q.argv, 0, INITIAL, Client(true, false, Submit), q.rd.parsers) == Parsed(rs)
    ensures Cmdline(q) == Parsed(rs)
  {
    assert rs + [] == rs;
  }

  lemma EmptyText(prefix: string, rd: Reader)
    ensures TextRecords([], prefix, rd) == Parsed([])
  {
    assert Lines([], 0) == [];
  }

  lemma EmptyScript(cmd: seq<Record>, rd: Reader)
    requires Has(cmd, Script)
    ensures ScriptRecords(cmd, Holds([]), rd) == Parsed(ScriptPseudos([]))
  {
    if DirectivePrefix(cmd).Some? {
      EmptyText(DirectivePrefix(cmd).value, rd);
    }
    assert [] + ScriptPseudos([]) == ScriptPseudos([]);
  }

  predicate IsQuiet(rs: seq<Record>) {
    Only(rs, Help) == [] && Only(rs, MasterQueue) == []
  }

  lemma PseudosAreQuiet()
    ensures IsQuiet(ScriptPseudos([]))
  {
    NoneOf(ScriptPseudos([]), Help);
    NoneOf(ScriptPseudos([]), MasterQueue);
  }

  lemma QuietConcat(a: seq<Record>, b: seq<Record>)
    requires IsQuiet(a) && IsQuiet(b)
    ensures IsQuiet(a + b)
  {
    OnlyConcat(a, b, Help);
    OnlyConcat(a, b, MasterQueue);
  }

  lemma HasOnly(s: seq<Record>, sw: Switch)
    ensures Has(s, sw) <==> Only(s, sw) != []
  {
    NoneLeft(s, sw);
  }

  /** The script of these submissions brings nothing but its text. */
  predicate IsEmptyScript(script: seq<Record>) {
    script == [] || script == ScriptPseudos([])
  }

  lemma MergedIsQuiet(defaults: seq<Record>, script: seq<Record>, cmd: seq<Record>)
    requires IsQuiet(defaults) && IsQuiet(cmd) && IsEmptyScript(script)
    ensures IsQuiet(defaults + script + cmd) && Checked(Merged(defaults, script, cmd)) == Parsed(Merged(defaults, script, cmd))
  {
    PseudosAreQuiet();
    assert IsQuiet([]);
    QuietConcat(defaults, script);
    QuietConcat(defaults + script, cmd);
    MergedKeeps(defaults, script, cmd, MasterQueue);
    HasOnly(Merged(defaults, script, cmd), MasterQueue);
  }

  lemma EmbeddedIs(q: Request, defaults: seq<Record>, cmd: seq<Record>) returns (script: seq<Record>)
    requires q.input == Holds([]) && Has(cmd, Script)
    ensures Embedded(q, cmd, defaults) == Parsed(script) && IsEmptyScript(script)
  {
    EmptyScript(cmd, q.rd);
    script := Embedded(q, cmd, defaults).records;
  }

  /** A submission with an empty script is complete, and its lists are those of defaults and command line. */
  lemma PlainSubmission(q: Request, defaults: seq<Record>, cmd: seq<Record>) returns (script: seq<Record>)
    requires q.input == Holds([]) && Defaults(q) == Parsed(defaults) && Cmdline(q) == Parsed(cmd)
    requires IsQuiet(defaults) && IsQuiet(cmd) && Only(cmd, Script) != []
    ensures IsComplete(q) && IsEmptyScript(script) && Flat(Lists(q)) == defaults + script + cmd
    ensures AllOptions(q) == Parsed(Merged(defaults, script, cmd))
  {
    HasOnly(cmd, Script);
    HasOnly(cmd, Help);
    script := EmbeddedIs(q, defaults, cmd);
    MergedIsQuiet(defaults, script, cmd);
    var _, _, _, _ := PartsAreFlat(q);
    SurvivingEmpty(defaults + script + cmd, Help);
  }

  lemma PseudosHaveNone(sw: Switch)
    requires sw != ScriptLength && sw != ScriptText
    ensures Only(ScriptPseudos([]), sw) == [] && !HasClear(ScriptPseudos([]))
  {
    NoneOf(ScriptPseudos([]), sw);
  }

  lemma EmptyScriptHasNone(script: seq<Record>, sw: Switch)
    requires IsEmptyScript(script) && sw != ScriptLength && sw != ScriptText
    ensures Only(script, sw) == [] && !HasClear(script) && Surviving(script, sw) == []
  {
    if script != [] {
      PseudosHaveNone(sw);
    }
    SurvivingAll(script, sw);
  }

  lemma PlainFlat(defaults: seq<Record>, script: seq<Record>, cmd: seq<Record>, sw: Switch)
    requires IsEmptyScript(script) && sw != ScriptLength && sw != ScriptText
    ensures Only(defaults + script + cmd, sw) == Only(defaults, sw) + Only(cmd, sw)
  {
    EmptyScriptHasNone(script, sw);
    var front := defaults + script;
    OnlyConcat(front, cmd, sw);
    OnlyConcat(defaults, script, sw);
    assert Only(front, sw) == Only(defaults, sw);
  }

  lemma BehindEmptyScript(script: seq<Record>, cmd: seq<Record>, sw: Switch)
    requires IsEmptyScript(script) && sw != ScriptLength && sw != ScriptText
    ensures Only([] + script + cmd, sw) == Only(cmd, sw) && Surviving([] + script + cmd, sw) == Surviving(cmd, sw)
  {
    EmptyScriptHasNone(script, sw);
    assert [] + script == script;
    OnlyConcat(script, cmd, sw);
    SurvivingConcat(script, cmd, sw);
    assert [] + Only(cmd, sw) == Only(cmd, sw) && [] + Surviving(cmd, sw) == Surviving(cmd, sw);
  }

  lemma NoDefaults(q: Request)
    requires q.files == []
    ensures Defaults(q) == Parsed([])
  {
  }

  function One(r: Record, sw: Switch): seq<Record> {
    if r.sw == sw then [r] else []
  }

  lemma OnlyOne(r: Record, sw: Switch)
    ensures Only([r], sw) == One(r, sw)
  {
  }

  lemma OnlyTwo(x: Record, y: Record, sw: Switch)
    ensures Only([x, y], sw) == One(x, sw) + One(y, sw)
  {
    assert [x, y] == [x] + [y];
    OnlyConcat([x], [y], sw);
    OnlyOne(x, sw);
    OnlyOne(y, sw);
  }

  lemma OnlyThree(x: Record, y: Record, z: Record, sw: Switch)
    ensures Only([x, y, z], sw) == One(x, sw) + (One(y, sw) + One(z, sw))
  {
    assert [x, y, z] == [x] + [y, z];
    OnlyConcat([x], [y, z], sw);
    OnlyOne(x, sw);
    OnlyTwo(y, z, sw);
  }

  /** Two options and the script. */
  lemma QuietThree(x: Record, y: Record)
    requires x.sw != Help && x.sw != MasterQueue && x.sw != Script && y.sw != Help && y.sw != MasterQueue && y.sw != Script
    ensures IsQuiet([x, y, SCRIPT]) && Only([x, y, SCRIPT], Script) == [SCRIPT]
  {
    OnlyThree(x, y, SCRIPT, Help);
    OnlyThree(x, y, SCRIPT, MasterQueue);
    OnlyThree(x, y, SCRIPT, Script);
  }

  lemma BothSurvive(x: Record, y: Record, sw: Switch)
    requires x.sw == y.sw == sw && sw != Script && sw != Clear
    ensures Only([x, y, SCRIPT], sw) == [x, y] && Surviving([x, y, SCRIPT], sw) == [x, y]
  {
    OnlyThree(x, y, SCRIPT, sw);
    assert One(x, sw) + (One(y, sw) + One(SCRIPT, sw)) == [x, y];
    NotCleared(x, y);
    SurvivingAll([x, y, SCRIPT], sw);
  }

  lemma NotCleared(x: Record, y: Record)
    requires x.sw != Clear && y.sw != Clear
    ensures !HasClear([x, y, SCRIPT])
  {
  }

  // ----- -C a -C b -----

  function Prefixed(text: string): Record {
    Simple(Prefix, text, Value(0, Some(text), []))
  }

  lemma TwoPrefixWords(q: Request, a: string, b: string)
    requires q.argv == ["-C", a, "-C", b, "s"] && q.rd.prog == Submit
    requires q.rd.parsers.value(Prefix, a) == Some(Prefixed(a).value) && q.rd.parsers.value(Prefix, b) == Some(Prefixed(b).value)
    ensures Cmdline(q) == Parsed([Prefixed(a), Prefixed(b), SCRIPT])
  {
    var cl, ps := Client(true, false, Submit), q.rd.parsers;
    WordC(cl);
    ReadArgument(q.argv, 0, INITIAL, cl, ps, Prefix, Prefixed(a).value);
    ReadArgument(q.argv, 2, INITIAL, cl, ps, Prefix, Prefixed(b).value);
    TwoOptionsRead(q, 2, 4, Prefixed(a), Prefixed(b));
  }

  lemma TwoPrefixRecords(x: Record, y: Record)
    requires x.sw == Prefix && y.sw == Prefix
    ensures var cmd := [x, y, SCRIPT];
      IsQuiet(cmd) && Only(cmd, Script) == [SCRIPT] && Only(cmd, Prefix) == [x, y] && Surviving(cmd, Prefix) == [x, y]
  {
    QuietThree(x, y);
    BothSurvive(x, y, Prefix);
  }

  /** The script is scanned under `a`, the job records `b`. */
  lemma TwoPrefixes(q: Request, a: string, b: string)
    requires q.argv == ["-C", a, "-C", b, "s"] && q.files == [] && q.input == Holds([]) && q.rd.prog == Submit
    requires q.rd.parsers.value(Prefix, a) == Some(Prefixed(a).value) && q.rd.parsers.value(Prefix, b) == Some(Prefixed(b).value)
    ensures IsComplete(q) && Cmdline(q).Parsed?
    ensures DirectivePrefix(Cmdline(q).records) == Some(a) && TextOf(JobFor(q), F(Prefix)) == Some(b)
  {
    TwoPrefixWords(q, a, b);
    TwoPrefixRecords(Prefixed(a), Prefixed(b));
    NoDefaults(q);
    var script := PlainSubmission(q, [], [Prefixed(a), Prefixed(b), SCRIPT]);
    FirstPrefix(Cmdline(q).records);
    JobRecordsLastPrefix(q);
  }

  // ----- -b y -b n -----

  lemma TwoBinaryWords(q: Request, y: Value, n: Value)
    requires q.argv == ["-b", "y", "-b", "n", "s"] && q.rd.prog == Submit
    requires q.rd.parsers.value(Binary, "y") == Some(y) && q.rd.parsers.value(Binary, "n") == Some(n)
    ensures Cmdline(q) == Parsed([Simple(Binary, "y", y), Simple(Binary, "n", n), SCRIPT])
  {
    var cl, ps := Client(true, false, Submit), q.rd.parsers;
    WordsHB(cl);
    ReadArgument(q.argv, 0, INITIAL, cl, ps, Binary, y);
    ReadArgument(q.argv, 2, INITIAL, cl, ps, Binary, n);
    TwoOptionsRead(q, 2, 4, Simple(Binary, "y", y), Simple(Binary, "n", n));
  }

  lemma TwoBinaryRecords(x: Record, y: Record)
    requires x.sw == Binary && y.sw == Binary
    ensures var cmd := [x, y, SCRIPT]; IsQuiet(cmd) && Only(cmd, Script) == [SCRIPT] && Only(cmd, Binary) == [x, y]
  {
    QuietThree(x, y);
    BothSurvive(x, y, Binary);
  }

  /** The script is not scanned, and the job is not binary. */
  lemma TwoBinaries(q: Request, y: Value, n: Value)
    requires q.argv == ["-b", "y", "-b", "n", "s"] && q.files == [] && q.input == Holds([]) && q.rd.prog == Submit
    requires q.rd.parsers.value(Binary, "y") == Some(y) && q.rd.parsers.value(Binary, "n") == Some(n)
    requires y.number == 1 && n.number == 0
    ensures IsComplete(q) && Cmdline(q).Parsed? && Defaults(q).Parsed?
    ensures SkipsScript(Cmdline(q).records, Defaults(q).records) && !IsBinary(JobFor(q))
  {
    var yes, no := Simple(Binary, "y", y), Simple(Binary, "n", n);
    TwoBinaryWords(q, y, n);
    TwoBinaryRecords(yes, no);
    NoDefaults(q);
    var script := PlainSubmission(q, [], [yes, no, SCRIPT]);
    SkipIs([], [yes, no, SCRIPT]);
    JobTakesLast(q);
    BehindEmptyScript(script, [yes, no, SCRIPT], Binary);
  }

  // ----- -sync x -clear -----

  lemma ClearedSyncWords(q: Request, v: Value)
    requires q.argv == ["-sync", "x", "-clear", "s"] && q.rd.prog == Submit && q.rd.parsers.value(Sync, "x") == Some(v)
    ensures Cmdline(q) == Parsed([Simple(Sync, "x", v), Bare(Clear), SCRIPT])
  {
    var cl, ps := Client(true, false, Submit), q.rd.parsers;
    WordSync(cl);
    WordClear(cl);
    ReadArgument(q.argv, 0, INITIAL, cl, ps, Sync, v);
    ReadFlag(q.argv, 2, INITIAL, cl, ps, Clear);
    TwoOptionsRead(q, 2, 3, Simple(Sync, "x", v), Bare(Clear));
  }

  lemma ClearedSyncRecords(x: Record, c: Record)
    requires x.sw == Sync && c.sw == Clear
    ensures var cmd := [x, c, SCRIPT];
      IsQuiet(cmd) && Only(cmd, Script) == [SCRIPT] && Only(cmd, Sync) == [x] && Surviving(cmd, Sync) == []
  {
    var cmd := [x, c, SCRIPT];
    QuietThree(x, c);
    OnlyThree(x, c, SCRIPT, Sync);
    assert cmd == ([x] + [c]) + [SCRIPT];
    SurvivingLast([x] + [c], SCRIPT, Sync);
    SurvivingLast([x], c, Sync);
  }

  lemma ClearedSyncLists(q: Request, v: Value) returns (x: Record)
    requires q.argv == ["-sync", "x", "-clear", "s"] && q.files == [] && q.input == Holds([]) && q.rd.prog == Submit
    requires q.rd.parsers.value(Sync, "x") == Some(v)
    ensures IsComplete(q) && x == Simple(Sync, "x", v) && Only(Flat(Lists(q)), Sync) == [x] && Surviving(Flat(Lists(q)), Sync) == []
  {
    x := Simple(Sync, "x", v);
    ClearedSyncWords(q, v);
    ClearedSyncRecords(x, Bare(Clear));
    NoDefaults(q);
    var script := PlainSubmission(q, [], [x, Bare(Clear), SCRIPT]);
    BehindEmptyScript(script, [x, Bare(Clear), SCRIPT], Sync);
  }

  /** The -sync is cleared, and the job has it nevertheless. */
  lemma ClearedSync(q: Request, v: Value)
    requires q.argv == ["-sync", "x", "-clear", "s"] && q.files == [] && q.input == Holds([]) && q.rd.prog == Submit
    requires q.rd.parsers.value(Sync, "x") == Some(v)
    ensures IsComplete(q) && Surviving(Flat(Lists(q)), Sync) == []
    ensures F(Sync) in JobFor(q).numbers && JobFor(q).numbers[F(Sync)] == v.number
  {
    var x := ClearedSyncLists(q, v);
    SyncNumber(x);
    ClearIsTooLate(q, Sync);
  }

  lemma SyncNumber(x: Record)
    requires x.sw == Sync
    ensures NumberIn(x) == x.value.number && IsEarly(Sync)
  {
  }

  // ----- -h -h -----

  lemma TwoHoldWords(q: Request)
    requires q.argv == ["-h", "-h", "s"] && q.rd.prog == Submit
    ensures Cmdline(q) == Parsed([HELD, HELD, SCRIPT])
  {
    var cl, ps := Client(true, false, Submit), q.rd.parsers;
    WordsHB(cl);
    ReadFlag(q.argv, 0, INITIAL, cl, ps, Hold);
    ReadFlag(q.argv, 1, INITIAL, cl, ps, Hold);
    TwoOptionsRead(q, 1, 2, HELD, HELD);
  }

  lemma TwoHoldRecords()
    ensures var cmd := [HELD, HELD, SCRIPT];
      IsQuiet(cmd) && Only(cmd, Script) == [SCRIPT] && Surviving(cmd, Hold) == [HELD, HELD]
  {
    QuietThree(HELD, HELD);
    BothSurvive(HELD, HELD, Hold);
  }

  lemma TwoUserHolds()
    ensures UserHolds([HELD, HELD]) == 2
  {
    assert [HELD, HELD] == [HELD] + [HELD] && [HELD] == [] + [HELD];
    UserHoldsLast([HELD], HELD);
    UserHoldsLast([], HELD);
  }

  /** The job has no task left in either list. */
  lemma TwoHolds(q: Request)
    requires q.argv == ["-h", "-h", "s"] && q.files == [] && q.input == Holds([]) && q.rd.prog == Submit
    ensures IsComplete(q) && JobFor(q).notHeld == [] && JobFor(q).userHeld == []
  {
    TwoHoldWords(q);
    TwoHoldRecords();
    NoDefaults(q);
    var script := PlainSubmission(q, [], [HELD, HELD, SCRIPT]);
    BehindEmptyScript(script, [HELD, HELD, SCRIPT], Hold);
    TwoUserHolds();
    HoldPrecedence(q);
  }

  // ----- a -t in a defaults file -----

  lemma OneLine(t: string)
    requires t != [] && t == "-t 1"
    ensures Lines(t, 0) == [t] && Directive(t, "") == Some(t)
  {
    assert LineEnd(t, 4) == 4 && LineEnd(t, 3) == 4 && LineEnd(t, 2) == 4 && LineEnd(t, 1) == 4 && LineEnd(t, 0) == 4;
    assert t[0..4] == t && Lines(t, 4) == [];
    assert CutAtHash(t[4..]) == [] && CutAtHash(t[3..]) == t[3..] && CutAtHash(t[2..]) == t[2..] && CutAtHash(t[1..]) == t[1..];
    assert CutAtHash(t) == t && TrimEnd(t) == t;
  }

  lemma NothingBehind(argv: seq<string>, r: Record, cl: Client, ps: Parsers)
    requires ParseFrom(argv, 0, INITIAL, cl, ps) == Prepended(r, ParseFrom(argv, |argv|, INITIAL, cl, ps))
    requires cl.prog == Submit
    ensures Parse(argv, cl, ps) == Parsed([r])
  {
    assert ParseFrom(argv, |argv|, INITIAL, cl, ps) == Parsed([]);
    assert [r] + [] == [r];
  }

  lemma TaskLine(rd: Reader, v: Value, t: string)
    requires t == "-t 1" && rd.prog == Submit && rd.words(t) == ["-t", "1"] && rd.parsers.value(Tasks, "1") == Some(v)
    ensures LineRecords(t, "", rd) == Parsed([Simple(Tasks, "1", v)])
  {
    var cl, argv := Client(false, false, Submit), ["-t", "1"];
    OneLine(t);
    WordT(cl);
    ReadArgument(argv, 0, INITIAL, cl, rd.parsers, Tasks, v);
    NothingBehind(argv, Simple(Tasks, "1", v), cl, rd.parsers);
  }

  lemma OneLineGathered(rd: Reader, t: string, r: Record)
    requires LineRecords(t, "", rd) == Parsed([r])
    ensures Gathered([t], "", rd) == Parsed([r])
  {
    assert [t][1..] == [] && Gathered([], "", rd) == Parsed([]);
    assert Gathered([t], "", rd) == GatheredNext([t], "", rd);
  }

  lemma DefaultTask(rd: Reader, v: Value)
    requires rd.prog == Submit && rd.words("-t 1") == ["-t", "1"] && rd.parsers.value(Tasks, "1") == Some(v)
    ensures TextRecords("-t 1", "", rd) == Parsed([Simple(Tasks, "1", v)])
  {
    var t, r := "-t 1", Simple(Tasks, "1", v);
    OneLine(t);
    TaskLine(rd, v, t);
    OneLineGathered(rd, t, r);
    NoneOf([r], Prefix);
  }

  lemma DefaultsAre(q: Request, id: nat, v: Value)
    requires q.files == [DefaultsFile(id, Holds("-t 1"))] && q.rd.prog == Submit
    requires q.rd.words("-t 1") == ["-t", "1"] && q.rd.parsers.value(Tasks, "1") == Some(v)
    ensures Defaults(q) == Parsed([Simple(Tasks, "1", v)])
  {
    DefaultTask(q.rd, v);
    assert FileRecords(q.files, 0, q.rd) == Parsed([Simple(Tasks, "1", v)]);
    assert DefaultsFrom(q.files, 1, q.rd) == Parsed([]);
    assert DefaultsFrom(q.files, 0, q.rd) == DefaultsNext(q.files, 0, q.rd);
  }

  lemma TaskWords(q: Request, w: Value)
    requires q.argv == ["-t", "2", "s"] && q.rd.prog == Submit && q.rd.parsers.value(Tasks, "2") == Some(w)
    ensures Cmdline(q) == Parsed([Simple(Tasks, "2", w), SCRIPT])
  {
    var cl, ps := Client(true, false, Submit), q.rd.parsers;
    var x := Simple(Tasks, "2", w);
    WordT(cl);
    ReadArgument(q.argv, 0, INITIAL, cl, ps, Tasks, w);
    ReadScriptWord(q.argv, 2, INITIAL, cl, ps);
    assert [x] + [SCRIPT] == [x, SCRIPT];
    CmdlineIs(q, [x, SCRIPT]);
  }

  lemma NoClearOf(y: Record)
    requires y.sw != Clear
    ensures !HasClear([y, SCRIPT])
  {
  }

  lemma TaskRecords(x: Record, y: Record)
    requires x.sw == Tasks && y.sw == Tasks
    ensures IsQuiet([x]) && IsQuiet([y, SCRIPT]) && Only([y, SCRIPT], Script) == [SCRIPT]
    ensures Only([x], Tasks) == [x] && Only([y, SCRIPT], Tasks) == [y] && !HasClear([y, SCRIPT])
  {
    OnlyTwo(y, SCRIPT, Help);
    OnlyTwo(y, SCRIPT, MasterQueue);
    OnlyTwo(y, SCRIPT, Script);
    OnlyTwo(y, SCRIPT, Tasks);
    OnlyOne(x, Help);
    OnlyOne(x, MasterQueue);
    OnlyOne(x, Tasks);
    NoClearOf(y);
  }

  lemma TasksSurvive(x: Record, y: Record, script: seq<Record>)
    requires x.sw == Tasks && y.sw == Tasks && IsEmptyScript(script)
    ensures var flat := [x] + script + [y, SCRIPT];
      Only(flat, Tasks) == [x, y] && Surviving(flat, Tasks) == [x, y]
  {
    TaskRecords(x, y);
    PlainFlat([x], script, [y, SCRIPT], Tasks);
    EmptyScriptHasNone(script, Tasks);
    assert [x] + [y] == [x, y];
    SurvivingConcat([x] + script, [y, SCRIPT], Tasks);
    SurvivingConcat([x], script, Tasks);
    SurvivingAll([y, SCRIPT], Tasks);
    SurvivingAll([x], Tasks);
  }

  /**
   A -t in a defaults file: the job gets that one, and the -t of the command line makes the
   submission fail as an unknown option.
   */
  lemma DefaultTaskWins(q: Request, id: nat, v: Value, w: Value)
    requires q.files == [DefaultsFile(id, Holds("-t 1"))] && q.argv == ["-t", "2", "s"]
    requires q.input == Holds([]) && q.rd.prog == Submit && q.rd.words("-t 1") == ["-t", "1"]
    requires q.rd.parsers.value(Tasks, "1") == Some(v) && q.rd.parsers.value(Tasks, "2") == Some(w)
    ensures IsComplete(q) && Only(Final(AllOptions(q).records).used, Tasks) == [Simple(Tasks, "1", v)]
    ensures Simple(Tasks, "2", w) in UnknownOf(AllOptions(q).records)
    ensures Verdict(q.env, AllOptions(q).records).Refused?
  {
    var x, y := Simple(Tasks, "1", v), Simple(Tasks, "2", w);
    DefaultsAre(q, id, v);
    TaskWords(q, w);
    TaskRecords(x, y);
    var script := PlainSubmission(q, [x], [y, SCRIPT]);
    TasksSurvive(x, y, script);
    OptionsKeepOrder(q, Tasks);
    FirstIsFirst(Lists(q), Tasks);
    FirstSourceWins(q, Tasks);
    CompleteRuns(q);
    assert RestIfFirstSurvives(AllOptions(q).records, Tasks) == [y];
    OnlyIn(UnknownOf(AllOptions(q).records), Tasks, y);
  }

  lemma {:induction false} OnlyIn(s: seq<Record>, sw: Switch, r: Record)
    requires r in Only(s, sw)
    ensures r in s
  {
    if s[0].sw == sw && r == s[0] {
    } else {
      OnlyIn(s[1..], sw, r);
    }
  }
}
