/**
 From an argument vector to option records (`cull_parse_cmdline` in source/common/parse_qsub.cc).

 The parsers of the option arguments are a parameter: every statement holds whatever they
 accept and whatever they make of an argument.
 */
module CommandLine {
  import opened Options

  datatype Prog = Submit | Qhold | Qrls

  /** `pseudos`: operands become script and job arguments; `qalter`: they become job ids instead. */
  datatype Client = Client(pseudos: bool, qalter: bool, prog: Prog)

  /** The argument parsers, and what the files named by -@ hold. */
  datatype Parsers = Parsers(value: (Switch, string) -> Option<Value>, files: string -> Outcome)

  datatype Error =
    | MissingArgument(word: string)
    | BadArgument(word: string)
    | InvalidOption(word: string)
    | MissingJobArguments
    | CannotOpen
    | CannotRead
    | NoInput
    | Usage
    | MasterAndScope
    | HelpNotAllowed
    | CommandRequired
    | UnknownOptions(records: seq<Record>)

  datatype Outcome = Parsed(records: seq<Record>) | Failed(error: Error)

  // ----- the option words -----

  /** Options without an argument. */
  function NoArgument(word: string): Option<Switch> {
    if word == "-clear" then Some(Clear)
    else if word == "-explain" then Some(Other(word))
    else if word == "-xml" then Some(Other(word))
    else if word == "-cwd" then Some(WorkDir)
    else if word == "-hard" then Some(Hard)
    else if word == "-help" then Some(Help)
    else if word == "-notify" then Some(Notify)
    else if word == "-soft" then Some(Soft)
    else if word == "-terse" then Some(Terse)
    else if word == "-uall" then Some(Other(word))
    else if word == "-verify" then Some(Verify)
    else if word == "-V" then Some(EnvAll)
    else if word == "-verbose" then Some(Other(word))
    else if word == "-inherit" then Some(Other(word))
    else if word == "-nostdin" then Some(Other(word))
    else if word == "-noshell" then Some(Other(word))
    else if word == "-X" then Some(Other(word))
    else None
  }

  /** Options with one argument, first half. */
  function SubmitArgument(word: string): Option<Switch> {
    if word == "-a" then Some(StartTime)
    else if word == "-A" then Some(Account)
    else if word == "-ar" then Some(Reservation)
    else if word == "-ac" then Some(AddContext)
    else if word == "-bstrategy" then Some(BindStrategy)
    else if word == "-binstance" then Some(BindInstance)
    else if word == "-bamount" then Some(BindAmount)
    else if word == "-bfilter" then Some(BindFilter)
    else if word == "-bstart" then Some(BindStart)
    else if word == "-bstop" then Some(BindStop)
    else if word == "-bsort" then Some(BindSort)
    else if word == "-btype" then Some(BindType)
    else if word == "-bunit" then Some(BindUnit)
    else if word == "-c" then Some(Interval)
    else if word == "-ckpt" then Some(Checkpoint)
    else if word == "-C" then Some(Prefix)
    else if word == "-dc" then Some(DeleteContext)
    else if word == "-dept" then Some(Department)
    else if word == "-dl" then Some(Deadline)
    else if word == "-e" then Some(StderrPath)
    else if word == "-i" then Some(StdinPath)
    else if word == "-hold_jid" then Some(HoldJid)
    else if word == "-hold_jid_ad" then Some(HoldJidArray)
    else if word == "-j" then Some(Join)
    else if word == "-js" then Some(JobShare)
    else if word == "-jsv" then Some(Jsv)
    else if word == "-l" then Some(Resource)
    else if word == "-m" then Some(MailOptions)
    else if word == "-masterq" then Some(MasterQueue)
    else None
  }

  /** Options with one argument, second half, and those the job builder does not know. */
  function ClientArgument(word: string): Option<Switch> {
    if word == "-M" then Some(MailList)
    else if word == "-N" then Some(Name)
    else if word == "-now" then Some(Now)
    else if word == "-o" then Some(StdoutPath)
    else if word == "-p" then Some(Priority)
    else if word == "-P" then Some(Project)
    else if word == "-par" then Some(Allocation)
    else if word == "-q" then Some(Queue)
    else if word == "-r" then Some(Restart)
    else if word == "-R" then Some(Reserve)
    else if word == "-sc" then Some(SetContext)
    else if word == "-scope" then Some(ScopeWord)
    else if word == "-sync" then Some(Sync)
    else if word == "-S" then Some(ShellPath)
    else if word == "-t" then Some(Tasks)
    else if word == "-tc" then Some(TaskLimit)
    else if word == "-u" then Some(User)
    else if word == "-v" then Some(Env)
    else if word == "-w" then Some(Validate)
    else if word == "-wd" then Some(WorkDir)
    else if word == "-pty" then Some(Pty)
    else if word == "-cat" then Some(Other(word))
    else if word == "-cell" then Some(Other(word))
    else if word == "-ectx" then Some(Other(word))
    else if word == "-fmt" then Some(Other(word))
    else if word == "-d" then Some(Other(word))
    else if word == "-display" then Some(Other(word))
    else if word == "-he" then Some(Other(word))
    else if word == "-ot" then Some(Other(word))
    else if word == "-when" then Some(Other(word))
    else if word == "-suspend_remote" then Some(Other(word))
    else None
  }

  function OneArgument(word: string): Option<Switch> {
    if SubmitArgument(word).Some? then SubmitArgument(word) else ClientArgument(word)
  }

  datatype Entry = Entry(sw: Switch, args: nat)

  /** What an option word stands for and how many arguments follow it. */
  function Lookup(word: string, cl: Client): Option<Entry> {
    if word == "-h" then Some(Entry(Hold, if cl.qalter then 1 else 0))
    else if word == "-pe" then Some(Entry(Parallel, 2))
    else if word == "-b" then (if cl.qalter then None else Some(Entry(Binary, 1)))
    else if word == "-shell" then (if cl.qalter then None else Some(Entry(NoShell, 1)))
    else if word == "-@" then Some(Entry(Other("-@"), 1))
    else if NoArgument(word).Some? then Some(Entry(NoArgument(word).value, 0))
    else if OneArgument(word).Some? then Some(Entry(OneArgument(word).value, 1))
    else None
  }

  function Lower(s: string): string {
    if s == [] then []
    else [if 'A' <= s[0] <= 'Z' then (s[0] as int + 32) as char else s[0]] + Lower(s[1..])
  }

  function ParseScope(word: string): Option<Scope> {
    if Lower(word) == "global" then Some(Global)
    else if Lower(word) == "master" then Some(Master)
    else if Lower(word) == "slave" then Some(Slave)
    else None
  }

  predicate IsDashed(word: string) {
    word != [] && word[0] == '-'
  }

  // ----- one group: an option with its arguments, or an operand -----

  /** Set by -hard, -soft and -scope for the requests behind them. */
  datatype Flags = Flags(hardSoft: int, scope: Scope)

  const INITIAL := Flags(0, Global)

  function Flagged(sw: Switch, arg: string, v: Value, fl: Flags): Record {
    if sw == Resource || sw == Queue then Record(sw, Some(arg), v, fl.hardSoft, fl.scope)
    else if sw == Allocation then Record(sw, Some(arg), v, 0, fl.scope)
    else if sw == MasterQueue then Record(sw, Some(arg), v, 0, Master)
    else Record(sw, Some(arg), v, 0, Global)
  }

  function Bare(sw: Switch): Record {
    Record(sw, None, NOTHING, 0, Global)
  }

  function TextRecord(sw: Switch, word: string): Record {
    Record(sw, None, Value(0, Some(word), []), 0, Global)
  }

  function JobArgs(words: seq<string>): seq<Record> {
    if words == [] then [] else [TextRecord(JobArg, words[0])] + JobArgs(words[1..])
  }

  /** The records of an option with its arguments. */
  function OptionRecords(sw: Switch, args: seq<string>, fl: Flags, ps: Parsers): Outcome {
    if |args| == 0 then
      if sw == Hold then Parsed([Record(Hold, Some(""), Value(1, None, []), 0, Global)])
      else if sw == EnvAll then FromValue(EnvAll, "", ps.value(EnvAll, ""), fl)
      else Parsed([Bare(sw)])
    else if sw == ScopeWord then
      if ParseScope(args[0]).Some? then Parsed([Bare(ScopeWord)]) else Failed(BadArgument(args[0]))
    else if sw == Other("-@") then
      ps.files(args[0])
    else
      var arg := if |args| == 1 then args[0] else args[0] + [' '] + args[1];
      FromValue(sw, arg, ps.value(sw, arg), fl)
  }

  function FromValue(sw: Switch, arg: string, v: Option<Value>, fl: Flags): Outcome {
    match v
    case Some(x) => Parsed([Flagged(sw, arg, x, fl)])
    case None => Failed(BadArgument(arg))
  }

  /** A word that is no known option. */
  function WordRecords(argv: seq<string>, i: nat, cl: Client, ps: Parsers): Outcome
    requires i < |argv|
  {
    var w := argv[i];
    if IsDashed(w) && w != "--" then Failed(InvalidOption(w))
    else if w == "--" then
      if !cl.pseudos then Parsed([Bare(Other("--"))])
      else if i + 1 == |argv| then Failed(MissingJobArguments)
      else Parsed(JobArgs(argv[i + 1..]))
    else if !cl.pseudos then Parsed([TextRecord(Operand, w)])
    else if !cl.qalter then Parsed([TextRecord(Script, w)] + JobArgs(argv[i + 1..]))
    else FromValue(JobId, w, ps.value(JobId, w), INITIAL)
  }

  function Group(argv: seq<string>, i: nat, fl: Flags, cl: Client, ps: Parsers): Outcome
    requires i < |argv|
  {
    match Lookup(argv[i], cl)
    case Some(e) =>
      if i + e.args >= |argv| then Failed(MissingArgument(argv[i]))
      else OptionRecords(e.sw, argv[i + 1..i + 1 + e.args], fl, ps)
    case None => WordRecords(argv, i, cl, ps)
  }

  /** Where the next group starts. */
  function Next(argv: seq<string>, i: nat, cl: Client): (j: nat)
    requires i < |argv|
    ensures i < j <= |argv|
  {
    match Lookup(argv[i], cl)
    case Some(e) => if i + e.args >= |argv| then |argv| else i + 1 + e.args
    case None => if cl.pseudos && (!cl.qalter || argv[i] == "--") then |argv| else i + 1
  }

  function FlagsBehind(argv: seq<string>, i: nat, fl: Flags, cl: Client): Flags
    requires i < |argv|
  {
    match Lookup(argv[i], cl)
    case Some(e) =>
      if e.sw == Hard then fl.(hardSoft := 1)
      else if e.sw == Soft then fl.(hardSoft := 2)
      else if e.sw == ScopeWord && i + 1 < |argv| && ParseScope(argv[i + 1]).Some? then fl.(scope := ParseScope(argv[i + 1]).value)
      else fl
    case None => fl
  }

  // ----- the whole vector -----

  /** The groups from `i` on, one after the other; the first error ends it. */
  function ParseFrom(argv: seq<string>, i: nat, fl: Flags, cl: Client, ps: Parsers): Outcome
    requires i <= |argv|
    decreases |argv| - i, 1
  {
    if i == |argv| then Parsed([]) else ParseNext(argv, i, fl, cl, ps)
  }

  function ParseNext(argv: seq<string>, i: nat, fl: Flags, cl: Client, ps: Parsers): Outcome
    requires i < |argv|
    decreases |argv| - i, 0
  {
    match Group(argv, i, fl, cl, ps)
    case Failed(e) => Failed(e)
    case Parsed(rs) =>
      match ParseFrom(argv, Next(argv, i, cl), FlagsBehind(argv, i, fl, cl), cl, ps)
      case Failed(e) => Failed(e)
      case Parsed(more) => Parsed(rs + more)
  }

  predicate SeesHold(argv: seq<string>, i: nat, cl: Client)
    requires i <= |argv|
    decreases |argv| - i
  {
    i < |argv| && (argv[i] == "-h" || SeesHold(argv, Next(argv, i, cl), cl))
  }

  /** qhold and qrls stand for a -h of their own. */
  function DefaultHold(cl: Client, seen: bool): seq<Record> {
    if seen || cl.prog == Submit then []
    else [Record(Hold, Some("u"), Value(if cl.prog == Qhold then 1 else 17, None, []), 0, Global)]
  }

  function Parse(argv: seq<string>, cl: Client, ps: Parsers): Outcome {
    match ParseFrom(argv, 0, INITIAL, cl, ps)
    case Failed(e) => Failed(e)
    case Parsed(rs) => Parsed(rs + DefaultHold(cl, SeesHold(argv, 0, cl)))
  }

  /** The argument loop. */
  method ParseArguments(argv: seq<string>, cl: Client, ps: Parsers) returns (r: Outcome)
    ensures r == Parse(argv, cl, ps)
  {
    var sp, hardSoft, scope, isHold := 0, 0, Global, false;
    var cmdline: seq<Record> := [];
    while sp < |argv|
      invariant 0 <= sp <= |argv|
      invariant isHold || SeesHold(argv, sp, cl) <==> SeesHold(argv, 0, cl)
      invariant match ParseFrom(argv, 0, INITIAL, cl, ps)
        case Failed(e) => ParseFrom(argv, sp, Flags(hardSoft, scope), cl, ps) == Failed(e)
        case Parsed(rs) =>
          && ParseFrom(argv, sp, Flags(hardSoft, scope), cl, ps).Parsed?
          && cmdline + ParseFrom(argv, sp, Flags(hardSoft, scope), cl, ps).records == rs
      decreases |argv| - sp
    {
      var group := Group(argv, sp, Flags(hardSoft, scope), cl, ps);
      if group.Failed? {
        return group;
      }
      if argv[sp] == "-h" {
        isHold := true;
      }
      var behind := FlagsBehind(argv, sp, Flags(hardSoft, scope), cl);
      cmdline := cmdline + group.records;
      hardSoft, scope := behind.hardSoft, behind.scope;
      sp := Next(argv, sp, cl);
    }
    if !isHold {
      cmdline := cmdline + DefaultHold(cl, false);
    }
    r := Parsed(cmdline);
  }
}
