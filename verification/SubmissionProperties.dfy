/**
 End to end: which source a job takes each value from, what becomes of operands, requests and
 holds, and where two readings of the same option disagree.
 */
module SubmissionProperties {
  import opened Options
  import opened CommandLine
  import opened CommandLineProperties
  import opened ScriptOptions
  import opened Sources
  import opened JobParameters
  import opened HandlerRuns
  import opened JobLists
  import opened JobHandlers
  import opened JobFields
  import opened Submission

  // ----- when a run is complete -----

  /** Every handler runs unless a -help survives. */
  lemma StoppedByHelp(all: seq<Record>)
    ensures Final(all).stopped <==> Surviving(all, Help) != []
  {
    HandlersClear();
    HandlersStop(Rank(Help));
    CompleteUnlessHelp(Handlers(), CLEAR_AT, Rank(Help), all);
  }

  /** What becomes of the records of a switch. */
  lemma Distributed(all: seq<Record>, sw: Switch) returns (k: nat, h: Handler)
    requires IsPlain(sw) && Rank(sw) < HANDLERS && !Final(all).stopped
    ensures k == Rank(sw) != CLEAR_AT && h == HandlerAt(k) && (h.First? ==> k < CLEAR_AT || IsPseudo(sw))
    ensures IsDistributed(all, Final(all), sw, h, k < CLEAR_AT)
  {
    HandlersClear();
    k, h := HandlerOf(sw);
    RecordsReachTheirHandler(Handlers(), CLEAR_AT, k, all, sw);
  }

  /** No source holds a -help that survives. */
  ghost predicate IsComplete(q: Request) {
    AllOptions(q).Parsed? && Surviving(Flat(Lists(q)), Help) == []
  }

  lemma CompleteRuns(q: Request)
    requires IsComplete(q)
    ensures !Final(AllOptions(q).records).stopped
  {
    StoppedByHelp(AllOptions(q).records);
    OptionsKeepOrder(q, Help);
  }

  function JobFor(q: Request): Job
    requires AllOptions(q).Parsed?
  {
    JobOf(q.env, AllOptions(q).records)
  }

  /** Each option is used by one handler, dropped by -clear or reported as unknown: exactly one of these. */
  lemma NothingIsLost(q: Request, r: Record)
    requires IsComplete(q)
    ensures var all := AllOptions(q).records;
      Count(all, r) == Count(Final(all).used, r) + Count(Final(all).killed, r) + Count(UnknownOf(all), r)
  {
    CompleteRuns(q);
    RunConserves(Handlers(), AllOptions(q).records, r);
  }

  // ----- last wins -----

  /** Options taken behind -clear. */
  predicate IsLate(sw: Switch) {
    IsPlain(sw) && CLEAR_AT < Rank(sw) < HANDLERS && !IsPseudo(sw)
  }

  /** Options taken in front of -clear, all of them. */
  predicate IsEarly(sw: Switch) {
    sw == Sync || sw == Binary || sw == NoShell || sw == TaskLimit
  }

  /** Options of which one record is taken, in front of -clear. */
  predicate IsOnce(sw: Switch) {
    || sw == Tasks || sw == BindType || sw == BindAmount || sw == BindInstance || sw == BindUnit || sw == BindFilter
    || sw == BindSort || sw == BindStart || sw == BindStop || sw == BindStrategy
  }

  /** The log of a whole run names the used records. */
  lemma FinalLogs(all: seq<Record>)
    ensures RecordsOf(Final(all).log) == Final(all).used
  {
    var tr := TraceOf(Handlers(), Start(all));
    RunLogs(Handlers(), tr, HANDLERS);
  }

  lemma LateUsed(q: Request, sw: Switch)
    requires IsComplete(q) && IsLate(sw)
    ensures Only(RecordsOf(Final(AllOptions(q).records).log), sw) == Surviving(AllOptions(q).records, sw)
    ensures sw != Validate ==> Surviving(AllOptions(q).records, sw) == Surviving(Flat(Lists(q)), sw)
  {
    CompleteRuns(q);
    FinalLogs(AllOptions(q).records);
    var _, _ := Distributed(AllOptions(q).records, sw);
    if sw != Validate {
      OptionsKeepOrder(q, sw);
    }
  }

  lemma LateWinner(q: Request, f: Field)
    requires IsComplete(q) && IsLate(f.sw) && f.sw != Validate
    ensures LastHit(RecordsOf(Final(AllOptions(q).records).log), f) == Winner(Lists(q), f)
  {
    LateUsed(q, f.sw);
    LastHitOnly(RecordsOf(Final(AllOptions(q).records).log), f);
    WinnerIsLast(Lists(q), f);
  }

  /**
   Precedence: a text that an option behind -clear sets (-A, -N, -P, -pe, the rule of -par for
   each scope, ...) is that of the last record that survives, looking from the command line
   back to the cluster defaults.
   */
  lemma TextPrecedence(q: Request, f: Field)
    requires IsComplete(q) && IsLate(f.sw) && IsTextField(f)
    ensures var w := Winner(Lists(q), f); TextOf(JobFor(q), f) == if w.None? then None else TextIn(w.value)
  {
    TextIsNoValidation(f);
    LateWinner(q, f);
    TextIsLast(q.env, Final(AllOptions(q).records).log, f);
  }

  lemma TextIsNoValidation(f: Field)
    requires IsTextField(f)
    ensures f.sw != Validate
  {
  }

  /** The same for numbers and flags (-p, -a, -R, the two kinds of -c, ...). */
  lemma NumberPrecedence(q: Request, f: Field)
    requires IsComplete(q) && IsLate(f.sw) && IsNumberField(f) && f.sw != Validate
    ensures var w := Winner(Lists(q), f); var numbers := JobFor(q).numbers;
      if w.None? then f !in numbers else f in numbers && numbers[f] == NumberIn(w.value)
  {
    LateWinner(q, f);
    NumberIsLast(q.env, Final(AllOptions(q).records).log, f);
  }

  /** Is a -w added by the merge? */
  ghost predicate AddsValidation(q: Request)
    requires AllOptions(q).Parsed?
  {
    Only(Flat(Lists(q)), Reservation) != [] && Only(Flat(Lists(q)), Validate) == []
  }

  lemma ValidationSurvives(q: Request)
    requires AllOptions(q).Parsed?
    ensures Surviving(AllOptions(q).records, Validate)
      == if AddsValidation(q) then [VALIDATE_ERROR] else Surviving(Flat(Lists(q)), Validate)
  {
    var _, defaults, script, cmd := PartsAreFlat(q);
    var all := Overridden(Overridden(defaults, script), cmd);
    OverriddenTwice(defaults, script, cmd, Validate);
    OverriddenTwice(defaults, script, cmd, Reservation);
    SurvivingLast(all, VALIDATE_ERROR, Validate);
    SurvivingIsShorter(all, Validate);
  }

  lemma NumberFrom(env: seq<Item>, log: seq<Deed>, f: Field, own: seq<Record>)
    requires IsNumberField(f) && Only(RecordsOf(log), f.sw) == own
    ensures var w := LastHit(own, f); var numbers := Fold(Fresh(env), log).numbers;
      if w.None? then f !in numbers else f in numbers && numbers[f] == NumberIn(w.value)
  {
    LastHitOnly(RecordsOf(log), f);
    NumberIsLast(env, log, f);
  }

  lemma ValidateNumber(own: seq<Record>)
    ensures var w := LastHit(own, F(Validate)); w.Some? ==> NumberIn(w.value) == w.value.value.number
  {
    WinnerHits(own, F(Validate));
  }

  /** -w: the last that survives; without any -w, but with an -ar, error even behind a -clear. */
  lemma ValidatePrecedence(q: Request)
    requires IsComplete(q)
    ensures var w := Winner(Lists(q), F(Validate)); var numbers := JobFor(q).numbers;
      if AddsValidation(q) then F(Validate) in numbers && numbers[F(Validate)] == ERROR_VERIFY
      else if w.None? then F(Validate) !in numbers
      else F(Validate) in numbers && numbers[F(Validate)] == w.value.value.number
  {
    ValidateRank();
    LateUsed(q, Validate);
    ValidationSurvives(q);
    if AddsValidation(q) {
      NumberFrom(q.env, Final(AllOptions(q).records).log, F(Validate), [VALIDATE_ERROR]);
      ValidateHit();
    } else {
      var own := Surviving(Flat(Lists(q)), Validate);
      NumberFrom(q.env, Final(AllOptions(q).records).log, F(Validate), own);
      WinnerIsLast(Lists(q), F(Validate));
      ValidateNumber(own);
    }
  }

  lemma ValidateRank()
    ensures IsLate(Validate) && IsNumberField(F(Validate))
  {
  }

  lemma ValidateHit()
    ensures LastHit([VALIDATE_ERROR], F(Validate)) == Some(VALIDATE_ERROR) && NumberIn(VALIDATE_ERROR) == ERROR_VERIFY
  {
  }

  lemma {:induction false} WinnerHits(rs: seq<Record>, f: Field)
    ensures LastHit(rs, f).Some? ==> LastHit(rs, f).value.sw == f.sw
  {
    if rs == [] {
    } else {
      WinnerHits(rs[..|rs| - 1], f);
      HitsItsField(rs[|rs| - 1], f);
    }
  }

  // ----- lists of one switch -----

  lemma PlainList(env: seq<Item>, all: seq<Record>, f: Field)
    requires !Final(all).stopped && IsPlain(f.sw) && CLEAR_AT < Rank(f.sw) < HANDLERS && HandlerAt(Rank(f.sw)) == All(f.sw)
    ensures ListOf(JobOf(env, all), f) == ListThrough(ListOf(Fresh(env), f), Reaching(all, f.sw, false), f)
  {
    HandlersClear();
    var k, h := HandlerOf(f.sw);
    PlainUnfed(0, k, f);
    PlainUnfed(k + 1, HANDLERS, f);
    var tr := TraceOf(Handlers(), Start(all));
    ListOfPlain(env, Handlers(), tr, CLEAR_AT, k, all, f);
  }

  lemma LateIsAll(sw: Switch)
    requires IsLate(sw)
    ensures HandlerAt(Rank(sw)) == All(sw)
  {
    var k, h := HandlerOf(sw);
  }

  lemma LateList(q: Request, f: Field)
    requires IsComplete(q) && IsLate(f.sw) && f.sw != Validate
    ensures ListOf(JobFor(q), f) == ListThrough(ListOf(Fresh(q.env), f), Surviving(Flat(Lists(q)), f.sw), f)
  {
    CompleteRuns(q);
    LateIsAll(f.sw);
    OptionsKeepOrder(q, f.sw);
    PlainList(q.env, AllOptions(q).records, f);
  }

  /** -hold_jid, -hold_jid_ad, -jid, -u and -jsv collect the items of all surviving records, in the order of the sources. */
  lemma ListPrecedence(q: Request, sw: Switch)
    requires IsComplete(q) && IsLate(sw) && EffectOf(sw) == AppendItems
    ensures ListOf(JobFor(q), F(sw)) == Contribution(Surviving(Flat(Lists(q)), sw), F(sw))
  {
    AppendedIsPlain(sw);
    LateList(q, F(sw));
    ListAppended([], Surviving(Flat(Lists(q)), sw), F(sw));
  }

  lemma AppendedIsPlain(sw: Switch)
    requires EffectOf(sw) == AppendItems
    ensures sw != Validate && sw != Env && IsAppended(F(sw))
  {
  }

  lemma ParallelRank()
    ensures IsLate(Parallel)
  {
  }

  /** The range of -pe is that of the last -pe that survives, like its name. */
  lemma RangePrecedence(q: Request)
    requires IsComplete(q)
    ensures var w := Winner(Lists(q), F(Parallel));
      ListOf(JobFor(q), F(Parallel)) == if w.None? then [] else w.value.value.items
  {
    ParallelRank();
    LateList(q, F(Parallel));
    WinnerIsLast(Lists(q), F(Parallel));
    RangeIsLast(Surviving(Flat(Lists(q)), Parallel));
  }

  lemma {:induction false} RangeIsLast(rs: seq<Record>)
    ensures var w := LastHit(rs, F(Parallel));
      ListThrough([], rs, F(Parallel)) == if w.None? then [] else w.value.value.items
  {
    if rs == [] {
    } else {
      RangeIsLast(rs[..|rs| - 1]);
      RangeNext(ListThrough([], rs[..|rs| - 1], F(Parallel)), rs[|rs| - 1]);
    }
  }

  lemma RangeNext(list: seq<Item>, r: Record)
    ensures ListNext(list, r, F(Parallel)) == if Hits(r, F(Parallel)) then r.value.items else list
  {
  }

  lemma EarlyRank(sw: Switch)
    requires IsEarly(sw)
    ensures IsPlain(sw) && Rank(sw) < CLEAR_AT && HandlerAt(Rank(sw)) == All(sw)
  {
  }

  lemma EarlyUsed(q: Request, sw: Switch)
    requires IsComplete(q) && IsEarly(sw)
    ensures Only(RecordsOf(Final(AllOptions(q).records).log), sw) == Only(Flat(Lists(q)), sw)
  {
    EarlyRank(sw);
    CompleteRuns(q);
    FinalLogs(AllOptions(q).records);
    OptionsKeepOrder(q, sw);
    var _, _ := Distributed(AllOptions(q).records, sw);
  }

  /** -sync, -b, -shell and -tc are taken before -clear: the last record wins, cleared or not. */
  lemma ClearIsTooLate(q: Request, sw: Switch)
    requires IsComplete(q) && IsEarly(sw)
    ensures var own := Only(Flat(Lists(q)), sw); var numbers := JobFor(q).numbers;
      if own == [] then F(sw) !in numbers else F(sw) in numbers && numbers[F(sw)] == NumberIn(own[|own| - 1])
  {
    var log := Final(AllOptions(q).records).log;
    EarlyUsed(q, sw);
    LastHitOnly(RecordsOf(log), F(sw));
    AllHit(Flat(Lists(q)), sw);
    NumberIsLast(q.env, log, F(sw));
  }

  lemma AllHit(s: seq<Record>, sw: Switch)
    requires IsEarly(sw)
    ensures LastHit(Only(s, sw), F(sw)) == LastOf(Only(s, sw)) && IsNumberField(F(sw))
  {
    forall k | 0 <= k < |Only(s, sw)|
      ensures Only(s, sw)[k].sw == sw
    {
      OnlyHas(s, sw, k);
    }
    LastHitIsLast(Only(s, sw), F(sw));
  }

  lemma OnceRank(sw: Switch)
    requires IsOnce(sw)
    ensures IsPlain(sw) && Rank(sw) < CLEAR_AT && HandlerAt(Rank(sw)) == First(sw)
  {
  }

  /**
   -t and the binding switches are taken once: the first record of the first source that has
   one is used, so the cluster defaults beat the command line. Of the others, those that
   survive -clear are reported as unknown.
   */
  lemma FirstSourceWins(q: Request, sw: Switch)
    requires IsComplete(q) && IsOnce(sw)
    ensures var all := AllOptions(q).records; var first := FirstIn(Lists(q), sw);
      && Only(Final(all).used, sw) == (if first.None? then [] else [first.value])
      && Only(UnknownOf(all), sw) == RestIfFirstSurvives(all, sw)
  {
    CompleteRuns(q);
    OnceRank(sw);
    OptionsKeepOrder(q, sw);
    var _, _ := Distributed(AllOptions(q).records, sw);
    FirstIsFirst(Lists(q), sw);
  }

  // ----- operands -----

  lemma {:induction false} LineHasNoOperand(argv: seq<string>, i: nat, fl: Flags, prog: Prog, parsers: Parsers)
    requires i <= |argv| && FilesHoldOptions(parsers)
    requires ParseFrom(argv, i, fl, Client(false, false, prog), parsers).Parsed?
    ensures HoldsNoOperand(ParseFrom(argv, i, fl, Client(false, false, prog), parsers).records)
    decreases |argv| - i
  {
    var cl := Client(false, false, prog);
    if i == |argv| {
    } else {
      var j, fl', g, more := ParseUnfolds(argv, i, fl, cl, parsers);
      LineHasNoOperand(argv, j, fl', prog, parsers);
      if Lookup(argv[i], cl).Some? {
        OptionHasNoOperand(argv, i, fl, cl, parsers);
      } else {
        WordIsNoOperand(argv, i, fl, prog, parsers);
      }
      NoOperandConcat(g, more);
    }
  }

  lemma WordIsNoOperand(argv: seq<string>, i: nat, fl: Flags, prog: Prog, parsers: Parsers)
    requires i < |argv| && Lookup(argv[i], Client(false, false, prog)).None?
    requires Group(argv, i, fl, Client(false, false, prog), parsers).Parsed?
    ensures HoldsNoOperand(Group(argv, i, fl, Client(false, false, prog), parsers).records)
  {
  }

  lemma NoOperandConcat(a: seq<Record>, b: seq<Record>)
    requires HoldsNoOperand(a) && HoldsNoOperand(b)
    ensures HoldsNoOperand(a + b)
  {
    OnlyConcat(a, b, JobArg);
    OnlyConcat(a, b, Script);
  }

  lemma HoldIsNoOperand(cl: Client, seen: bool)
    ensures HoldsNoOperand(DefaultHold(cl, seen))
  {
  }

  lemma ParseHasNoOperand(argv: seq<string>, prog: Prog, parsers: Parsers)
    requires FilesHoldOptions(parsers) && Parse(argv, Client(false, false, prog), parsers).Parsed?
    ensures HoldsNoOperand(Parse(argv, Client(false, false, prog), parsers).records)
  {
    var cl := Client(false, false, prog);
    LineHasNoOperand(argv, 0, INITIAL, prog, parsers);
    HoldIsNoOperand(cl, SeesHold(argv, 0, cl));
    NoOperandConcat(ParseFrom(argv, 0, INITIAL, cl, parsers).records, DefaultHold(cl, SeesHold(argv, 0, cl)));
  }

  lemma {:induction false} LinesHaveNoOperand(lines: seq<string>, prefix: string, rd: Reader)
    requires FilesHoldOptions(rd.parsers) && Gathered(lines, prefix, rd).Parsed?
    ensures HoldsNoOperand(Gathered(lines, prefix, rd).records)
  {
    if lines == [] {
    } else {
      LinesHaveNoOperand(lines[1..], prefix, rd);
      var d := Directive(lines[0], prefix);
      if d.Some? && d.value != [] {
        ParseHasNoOperand(rd.words(d.value), rd.prog, rd.parsers);
      }
      NoOperandConcat(LineRecords(lines[0], prefix, rd).records, Gathered(lines[1..], prefix, rd).records);
    }
  }

  lemma TextHasNoOperand(text: string, prefix: string, rd: Reader)
    requires FilesHoldOptions(rd.parsers) && TextRecords(text, prefix, rd).Parsed?
    ensures HoldsNoOperand(TextRecords(text, prefix, rd).records)
  {
    LinesHaveNoOperand(Lines(text, 0), prefix, rd);
    OnlyWithout(Gathered(Lines(text, 0), prefix, rd).records, JobArg, Prefix);
    OnlyWithout(Gathered(Lines(text, 0), prefix, rd).records, Script, Prefix);
  }

  lemma FileHasNoOperand(files: seq<DefaultsFile>, k: nat, rd: Reader)
    requires k < |files| && FilesHoldOptions(rd.parsers) && FileRecords(files, k, rd).Parsed?
    ensures HoldsNoOperand(FileRecords(files, k, rd).records)
  {
    var f := files[k].input;
    if f.Holds? && TextRecords(f.text, "", rd).Parsed? {
      TextHasNoOperand(f.text, "", rd);
    }
  }

  lemma {:induction false} DefaultsHaveNoOperand(files: seq<DefaultsFile>, k: nat, rd: Reader)
    requires k <= |files| && FilesHoldOptions(rd.parsers) && DefaultsFrom(files, k, rd).Parsed?
    ensures HoldsNoOperand(DefaultsFrom(files, k, rd).records)
    decreases |files| - k
  {
    if k == |files| {
    } else {
      FileHasNoOperand(files, k, rd);
      DefaultsHaveNoOperand(files, k + 1, rd);
      NoOperandConcat(FileRecords(files, k, rd).records, DefaultsFrom(files, k + 1, rd).records);
    }
  }

  lemma PseudosHaveNoOperand(text: string)
    ensures HoldsNoOperand(ScriptPseudos(text))
  {
    NoneOf(ScriptPseudos(text), JobArg);
    NoneOf(ScriptPseudos(text), Script);
  }

  lemma ScriptHasNoOperand(cmd: seq<Record>, input: Input, rd: Reader)
    requires FilesHoldOptions(rd.parsers) && ScriptRecords(cmd, input, rd).Parsed?
    ensures HoldsNoOperand(ScriptRecords(cmd, input, rd).records)
  {
    var prefix := DirectivePrefix(cmd);
    PseudosHaveNoOperand(input.text);
    if prefix.Some? {
      TextHasNoOperand(input.text, prefix.value, rd);
      NoOperandConcat(TextRecords(input.text, prefix.value, rd).records, ScriptPseudos(input.text));
    } else {
      assert [] + ScriptPseudos(input.text) == ScriptPseudos(input.text);
    }
  }

  /** Only the command line brings operands. */
  lemma OperandsComeFromTheCommandLine(q: Request)
    requires AllOptions(q).Parsed? && FilesHoldOptions(q.rd.parsers)
    ensures Only(AllOptions(q).records, JobArg) == Only(Cmdline(q).records, JobArg)
    ensures Only(AllOptions(q).records, Script) == Only(Cmdline(q).records, Script)
  {
    var _, defaults, script, cmd := PartsAreFlat(q);
    DefaultsHaveNoOperand(q.files, 0, q.rd);
    if !SkipsScript(cmd, defaults) {
      ScriptHasNoOperand(cmd, q.input, q.rd);
    }
    NoOperandConcat(defaults, script);
    OptionsKeepOrder(q, JobArg);
    OptionsKeepOrder(q, Script);
    OnlyConcat(defaults + script, cmd, JobArg);
    OnlyConcat(defaults + script, cmd, Script);
  }

  /** The job arguments that words stand for. */
  function Arguments(words: seq<string>): seq<Item> {
    if words == [] then [] else [Named(words[0])] + Arguments(words[1..])
  }

  lemma {:induction false} ContributionOfJobArgs(words: seq<string>)
    ensures Contribution(JobArgs(words), F(JobArg)) == Arguments(words)
  {
    if words == [] {
    } else {
      ContributionOfJobArgs(words[1..]);
      ContributionConcat([TextRecord(JobArg, words[0])], JobArgs(words[1..]), F(JobArg));
      OneJobArg(words[0]);
    }
  }

  lemma OneJobArg(word: string)
    ensures Contribution([TextRecord(JobArg, word)], F(JobArg)) == [Named(word)]
  {
    var r := TextRecord(JobArg, word);
    assert Contribution([r][..0], F(JobArg)) == [];
    assert Added(r, F(JobArg)) == [Named(word)];
  }

  lemma CmdlineOperands(q: Request) returns (k: nat)
    requires Cmdline(q).Parsed? && FilesHoldOptions(q.rd.parsers)
    ensures k == OperandAt(q.argv, 0, Client(true, false, q.rd.prog)) && k <= |q.argv|
    ensures OperandsAre(Cmdline(q).records, WordsBehind(q.argv, k), ScriptAt(q.argv, k))
  {
    var cl := Client(true, false, q.rd.prog);
    k := OperandAt(q.argv, 0, cl);
    OperandsAreVerbatim(q.argv, 0, INITIAL, cl, q.rd.parsers);
    var rs, hold := ParseFrom(q.argv, 0, INITIAL, cl, q.rd.parsers).records, DefaultHold(cl, SeesHold(q.argv, 0, cl));
    HoldIsNoOperand(cl, SeesHold(q.argv, 0, cl));
    OnlyConcat(rs, hold, JobArg);
    OnlyConcat(rs, hold, Script);
  }

  lemma JobArgRank()
    ensures IsPlain(JobArg) && CLEAR_AT < Rank(JobArg) < HANDLERS && HandlerAt(Rank(JobArg)) == All(JobArg)
  {
  }

  lemma ScriptRank()
    ensures IsPlain(Script) && CLEAR_AT < Rank(Script) < HANDLERS && HandlerAt(Rank(Script)) == First(Script)
  {
  }

  lemma ScriptUsed(all: seq<Record>)
    requires !Final(all).stopped
    ensures Only(RecordsOf(Final(all).log), Script) == FirstOf(Only(all, Script))
  {
    ScriptRank();
    FinalLogs(all);
    var _, _ := Distributed(all, Script);
  }

  lemma ArgumentField(env: seq<Item>, all: seq<Record>, words: seq<string>)
    requires !Final(all).stopped && Only(all, JobArg) == JobArgs(words)
    ensures ListOf(JobOf(env, all), F(JobArg)) == Arguments(words)
  {
    JobArgRank();
    PlainList(env, all, F(JobArg));
    assert ListOf(Fresh(env), F(JobArg)) == [] && Reaching(all, JobArg, false) == JobArgs(words);
    ArgumentsThrough(words);
  }

  lemma ArgumentsThrough(words: seq<string>)
    ensures ListThrough([], JobArgs(words), F(JobArg)) == Arguments(words)
  {
    ListAppended([], JobArgs(words), F(JobArg));
    ContributionOfJobArgs(words);
  }

  lemma TextFrom(env: seq<Item>, log: seq<Deed>, f: Field, own: seq<Record>)
    requires IsTextField(f) && Only(RecordsOf(log), f.sw) == own
    ensures var w := LastHit(own, f); TextOf(Fold(Fresh(env), log), f) == if w.None? then None else TextIn(w.value)
  {
    LastHitOnly(RecordsOf(log), f);
    TextIsLast(env, log, f);
  }

  lemma ScriptField(env: seq<Item>, all: seq<Record>, script: seq<Record>)
    requires !Final(all).stopped && Only(all, Script) == script && |script| <= 1
    ensures TextOf(JobOf(env, all), F(Script)) == if script == [] then None else script[0].value.text
  {
    ScriptUsed(all);
    OneScript(all, script);
    TextFrom(env, Final(all).log, F(Script), FirstOf(script));
  }

  lemma OneScript(all: seq<Record>, script: seq<Record>)
    requires Only(all, Script) == script && |script| <= 1
    ensures LastHit(FirstOf(script), F(Script)) == if script == [] then None else Some(script[0])
    ensures IsTextField(F(Script)) && (script != [] ==> TextIn(script[0]) == script[0].value.text)
  {
    if script == [] {
    } else {
      OnlyHas(all, Script, 0);
      LastHitIsLast(script, F(Script));
    }
  }

  /**
   The arguments of the job are the words behind the script (or behind --), verbatim and in
   order, whatever they look like, whatever the other sources hold and however often -clear
   is given; the job's script is the operand itself.
   */
  lemma ArgumentsReachTheJob(q: Request)
    requires IsComplete(q) && FilesHoldOptions(q.rd.parsers)
    ensures var k := OperandAt(q.argv, 0, Client(true, false, q.rd.prog));
      && ListOf(JobFor(q), F(JobArg)) == Arguments(WordsBehind(q.argv, k))
      && TextOf(JobFor(q), F(Script)) == (if k == |q.argv| || q.argv[k] == "--" then None else Some(q.argv[k]))
  {
    var _, _, _, _ := Parts(q);
    var k := CmdlineOperands(q);
    CompleteRuns(q);
    OperandsComeFromTheCommandLine(q);
    ArgumentField(q.env, AllOptions(q).records, WordsBehind(q.argv, k));
    ScriptField(q.env, AllOptions(q).records, ScriptAt(q.argv, k));
  }
}
