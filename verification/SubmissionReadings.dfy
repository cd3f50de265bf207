/**
 End to end: the two options that are read twice, once for the scan of the script and once for
 the job.
 */
module SubmissionReadings {
  import opened Options
  import opened Items
  import opened CommandLine
  import opened CommandLineProperties
  import opened ScriptOptions
  import opened Sources
  import opened JobFields
  import opened Submission
  import opened SubmissionProperties

  // ----- -b -----

  predicate IsYes(r: Option<Record>) {
    r.Some? && r.value.value.number == 1
  }

  function FirstRecord(s: seq<Record>): Option<Record> {
    if s == [] then None else Some(s[0])
  }

  lemma IsTrueFirst(s: seq<Record>, sw: Switch)
    ensures var own := Only(s, sw); (Has(s, sw) <==> own != []) && (IsTrue(s, sw) <==> IsYes(FirstRecord(own)))
  {
    NoneLeft(s, sw);
    if Has(s, sw) {
      TakeFirst(s, sw);
    }
  }

  lemma BinaryNumber(own: seq<Record>, job: Job)
    requires forall k | 0 <= k < |own| :: own[k].sw == Binary
    requires if own == [] then F(Binary) !in job.numbers
      else F(Binary) in job.numbers && job.numbers[F(Binary)] == NumberIn(own[|own| - 1])
    ensures IsBinary(job) <==> IsYes(LastOf(own))
  {
  }

  lemma OwnBinaries(s: seq<Record>) returns (own: seq<Record>)
    ensures own == Only(s, Binary) && forall k | 0 <= k < |own| :: own[k].sw == Binary
  {
    own := Only(s, Binary);
    forall k | 0 <= k < |own|
      ensures own[k].sw == Binary
    {
      OnlyHas(s, Binary, k);
    }
  }

  lemma BinaryOfJob(q: Request) returns (own: seq<Record>, job: Job)
    requires IsComplete(q)
    ensures own == Only(Flat(Lists(q)), Binary) && job == JobFor(q)
    ensures if own == [] then F(Binary) !in job.numbers
      else F(Binary) in job.numbers && job.numbers[F(Binary)] == NumberIn(own[|own| - 1])
  {
    own, job := Only(Flat(Lists(q)), Binary), JobFor(q);
    ClearIsTooLate(q, Binary);
  }

  lemma JobTakesLast(q: Request)
    requires IsComplete(q)
    ensures IsBinary(JobFor(q)) <==> IsYes(LastOf(Only(Flat(Lists(q)), Binary)))
  {
    var own, job := BinaryOfJob(q);
    own := OwnBinaries(Flat(Lists(q)));
    BinaryNumber(own, job);
  }

  lemma VerdictIs(env: seq<Item>, all: seq<Record>, job: Job)
    requires !Final(all).stopped && UnknownOf(all) == [] && job == JobOf(env, all)
    ensures Verdict(env, all) == Refused(CommandRequired) <==> LacksCommand(job)
  {
  }

  /**
   A submission that has no unknown options fails for want of a command exactly when the last
   -b of all sources says yes and no script is named in the argument vector.
   */
  lemma BinaryNeedsCommand(q: Request)
    requires IsComplete(q) && FilesHoldOptions(q.rd.parsers) && UnknownOf(AllOptions(q).records) == []
    ensures var k := OperandAt(q.argv, 0, Client(true, false, q.rd.prog));
      Verdict(q.env, AllOptions(q).records) == Refused(CommandRequired) <==>
        && IsYes(LastOf(Only(Flat(Lists(q)), Binary)))
        && (k == |q.argv| || q.argv[k] == "--" || q.argv[k] == "-")
  {
    CompleteRuns(q);
    VerdictIs(q.env, AllOptions(q).records, JobFor(q));
    JobTakesLast(q);
    ArgumentsReachTheJob(q);
  }

  /**
   When the scan and the job agree, source by source: with a -b on the command line its first
   and its last must say the same. Without one, a first -b y in the defaults must not be taken
   back by a later one there; and if the script is scanned, the last -b of defaults and script
   must not be y.
   */
  predicate BinariesAgree(defaults: seq<Record>, script: seq<Record>, cmd: seq<Record>) {
    var ds, ss, cs := Only(defaults, Binary), Only(script, Binary), Only(cmd, Binary);
    if cs != [] then IsYes(FirstRecord(cs)) == IsYes(LastOf(cs))
    else if IsYes(FirstRecord(ds)) then IsYes(LastOf(ds))
    else !IsYes(LastOf(ds + ss))
  }

  lemma FlatBinaries(defaults: seq<Record>, script: seq<Record>, cmd: seq<Record>)
    ensures var ds, ss, cs := Only(defaults, Binary), Only(script, Binary), Only(cmd, Binary);
      LastOf(Only(defaults + script + cmd, Binary)) == if cs != [] then LastOf(cs) else LastOf(ds + ss)
  {
    OnlyConcat(defaults + script, cmd, Binary);
    OnlyConcat(defaults, script, Binary);
    var front, cs := Only(defaults + script, Binary), Only(cmd, Binary);
    if cs == [] {
      assert front + cs == front;
    }
  }

  lemma SkipIs(defaults: seq<Record>, cmd: seq<Record>)
    ensures var ds, cs := Only(defaults, Binary), Only(cmd, Binary);
      SkipsScript(cmd, defaults) <==> if cs != [] then IsYes(FirstRecord(cs)) else IsYes(FirstRecord(ds))
  {
    IsTrueFirst(cmd, Binary);
    IsTrueFirst(defaults, Binary);
  }

  /**
   The script is to be scanned unless the job is binary. The scan asks the first -b of the
   command line or, without one, of the defaults; the job gets the last -b of all sources,
   the scanned script included.
   */
  lemma ScanAgreesWithJob(q: Request)
    requires IsComplete(q)
    ensures Defaults(q).Parsed? && Cmdline(q).Parsed? && Embedded(q, Cmdline(q).records, Defaults(q).records).Parsed?
    ensures var cmd, defaults := Cmdline(q).records, Defaults(q).records;
      (SkipsScript(cmd, defaults) <==> IsBinary(JobFor(q)))
      <==> BinariesAgree(defaults, Embedded(q, cmd, defaults).records, cmd)
  {
    var _, defaults, script, cmd := PartsAreFlat(q);
    JobTakesLast(q);
    FlatBinaries(defaults, script, cmd);
    SkipIs(defaults, cmd);
    if SkipsScript(cmd, defaults) {
      assert script == [] && Only(defaults, Binary) + Only(script, Binary) == Only(defaults, Binary);
    }
  }

  // ----- -C -----

  lemma NoPrefixInText(text: string, prefix: string, rd: Reader)
    requires TextRecords(text, prefix, rd).Parsed?
    ensures Only(TextRecords(text, prefix, rd).records, Prefix) == []
  {
    NoneLeft(Gathered(Lines(text, 0), prefix, rd).records, Prefix);
  }

  lemma NoPrefixInFile(files: seq<DefaultsFile>, k: nat, rd: Reader)
    requires k < |files| && FileRecords(files, k, rd).Parsed?
    ensures Only(FileRecords(files, k, rd).records, Prefix) == []
  {
    var f := files[k].input;
    if f.Holds? && TextRecords(f.text, "", rd).Parsed? {
      NoPrefixInText(f.text, "", rd);
    }
  }

  lemma {:induction false} NoPrefixInDefaults(files: seq<DefaultsFile>, k: nat, rd: Reader)
    requires k <= |files| && DefaultsFrom(files, k, rd).Parsed?
    ensures Only(DefaultsFrom(files, k, rd).records, Prefix) == []
    decreases |files| - k
  {
    if k == |files| {
    } else {
      var own, more := DefaultsUnfold(files, k, rd);
      NoPrefixInDefaults(files, k + 1, rd);
      NoPrefixInFile(files, k, rd);
      OnlyConcat(own, more, Prefix);
    }
  }

  lemma NoPrefixInPseudos(text: string)
    ensures Only(ScriptPseudos(text), Prefix) == []
  {
    NoneOf(ScriptPseudos(text), Prefix);
  }

  lemma NoPrefixInScript(cmd: seq<Record>, input: Input, rd: Reader)
    requires ScriptRecords(cmd, input, rd).Parsed?
    ensures Only(ScriptRecords(cmd, input, rd).records, Prefix) == []
  {
    var prefix := DirectivePrefix(cmd);
    NoPrefixInPseudos(input.text);
    if prefix.Some? {
      NoPrefixInText(input.text, prefix.value, rd);
      OnlyConcat(TextRecords(input.text, prefix.value, rd).records, ScriptPseudos(input.text), Prefix);
    } else {
      assert [] + ScriptPseudos(input.text) == ScriptPseudos(input.text);
    }
  }

  /** Only the command line brings a -C. */
  lemma PrefixesOfCommandLine(q: Request)
    requires AllOptions(q).Parsed?
    ensures Cmdline(q).Parsed? && Surviving(Flat(Lists(q)), Prefix) == Surviving(Cmdline(q).records, Prefix)
  {
    var _, defaults, script, cmd := PartsAreFlat(q);
    NoPrefixInDefaults(q.files, 0, q.rd);
    if !SkipsScript(cmd, defaults) {
      NoPrefixInScript(cmd, q.input, q.rd);
    }
    OnlyConcat(defaults, script, Prefix);
    SurvivingEmpty(defaults + script, Prefix);
    SurvivingConcat(defaults + script, cmd, Prefix);
  }

  function TextOfRecord(r: Option<Record>): Option<string> {
    if r.None? then None else r.value.value.text
  }

  lemma FirstPrefix(cmd: seq<Record>)
    ensures var own := Only(cmd, Prefix);
      DirectivePrefix(cmd) == if own == [] then Some(DEFAULT_PREFIX) else own[0].value.text
  {
    NoneLeft(cmd, Prefix);
    if Find(cmd, Prefix) < |cmd| {
      TakeFirst(cmd, Prefix);
    }
  }

  lemma PrefixRank()
    ensures IsLate(Prefix) && IsTextField(F(Prefix))
  {
  }

  lemma PrefixHit(s: seq<Record>)
    ensures var own := Surviving(s, Prefix); var w := LastHit(own, F(Prefix));
      w == LastOf(own) && (w.Some? ==> TextIn(w.value) == w.value.value.text)
  {
    var own := Surviving(s, Prefix);
    forall k | 0 <= k < |own|
      ensures own[k].sw == Prefix
    {
      SurvivingHas(s, Prefix, k);
    }
    LastHitIsLast(own, F(Prefix));
  }

  /** The job records the last -C of the command line that survives. */
  lemma JobRecordsLastPrefix(q: Request)
    requires IsComplete(q)
    ensures Cmdline(q).Parsed?
    ensures TextOf(JobFor(q), F(Prefix)) == TextOfRecord(LastOf(Surviving(Cmdline(q).records, Prefix)))
  {
    PrefixRank();
    TextPrecedence(q, F(Prefix));
    WinnerIsLast(Lists(q), F(Prefix));
    PrefixesOfCommandLine(q);
    PrefixHit(Flat(Lists(q)));
  }

  /**
   A repeated -C is announced as overwriting the earlier one. The script is scanned under the
   prefix that the job records if and only if the first -C of the command line and its last
   that survives have the same text.
   */
  lemma PrefixesAgree(q: Request)
    requires IsComplete(q) && Cmdline(q).Parsed? && Only(Cmdline(q).records, Prefix) != []
    ensures var cmd := Cmdline(q).records; var first, last := Only(cmd, Prefix)[0], LastOf(Surviving(cmd, Prefix));
      DirectivePrefix(cmd) == TextOf(JobFor(q), F(Prefix)) <==> first.value.text == TextOfRecord(last)
  {
    FirstPrefix(Cmdline(q).records);
    JobRecordsLastPrefix(q);
  }
}
