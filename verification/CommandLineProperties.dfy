/**
 What the argument vector decides: every record depends on the words of its own group and on
 the last -hard, -soft and -scope at an option position before it; job arguments are verbatim.
 */
module CommandLineProperties {
  import opened Options
  import opened CommandLine

  // ----- option positions -----

  /** The indices at which a group starts. */
  function Positions(argv: seq<string>, i: nat, cl: Client): (ps: seq<nat>)
    requires i <= |argv|
    ensures forall k | 0 <= k < |ps| :: i <= ps[k] < |argv|
    ensures i < |argv| ==> ps != [] && ps[0] == i
    decreases |argv| - i
  {
    if i == |argv| then [] else [i] + Positions(argv, Next(argv, i, cl), cl)
  }

  predicate ArePositions(argv: seq<string>, ps: seq<nat>) {
    forall k | 0 <= k < |ps| :: ps[k] < |argv|
  }

  function SwitchAt(argv: seq<string>, i: nat, cl: Client): Option<Switch>
    requires i < |argv|
  {
    match Lookup(argv[i], cl)
    case Some(e) => Some(e.sw)
    case None => None
  }

  /** What the group at a position sets, if it is a -hard, -soft or -scope. */
  datatype Setting = Setting(strength: Option<int>, scope: Option<Scope>)

  function SettingAt(argv: seq<string>, p: nat, cl: Client): Setting
    requires p < |argv|
  {
    match SwitchAt(argv, p, cl)
    case Some(Hard) => Setting(Some(1), None)
    case Some(Soft) => Setting(Some(2), None)
    case Some(ScopeWord) => Setting(None, if p + 1 < |argv| then ParseScope(argv[p + 1]) else None)
    case _ => Setting(None, None)
  }

  function Settings(argv: seq<string>, ps: seq<nat>, cl: Client): (s: seq<Setting>)
    requires ArePositions(argv, ps)
    ensures |s| == |ps| && forall k | 0 <= k < |ps| :: s[k] == SettingAt(argv, ps[k], cl)
  {
    if ps == [] then []
    else
      var n := |ps| - 1;
      Settings(argv, ps[..n], cl) + [SettingAt(argv, ps[n], cl)]
  }

  /** Looking back from the `k`-th group: the last -hard or -soft decides. */
  function LastStrength(s: seq<Setting>, k: nat): int
    requires k <= |s|
  {
    if k == 0 then 0
    else if s[k - 1].strength.Some? then s[k - 1].strength.value
    else LastStrength(s, k - 1)
  }

  /** Looking back from the `k`-th group: the last -scope decides. */
  function LastScope(s: seq<Setting>, k: nat): Scope
    requires k <= |s|
  {
    if k == 0 then Global
    else if s[k - 1].scope.Some? then s[k - 1].scope.value
    else LastScope(s, k - 1)
  }

  function FlagsAt(argv: seq<string>, ps: seq<nat>, k: nat, cl: Client): Flags
    requires k <= |ps| && ArePositions(argv, ps)
  {
    var s := Settings(argv, ps, cl);
    Flags(LastStrength(s, k), LastScope(s, k))
  }

  /** The records of the `k`-th group, from its own words and the flags found by looking back. */
  function GroupAt(argv: seq<string>, ps: seq<nat>, k: nat, cl: Client, parsers: Parsers): Outcome
    requires k < |ps| && ArePositions(argv, ps)
  {
    Group(argv, ps[k], FlagsAt(argv, ps, k, cl), cl, parsers)
  }

  /** The groups from the `k`-th on, each on its own. */
  function Collected(argv: seq<string>, ps: seq<nat>, k: nat, cl: Client, parsers: Parsers): seq<Record>
    requires k <= |ps| && ArePositions(argv, ps)
    decreases |ps| - k
  {
    if k == |ps| then []
    else
      var g := GroupAt(argv, ps, k, cl, parsers);
      (if g.Parsed? then g.records else []) + Collected(argv, ps, k + 1, cl, parsers)
  }

  lemma {:induction false} PositionsNext(argv: seq<string>, i: nat, cl: Client, k: nat)
    requires i <= |argv| && k < |Positions(argv, i, cl)|
    ensures var ps := Positions(argv, i, cl);
      ps[k..] == Positions(argv, ps[k], cl)
    decreases k
  {
    var ps := Positions(argv, i, cl);
    if k == 0 {
    } else {
      PositionsNext(argv, Next(argv, i, cl), cl, k - 1);
      assert ps[1..] == Positions(argv, Next(argv, i, cl), cl);
      assert ps[k..] == ps[1..][k - 1..];
    }
  }

  lemma NextPosition(argv: seq<string>, cl: Client, k: nat)
    requires k < |Positions(argv, 0, cl)|
    ensures var ps := Positions(argv, 0, cl); var j := Next(argv, ps[k], cl);
      if k + 1 < |ps| then j == ps[k + 1] && j < |argv| else j == |argv|
  {
    var ps := Positions(argv, 0, cl);
    PositionsNext(argv, 0, cl, k);
    assert ps[k..][1..] == Positions(argv, Next(argv, ps[k], cl), cl);
    if k + 1 < |ps| {
      assert ps[k..][1] == ps[k + 1];
    }
  }

  lemma FlagsFollow(argv: seq<string>, p: nat, fl: Flags, cl: Client)
    requires p < |argv|
    ensures var x := SettingAt(argv, p, cl);
      FlagsBehind(argv, p, fl, cl) == Flags(if x.strength.Some? then x.strength.value else fl.hardSoft,
                                            if x.scope.Some? then x.scope.value else fl.scope)
  {
  }

  lemma FlagsAgree(argv: seq<string>, ps: seq<nat>, k: nat, cl: Client)
    requires k < |ps| && ArePositions(argv, ps)
    ensures FlagsBehind(argv, ps[k], FlagsAt(argv, ps, k, cl), cl) == FlagsAt(argv, ps, k + 1, cl)
  {
    FlagsFollow(argv, ps[k], FlagsAt(argv, ps, k, cl), cl);
  }

  /** Where the `k`-th group starts; behind the last group, the end. */
  function StartOf(argv: seq<string>, ps: seq<nat>, k: nat): (i: nat)
    requires k <= |ps| && ArePositions(argv, ps)
    ensures i <= |argv|
  {
    if k == |ps| then |argv| else ps[k]
  }

  function ParseAt(argv: seq<string>, ps: seq<nat>, k: nat, cl: Client, parsers: Parsers): Outcome
    requires k <= |ps| && ArePositions(argv, ps)
  {
    ParseFrom(argv, StartOf(argv, ps, k), FlagsAt(argv, ps, k, cl), cl, parsers)
  }

  lemma ParseStep(argv: seq<string>, k: nat, cl: Client, parsers: Parsers)
    requires k < |Positions(argv, 0, cl)|
    ensures var ps := Positions(argv, 0, cl);
      var g, rest := GroupAt(argv, ps, k, cl, parsers), ParseAt(argv, ps, k + 1, cl, parsers);
      ParseAt(argv, ps, k, cl, parsers)
      == if g.Failed? then g else if rest.Failed? then rest else Parsed(g.records + rest.records)
  {
    var ps := Positions(argv, 0, cl);
    NextPosition(argv, cl, k);
    FlagsAgree(argv, ps, k, cl);
    assert ParseAt(argv, ps, k, cl, parsers) == ParseNext(argv, ps[k], FlagsAt(argv, ps, k, cl), cl, parsers);
  }

  ghost predicate AllAccepted(argv: seq<string>, ps: seq<nat>, k: nat, cl: Client, parsers: Parsers)
    requires ArePositions(argv, ps)
  {
    forall x | k <= x < |ps| :: GroupAt(argv, ps, x, cl, parsers).Parsed?
  }

  ghost predicate IsCollected(argv: seq<string>, ps: seq<nat>, k: nat, cl: Client, parsers: Parsers, r: Outcome)
    requires k <= |ps| && ArePositions(argv, ps)
  {
    && (r.Parsed? ==> r.records == Collected(argv, ps, k, cl, parsers))
    && (r.Parsed? <==> AllAccepted(argv, ps, k, cl, parsers))
  }

  lemma CollectedStep(argv: seq<string>, ps: seq<nat>, k: nat, cl: Client, parsers: Parsers, rest: Outcome)
    requires k < |ps| && ArePositions(argv, ps) && IsCollected(argv, ps, k + 1, cl, parsers, rest)
    ensures var g := GroupAt(argv, ps, k, cl, parsers);
      IsCollected(argv, ps, k, cl, parsers,
        if g.Failed? then g else if rest.Failed? then rest else Parsed(g.records + rest.records))
  {
    assert AllAccepted(argv, ps, k, cl, parsers)
      <==> GroupAt(argv, ps, k, cl, parsers).Parsed? && AllAccepted(argv, ps, k + 1, cl, parsers);
  }

  lemma {:induction false} ParseIsCollected(argv: seq<string>, k: nat, cl: Client, parsers: Parsers)
    requires k <= |Positions(argv, 0, cl)|
    ensures var ps := Positions(argv, 0, cl);
      IsCollected(argv, ps, k, cl, parsers, ParseAt(argv, ps, k, cl, parsers))
    decreases |Positions(argv, 0, cl)| - k
  {
    var ps := Positions(argv, 0, cl);
    if k == |ps| {
      assert ParseAt(argv, ps, k, cl, parsers) == Parsed([]);
    } else {
      ParseIsCollected(argv, k + 1, cl, parsers);
      ParseStep(argv, k, cl, parsers);
      CollectedStep(argv, ps, k, cl, parsers, ParseAt(argv, ps, k + 1, cl, parsers));
    }
  }

  /**
   The whole vector is accepted exactly when each group is, and the records are those of the
   groups in order. A -hard, -soft or -scope that is the argument of another option starts no
   group, so it changes nothing.
   */
  lemma EachGroupDecidesItsRecords(argv: seq<string>, cl: Client, parsers: Parsers)
    ensures IsCollected(argv, Positions(argv, 0, cl), 0, cl, parsers, ParseFrom(argv, 0, INITIAL, cl, parsers))
  {
    ParseIsCollected(argv, 0, cl, parsers);
  }

  lemma RequestGroup(argv: seq<string>, i: nat, fl: Flags, cl: Client, parsers: Parsers, sw: Switch)
    requires i < |argv| && Lookup(argv[i], cl) == Some(Entry(sw, 1)) && (sw == Resource || sw == Queue)
    requires Group(argv, i, fl, cl, parsers).Parsed?
    ensures i + 1 < |argv| && parsers.value(sw, argv[i + 1]).Some?
    ensures Group(argv, i, fl, cl, parsers).records
      == [Record(sw, Some(argv[i + 1]), parsers.value(sw, argv[i + 1]).value, fl.hardSoft, fl.scope)]
  {
    assert argv[i + 1..i + 1 + 1] == [argv[i + 1]];
  }

  function RequestSwitch(word: string): Option<Switch> {
    if word == "-l" then Some(Resource) else if word == "-q" then Some(Queue) else None
  }

  lemma RequestWords(word: string, cl: Client)
    requires RequestSwitch(word).Some?
    ensures Lookup(word, cl) == Some(Entry(RequestSwitch(word).value, 1))
  {
  }

  /** A request carries the strength and the scope found by looking back from its own position. */
  lemma RequestCarriesFlags(argv: seq<string>, k: nat, cl: Client, parsers: Parsers)
    requires var ps := Positions(argv, 0, cl);
      k < |ps| && GroupAt(argv, ps, k, cl, parsers).Parsed? && RequestSwitch(argv[ps[k]]).Some?
    ensures var ps := Positions(argv, 0, cl); var rs := GroupAt(argv, ps, k, cl, parsers).records;
      && |rs| == 1 && Some(rs[0].sw) == RequestSwitch(argv[ps[k]])
      && ps[k] + 1 < |argv| && rs[0].arg == Some(argv[ps[k] + 1])
      && rs[0].hardSoft == LastStrength(Settings(argv, ps, cl), k)
      && rs[0].scope == LastScope(Settings(argv, ps, cl), k)
  {
    var p := Positions(argv, 0, cl)[k];
    RequestWords(argv[p], cl);
    RequestGroup(argv, p, FlagsAt(argv, Positions(argv, 0, cl), k, cl), cl, parsers, RequestSwitch(argv[p]).value);
  }

  /** No option position, and not the argument of a -scope at one. */
  predicate IsInert(argv: seq<string>, x: nat, ps: seq<nat>, cl: Client)
    requires x < |argv| && ArePositions(argv, ps)
  {
    forall k | 0 <= k < |ps| :: ps[k] != x && (ps[k] + 1 == x ==> SwitchAt(argv, ps[k], cl) != Some(ScopeWord))
  }

  lemma SameNext(argv: seq<string>, x: nat, w: string, i: nat, cl: Client)
    requires i < |argv| && x < |argv| && i != x
    ensures Next(argv[x := w], i, cl) == Next(argv, i, cl)
  {
  }

  lemma {:induction false} SamePositions(argv: seq<string>, x: nat, w: string, i: nat, cl: Client)
    requires i <= |argv| && x < |argv| && x !in Positions(argv, i, cl)
    ensures Positions(argv[x := w], i, cl) == Positions(argv, i, cl)
    decreases |argv| - i
  {
    if i == |argv| {
    } else {
      assert Positions(argv, i, cl)[0] == i;
      SameNext(argv, x, w, i, cl);
      SamePositions(argv, x, w, Next(argv, i, cl), cl);
    }
  }

  lemma SameSwitch(argv: seq<string>, x: nat, w: string, p: nat, cl: Client)
    requires x < |argv| && p < |argv| && p != x
    ensures SwitchAt(argv[x := w], p, cl) == SwitchAt(argv, p, cl)
  {
  }

  lemma SameSetting(argv: seq<string>, x: nat, w: string, p: nat, cl: Client)
    requires x < |argv| && p < |argv| && p != x
    requires p + 1 == x ==> SwitchAt(argv, p, cl) != Some(ScopeWord)
    ensures SettingAt(argv[x := w], p, cl) == SettingAt(argv, p, cl)
  {
    SameSwitch(argv, x, w, p, cl);
  }

  /**
   Writing any other word, be it -hard, -soft or -scope, in the place of an option's argument
   moves no option position and changes the flags of no group.
   */
  lemma ArgumentsAreInert(argv: seq<string>, x: nat, w: string, cl: Client)
    requires x < |argv| && IsInert(argv, x, Positions(argv, 0, cl), cl)
    ensures var ps := Positions(argv, 0, cl);
      Positions(argv[x := w], 0, cl) == ps && Settings(argv[x := w], ps, cl) == Settings(argv, ps, cl)
  {
    var ps := Positions(argv, 0, cl);
    SamePositions(argv, x, w, 0, cl);
    forall k | 0 <= k < |ps|
      ensures SettingAt(argv[x := w], ps[k], cl) == SettingAt(argv, ps[k], cl)
    {
      SameSetting(argv, x, w, ps[k], cl);
    }
  }

  // ----- operands -----

  /** The first group that is no option, or the end. */
  function OperandAt(argv: seq<string>, i: nat, cl: Client): (k: nat)
    requires i <= |argv|
    ensures i <= k <= |argv|
    decreases |argv| - i
  {
    if i == |argv| || Lookup(argv[i], cl).None? then i else OperandAt(argv, Next(argv, i, cl), cl)
  }

  /** What is read through -@ is parsed without pseudo-arguments. */
  ghost predicate FilesHoldOptions(parsers: Parsers) {
    forall f :: parsers.files(f).Parsed? ==> HoldsNoOperand(parsers.files(f).records)
  }

  lemma NoArgumentIsOption(word: string)
    ensures NoArgument(word).Some? ==> !IsPseudo(NoArgument(word).value)
  {
  }

  lemma OneArgumentIsOption(word: string)
    ensures OneArgument(word).Some? ==> !IsPseudo(OneArgument(word).value)
  {
    SubmitArgumentIsOption(word);
    ClientArgumentIsOption(word);
  }

  lemma SubmitArgumentIsOption(word: string)
    ensures SubmitArgument(word).Some? ==> !IsPseudo(SubmitArgument(word).value)
  {
  }

  lemma ClientArgumentIsOption(word: string)
    ensures ClientArgument(word).Some? ==> !IsPseudo(ClientArgument(word).value)
  {
  }

  lemma LookupIsOption(word: string, cl: Client)
    ensures Lookup(word, cl).Some? ==> !IsPseudo(Lookup(word, cl).value.sw)
  {
    NoArgumentIsOption(word);
    OneArgumentIsOption(word);
  }

  ghost predicate HoldsNoOperand(rs: seq<Record>) {
    Only(rs, JobArg) == [] && Only(rs, Script) == []
  }

  lemma OneRecord(r: Record)
    requires !IsPseudo(r.sw)
    ensures HoldsNoOperand([r])
  {
  }

  lemma OptionGivesOne(sw: Switch, args: seq<string>, fl: Flags, parsers: Parsers) returns (r: Record)
    requires (|args| == 0 || sw != Other("-@")) && OptionRecords(sw, args, fl, parsers).Parsed?
    ensures OptionRecords(sw, args, fl, parsers).records == [r] && r.sw == sw
  {
    r := OptionRecords(sw, args, fl, parsers).records[0];
  }

  lemma OptionRecordsHaveNoOperand(sw: Switch, args: seq<string>, fl: Flags, parsers: Parsers)
    requires !IsPseudo(sw) && FilesHoldOptions(parsers) && OptionRecords(sw, args, fl, parsers).Parsed?
    ensures HoldsNoOperand(OptionRecords(sw, args, fl, parsers).records)
  {
    if |args| == 0 || sw != Other("-@") {
      var r := OptionGivesOne(sw, args, fl, parsers);
      OneRecord(r);
    }
  }

  lemma OptionHasNoOperand(argv: seq<string>, i: nat, fl: Flags, cl: Client, parsers: Parsers)
    requires i < |argv| && Lookup(argv[i], cl).Some? && Group(argv, i, fl, cl, parsers).Parsed? && FilesHoldOptions(parsers)
    ensures HoldsNoOperand(Group(argv, i, fl, cl, parsers).records)
  {
    LookupIsOption(argv[i], cl);
    var e := Lookup(argv[i], cl).value;
    OptionRecordsHaveNoOperand(e.sw, argv[i + 1..i + 1 + e.args], fl, parsers);
  }

  lemma {:induction false} JobArgsOnly(words: seq<string>)
    ensures Only(JobArgs(words), JobArg) == JobArgs(words) && Only(JobArgs(words), Script) == []
  {
    if words == [] {
    } else {
      JobArgsOnly(words[1..]);
    }
  }

  lemma ParseUnfolds(argv: seq<string>, i: nat, fl: Flags, cl: Client, parsers: Parsers)
    returns (j: nat, fl': Flags, g: seq<Record>, more: seq<Record>)
    requires i < |argv| && ParseFrom(argv, i, fl, cl, parsers).Parsed?
    ensures j == Next(argv, i, cl) && i < j <= |argv| && Group(argv, i, fl, cl, parsers) == Parsed(g)
    ensures ParseFrom(argv, j, fl', cl, parsers) == Parsed(more)
    ensures ParseFrom(argv, i, fl, cl, parsers).records == g + more
  {
    j, fl' := Next(argv, i, cl), FlagsBehind(argv, i, fl, cl);
    g, more := Group(argv, i, fl, cl, parsers).records, ParseFrom(argv, j, fl', cl, parsers).records;
  }

  predicate OperandsAre(rs: seq<Record>, args: seq<string>, script: seq<Record>) {
    Only(rs, JobArg) == JobArgs(args) && Only(rs, Script) == script
  }

  lemma WordOperands(argv: seq<string>, i: nat, cl: Client, parsers: Parsers)
    requires i < |argv| && cl.pseudos && !cl.qalter && WordRecords(argv, i, cl, parsers).Parsed?
    ensures OperandsAre(WordRecords(argv, i, cl, parsers).records, argv[i + 1..],
      if argv[i] == "--" then [] else [TextRecord(Script, argv[i])])
  {
    var args := JobArgs(argv[i + 1..]);
    JobArgsOnly(argv[i + 1..]);
    if argv[i] != "--" {
      var script := [TextRecord(Script, argv[i])];
      OnlyConcat(script, args, JobArg);
      OnlyConcat(script, args, Script);
      assert Only(script, JobArg) == [] && Only(script, Script) == script;
    }
  }

  function ScriptAt(argv: seq<string>, k: nat): seq<Record>
    requires k <= |argv|
  {
    if k == |argv| || argv[k] == "--" then [] else [TextRecord(Script, argv[k])]
  }

  function WordsBehind(argv: seq<string>, k: nat): seq<string>
    requires k <= |argv|
  {
    if k == |argv| then [] else argv[k + 1..]
  }

  lemma OptionOperands(g: seq<Record>, more: seq<Record>, args: seq<string>, script: seq<Record>)
    requires HoldsNoOperand(g) && OperandsAre(more, args, script)
    ensures OperandsAre(g + more, args, script)
  {
    OnlyConcat(g, more, JobArg);
    OnlyConcat(g, more, Script);
  }

  lemma OperandEnds(argv: seq<string>, i: nat, fl: Flags, cl: Client, parsers: Parsers)
    requires i < |argv| && cl.pseudos && !cl.qalter && Lookup(argv[i], cl).None?
    ensures Group(argv, i, fl, cl, parsers) == WordRecords(argv, i, cl, parsers) && Next(argv, i, cl) == |argv|
    ensures OperandAt(argv, i, cl) == i
  {
  }

  /** With a script operand, the words behind it are the job arguments: verbatim, in order, options or not. */
  lemma {:induction false} OperandsAreVerbatim(argv: seq<string>, i: nat, fl: Flags, cl: Client, parsers: Parsers)
    requires i <= |argv| && cl.pseudos && !cl.qalter && FilesHoldOptions(parsers)
    requires ParseFrom(argv, i, fl, cl, parsers).Parsed?
    ensures var k := OperandAt(argv, i, cl);
      OperandsAre(ParseFrom(argv, i, fl, cl, parsers).records, WordsBehind(argv, k), ScriptAt(argv, k))
    decreases |argv| - i
  {
    if i == |argv| {
    } else {
      var j, fl', g, more := ParseUnfolds(argv, i, fl, cl, parsers);
      if Lookup(argv[i], cl).Some? {
        OptionHasNoOperand(argv, i, fl, cl, parsers);
        OperandsAreVerbatim(argv, j, fl', cl, parsers);
        var k := OperandAt(argv, j, cl);
        OptionOperands(g, more, WordsBehind(argv, k), ScriptAt(argv, k));
      } else {
        OperandEnds(argv, i, fl, cl, parsers);
        WordOperands(argv, i, cl, parsers);
        assert g + more == g;
      }
    }
  }

  /** A lone dash is no option and no operand: wherever a group may start, it is refused. */
  lemma LoneDashIsRefused(argv: seq<string>, i: nat, fl: Flags, cl: Client, parsers: Parsers)
    requires i < |argv| && argv[i] == "-"
    ensures ParseFrom(argv, i, fl, cl, parsers) == Failed(InvalidOption("-"))
  {
    assert argv[i][0] == '-' && |argv[i]| == 1;
  }
}
