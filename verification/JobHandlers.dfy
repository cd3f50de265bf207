/**
 The handlers of `cull_parse_job_parameter` in the order of the source
 (source/common/parse_job_cull.cc), and what the order means for each switch.
 */
module JobHandlers {
  import opened Options
  import opened JobFields
  import opened JobParameters
  import opened HandlerRuns
  import opened SwitchGroups
  import opened JobLists
  import opened RequestRuns

  const CLEAR_AT := 14
  const HANDLERS := 71
  const REQUESTS_AT := 32
  const QUEUES_AT := 48
  const VARIABLES_AT := 60
  const CONTEXTS_AT := 63
  const HELP_AT := 27

  function HandlerAt(k: nat): Handler {
    if k < 19 then FrontHandler(k)
    else if k < 36 then UpperHandler(k)
    else if k < 54 then LowerHandler(k)
    else BackHandler(k)
  }

  function FrontHandler(k: nat): Handler {
    match k
    case 0 => All(Sync)
    case 1 => All(Binary)
    case 2 => First(BindType)
    case 3 => First(BindAmount)
    case 4 => First(BindInstance)
    case 5 => First(BindUnit)
    case 6 => First(BindFilter)
    case 7 => First(BindSort)
    case 8 => First(BindStart)
    case 9 => First(BindStop)
    case 10 => First(BindStrategy)
    case 11 => All(NoShell)
    case 12 => First(Tasks)
    case 13 => All(TaskLimit)
    case 14 => ClearPass
    case 15 => All(StartTime)
    case 16 => All(Account)
    case 17 => All(Reservation)
    case _ => All(Deadline)
  }

  function UpperHandler(k: nat): Handler {
    match k
    case 19 => All(Interval)
    case 20 => All(Checkpoint)
    case 21 => All(Prefix)
    case 22 => All(Department)
    case 23 => All(Jsv)
    case 24 => All(StderrPath)
    case 25 => All(Hold)
    case 26 => All(Hard)
    case 27 => StopOnHelp
    case 28 => All(HoldJid)
    case 29 => All(HoldJidArray)
    case 30 => All(Join)
    case 31 => All(Jid)
    case 32 => InScope(Resource, Global)
    case 33 => InScope(Resource, Master)
    case 34 => InScope(Resource, Slave)
    case _ => CollapseLists(Resource)
  }

  function LowerHandler(k: nat): Handler {
    match k
    case 36 => All(MailOptions)
    case 37 => All(MailList)
    case 38 => All(Name)
    case 39 => All(Notify)
    case 40 => All(Now)
    case 41 => All(StdoutPath)
    case 42 => All(StdinPath)
    case 43 => All(Priority)
    case 44 => All(JobShare)
    case 45 => All(Project)
    case 46 => All(Allocation)
    case 47 => All(Parallel)
    case 48 => InScope(Queue, Global)
    case 49 => InScope(Queue, Master)
    case 50 => InScope(Queue, Slave)
    case 51 => InScope(MasterQueue, Master)
    case 52 => All(Reserve)
    case _ => All(Pty)
  }

  function BackHandler(k: nat): Handler {
    match k
    case 54 => All(Restart)
    case 55 => All(ScopeWord)
    case 56 => All(Soft)
    case 57 => All(ShellPath)
    case 58 => All(Terse)
    case 59 => All(User)
    case 60 => RenameEnvAll
    case 61 => All(Env)
    case 62 => CollapseLists(Env)
    case 63 => ContextPass
    case 64 => All(Verify)
    case 65 => All(Validate)
    case 66 => All(WorkDir)
    case 67 => First(Script)
    case 68 => First(ScriptLength)
    case 69 => First(ScriptText)
    case _ => All(JobArg)
  }

  /** Where the handler of a switch stands; the number of handlers for a switch that has none. */
  function Rank(sw: Switch): nat {
    match sw
    case Sync => 0
    case Binary => 1
    case BindType => 2
    case BindAmount => 3
    case BindInstance => 4
    case BindUnit => 5
    case BindFilter => 6
    case BindSort => 7
    case BindStart => 8
    case BindStop => 9
    case BindStrategy => 10
    case NoShell => 11
    case Tasks => 12
    case TaskLimit => 13
    case Clear => 14
    case StartTime => 15
    case Account => 16
    case Reservation => 17
    case Deadline => 18
    case Interval => 19
    case Checkpoint => 20
    case Prefix => 21
    case Department => 22
    case Jsv => 23
    case StderrPath => 24
    case Hold => 25
    case Hard => 26
    case Help => 27
    case HoldJid => 28
    case HoldJidArray => 29
    case Join => 30
    case Jid => 31
    case Resource => 32
    case MailOptions => 36
    case MailList => 37
    case Name => 38
    case Notify => 39
    case Now => 40
    case StdoutPath => 41
    case StdinPath => 42
    case Priority => 43
    case JobShare => 44
    case Project => 45
    case Allocation => 46
    case Parallel => 47
    case Queue => 48
    case MasterQueue => 51
    case Reserve => 52
    case Pty => 53
    case Restart => 54
    case ScopeWord => 55
    case Soft => 56
    case ShellPath => 57
    case Terse => 58
    case User => 59
    case EnvAll => 60
    case Env => 61
    case AddContext => 63
    case DeleteContext => 63
    case SetContext => 63
    case Verify => 64
    case Validate => 65
    case WorkDir => 66
    case Script => 67
    case ScriptLength => 68
    case ScriptText => 69
    case JobArg => 70
    case _ => HANDLERS
  }

  function Handlers(): (hs: seq<Handler>)
    ensures |hs| == HANDLERS && forall k | 0 <= k < HANDLERS :: hs[k] == HandlerAt(k)
  {
    seq(HANDLERS, k requires 0 <= k => HandlerAt(k))
  }

  // ----- every switch has its place -----

  /** Switches with one handler that takes all of their records, or one. */
  predicate IsPlain(sw: Switch) {
    && sw != Resource && sw != Queue && sw != MasterQueue && sw != Env && sw != EnvAll
    && sw != Clear && sw != Help && !IsContext(sw)
  }

  /** The handler at `k` is the one its switch is ranked by. */
  predicate IsRanked(h: Handler, k: nat) {
    match h
    case All(sw) => if sw == Env then k == VARIABLES_AT + 1 else IsPlain(sw) && Rank(sw) == k
    case First(sw) => IsPlain(sw) && Rank(sw) == k
    case InScope(sw, _) =>
      || (sw == Resource && REQUESTS_AT <= k < REQUESTS_AT + 3) || (sw == Queue && QUEUES_AT <= k < QUEUES_AT + 3)
      || (sw == MasterQueue && k == QUEUES_AT + 3)
    case ContextPass => k == CONTEXTS_AT
    case ClearPass => k == CLEAR_AT
    case CollapseLists(sw) => (sw == Resource && k == REQUESTS_AT + 3) || (sw == Env && k == VARIABLES_AT + 2)
    case RenameEnvAll => k == VARIABLES_AT
    case StopOnHelp => k == HELP_AT
  }

  lemma EarlyIsRanked(k: nat)
    requires k < 10
    ensures IsRanked(FrontHandler(k), k)
  {
  }

  lemma FrontIsRanked(k: nat)
    requires 10 <= k < 19
    ensures IsRanked(FrontHandler(k), k)
  {
  }

  lemma UpperIsRanked(k: nat)
    requires 19 <= k < 36
    ensures IsRanked(UpperHandler(k), k)
  {
  }

  lemma MiddleIsRanked(k: nat)
    requires 36 <= k < 45
    ensures IsRanked(LowerHandler(k), k)
  {
  }

  lemma LowerIsRanked(k: nat)
    requires 45 <= k < 54
    ensures IsRanked(LowerHandler(k), k)
  {
  }

  lemma BackIsRanked(k: nat)
    requires 54 <= k < 63
    ensures IsRanked(BackHandler(k), k)
  {
  }

  lemma LastIsRanked(k: nat)
    requires 63 <= k < 67
    ensures IsRanked(BackHandler(k), k)
  {
  }

  lemma PseudosAreRanked(k: nat)
    requires 67 <= k < HANDLERS
    ensures IsRanked(BackHandler(k), k)
  {
  }

  lemma AllAreRanked(k: nat)
    requires k < HANDLERS
    ensures IsRanked(HandlerAt(k), k)
  {
    if k < 10 {
      EarlyIsRanked(k);
    } else if k < 19 {
      FrontIsRanked(k);
    } else if k < 36 {
      UpperIsRanked(k);
    } else if k < 45 {
      MiddleIsRanked(k);
    } else if k < 54 {
      LowerIsRanked(k);
    } else if k < 63 {
      BackIsRanked(k);
    } else if k < 67 {
      LastIsRanked(k);
    } else {
      PseudosAreRanked(k);
    }
  }

  lemma RankedTouches(h: Handler, k: nat, sw: Switch)
    requires IsRanked(h, k) && Touches(h, sw) && (IsPlain(sw) || sw == Clear || sw == Help)
    ensures if sw == Clear then k == CLEAR_AT else k == Rank(sw)
  {
  }

  lemma UntouchedBut(lo: nat, hi: nat, sw: Switch)
    requires hi <= HANDLERS && (IsPlain(sw) || sw == Clear || sw == Help)
    requires !(lo <= (if sw == Clear then CLEAR_AT else Rank(sw)) < hi)
    ensures Untouched(Handlers(), lo, hi, sw)
  {
    forall x | lo <= x < hi
      ensures !Touches(Handlers()[x], sw)
    {
      AllAreRanked(x);
      if Touches(HandlerAt(x), sw) {
        RankedTouches(HandlerAt(x), x, sw);
      }
    }
  }

  lemma HandlersClear()
    ensures ClearsAt(Handlers(), CLEAR_AT)
  {
    UntouchedBut(0, CLEAR_AT, Clear);
    UntouchedBut(CLEAR_AT + 1, HANDLERS, Clear);
    assert HandlerAt(CLEAR_AT) == ClearPass;
  }

  lemma HandlersStop(h: nat)
    requires h == Rank(Help)
    ensures StopsAt(Handlers(), h) && Untouched(Handlers(), 0, h, Help) && CLEAR_AT < h
  {
    UntouchedBut(0, h, Help);
    assert HandlerAt(h) == StopOnHelp;
    forall x | 0 <= x < HANDLERS && x != h
      ensures Handlers()[x] != StopOnHelp
    {
      AllAreRanked(x);
    }
  }

  // ----- the handler of a switch -----

  lemma FrontHandles(sw: Switch)
    requires IsPlain(sw) && Rank(sw) < 19
    ensures FrontHandler(Rank(sw)) == All(sw) || FrontHandler(Rank(sw)) == First(sw)
  {
  }

  lemma UpperHandles(sw: Switch)
    requires IsPlain(sw) && 19 <= Rank(sw) < 36
    ensures UpperHandler(Rank(sw)) == All(sw)
  {
  }

  lemma LowerHandles(sw: Switch)
    requires IsPlain(sw) && 36 <= Rank(sw) < 54
    ensures LowerHandler(Rank(sw)) == All(sw)
  {
  }

  lemma BackHandles(sw: Switch)
    requires IsPlain(sw) && 54 <= Rank(sw) < HANDLERS
    ensures BackHandler(Rank(sw)) == (if IsPseudo(sw) && sw != JobArg then First(sw) else All(sw))
  {
  }

  lemma FrontKinds(k: nat)
    requires k < 19
    ensures FrontHandler(k).All? ==> !IsPseudo(FrontHandler(k).sw)
    ensures FrontHandler(k).First? ==> !IsPseudo(FrontHandler(k).sw)
    ensures k == CLEAR_AT ==> FrontHandler(k) == ClearPass
  {
  }

  lemma FrontFirsts(k: nat)
    requires k < 19 && FrontHandler(k).First?
    ensures k < CLEAR_AT
  {
  }

  /** A plain switch is handled at its rank: once if early or a pseudo-argument, else completely. */
  lemma HandlerOf(sw: Switch) returns (k: nat, h: Handler)
    requires IsPlain(sw) && Rank(sw) < HANDLERS
    ensures k == Rank(sw) && h == HandlerAt(k) && HandledAt(Handlers(), k, sw) && Handlers()[k] == h && k != CLEAR_AT
    ensures (k < CLEAR_AT ==> !IsPseudo(sw)) && (h.First? ==> k < CLEAR_AT || IsPseudo(sw))
  {
    k := Rank(sw);
    h := HandlerAt(k);
    UntouchedBut(0, k, sw);
    UntouchedBut(k + 1, HANDLERS, sw);
    if k < 19 {
      FrontHandles(sw);
      FrontKinds(k);
      if FrontHandler(k).First? {
        FrontFirsts(k);
      }
    } else if k < 36 {
      UpperHandles(sw);
    } else if k < 54 {
      LowerHandles(sw);
    } else {
      BackHandles(sw);
    }
  }

  // ----- the lists of the job -----

  lemma RankedFeeds(h: Handler, k: nat, f: Field)
    requires IsRanked(h, k) && Feeds(h, f) && IsPlain(f.sw)
    ensures k == Rank(f.sw)
  {
  }

  /** The list of a plain switch is changed by its own handler alone. */
  lemma PlainUnfed(lo: nat, hi: nat, f: Field)
    requires hi <= HANDLERS && IsPlain(f.sw) && !(lo <= Rank(f.sw) < hi)
    ensures Unfed(Handlers(), lo, hi, f)
  {
    forall x | lo <= x < hi
      ensures !Feeds(Handlers()[x], f)
    {
      AllAreRanked(x);
      if Feeds(HandlerAt(x), f) {
        RankedFeeds(HandlerAt(x), x, f);
      }
    }
  }

  // ----- requests, variables and contexts -----

  /** The places from `lo` up to `hi` at which the records or the lists of a switch are handled. */
  function Places(sw: Switch): (r: (nat, nat)) {
    if sw == Resource then (REQUESTS_AT, REQUESTS_AT + 4)
    else if sw == Queue then (QUEUES_AT, QUEUES_AT + 4)
    else if sw == MasterQueue then (QUEUES_AT + 3, QUEUES_AT + 4)
    else if sw == Env || sw == EnvAll then (VARIABLES_AT, VARIABLES_AT + 3)
    else (CONTEXTS_AT, CONTEXTS_AT + 1)
  }

  predicate HasPlaces(sw: Switch) {
    sw == Resource || sw == Queue || sw == MasterQueue || sw == Env || sw == EnvAll || IsContext(sw)
  }

  lemma RankedPlaces(h: Handler, k: nat, sw: Switch)
    requires IsRanked(h, k) && HasPlaces(sw) && Touches(h, sw)
    ensures Places(sw).0 <= k < Places(sw).1
  {
  }

  lemma RankedFeedPlaces(h: Handler, k: nat, f: Field)
    requires IsRanked(h, k) && HasPlaces(f.sw) && Feeds(h, f) && (IsContext(f.sw) ==> f.sw == SetContext)
    ensures Places(f.sw).0 <= k < Places(f.sw).1
  {
  }

  lemma UntouchedOutside(lo: nat, hi: nat, sw: Switch)
    requires hi <= HANDLERS && HasPlaces(sw) && (hi <= Places(sw).0 || Places(sw).1 <= lo)
    ensures Untouched(Handlers(), lo, hi, sw)
  {
    forall x | lo <= x < hi
      ensures !Touches(Handlers()[x], sw)
    {
      AllAreRanked(x);
      if Touches(HandlerAt(x), sw) {
        RankedPlaces(HandlerAt(x), x, sw);
      }
    }
  }

  lemma UnfedOutside(lo: nat, hi: nat, f: Field)
    requires hi <= HANDLERS && HasPlaces(f.sw) && (IsContext(f.sw) ==> f.sw == SetContext)
    requires hi <= Places(f.sw).0 || Places(f.sw).1 <= lo
    ensures Unfed(Handlers(), lo, hi, f)
  {
    forall x | lo <= x < hi
      ensures !Feeds(Handlers()[x], f)
    {
      AllAreRanked(x);
      if Feeds(HandlerAt(x), f) {
        RankedFeedPlaces(HandlerAt(x), x, f);
      }
    }
  }

  lemma ResourceHandlers(k: nat)
    requires k == REQUESTS_AT
    ensures PassesAt(Handlers(), k, Resource) && Handlers()[k + 3] == CollapseLists(Resource)
  {
    UntouchedOutside(0, k, Resource);
    UntouchedOutside(k + 4, HANDLERS, Resource);
    var hs := Handlers();
    assert hs[k] == HandlerAt(k) && hs[k + 1] == HandlerAt(k + 1) && hs[k + 2] == HandlerAt(k + 2) && hs[k + 3] == HandlerAt(k + 3);
  }

  lemma QueueHandlers(k: nat)
    requires k == QUEUES_AT
    ensures PassesAt(Handlers(), k, Queue) && Handlers()[k + 3] == MASTER_PASS && Untouched(Handlers(), 0, k + 3, MasterQueue)
  {
    UntouchedOutside(0, k, Queue);
    UntouchedOutside(k + 4, HANDLERS, Queue);
    UntouchedOutside(0, k + 3, MasterQueue);
    var hs := Handlers();
    assert hs[k] == HandlerAt(k) && hs[k + 1] == HandlerAt(k + 1) && hs[k + 2] == HandlerAt(k + 2) && hs[k + 3] == HandlerAt(k + 3);
  }

  lemma GroupOutside(hi: nat, g: set<Switch>)
    requires hi <= HANDLERS && forall sw | sw in g :: HasPlaces(sw) && hi <= Places(sw).0
    ensures GroupUntouched(Handlers(), 0, hi, g)
  {
    forall x, sw | 0 <= x < hi && sw in g
      ensures !Touches(Handlers()[x], sw)
    {
      AllAreRanked(x);
      if Touches(HandlerAt(x), sw) {
        RankedPlaces(HandlerAt(x), x, sw);
      }
    }
  }

  lemma VariableHandlers(k: nat)
    requires k == VARIABLES_AT
    ensures CLEAR_AT < k && k + 3 <= HANDLERS && GroupUntouched(Handlers(), 0, k, VARIABLES)
    ensures Handlers()[k] == RenameEnvAll && Handlers()[k + 1] == All(Env) && Handlers()[k + 2] == CollapseLists(Env)
  {
    GroupOutside(k, VARIABLES);
    var hs := Handlers();
    assert hs[k] == HandlerAt(k) && hs[k + 1] == HandlerAt(k + 1) && hs[k + 2] == HandlerAt(k + 2);
  }

  lemma ContextHandlers(k: nat)
    requires k == CONTEXTS_AT
    ensures CLEAR_AT < k < HANDLERS && GroupUntouched(Handlers(), 0, k, CONTEXTS) && Handlers()[k] == ContextPass
  {
    GroupOutside(k, CONTEXTS);
    assert Handlers()[k] == HandlerAt(k);
  }
}
