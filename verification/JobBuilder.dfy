/**
 The loops of `cull_parse_job_parameter`: an object that consumes an option list and fills a job.
 */
module JobBuilder {
  import opened Options
  import opened JobFields
  import opened JobParameters
  import opened HandlerRuns
  import opened JobHandlers

  // ----- the nested loops of -clear, as list laws -----

  lemma {:induction false} PseudosConcat(a: seq<Record>, b: seq<Record>)
    ensures Pseudos(a + b) == Pseudos(a) + Pseudos(b)
  {
    ConcatFirst(a, b);
    if a == [] {
    } else {
      PseudosConcat(a[1..], b);
    }
  }

  lemma PseudosOne(s: seq<Record>, r: Record)
    ensures Pseudos(s + [r]) == if IsPseudo(r.sw) then Pseudos(s) + [r] else Pseudos(s)
  {
    PseudosConcat(s, [r]);
  }

  lemma {:induction false} PseudosTwice(s: seq<Record>)
    ensures Pseudos(Pseudos(s)) == Pseudos(s) && !HasClear(Pseudos(s))
  {
    if s == [] {
    } else {
      PseudosTwice(s[1..]);
      if IsPseudo(s[0].sw) {
        assert Pseudos(s)[1..] == Pseudos(s[1..]);
      }
    }
  }

  lemma {:induction false} ClearedNone(s: seq<Record>)
    requires !HasClear(s)
    ensures Cleared(s) == s
  {
    if s == [] {
    } else {
      ClearedNone(s[..|s| - 1]);
    }
  }

  /** Working off the first -clear changes nothing about what all of them leave. */
  lemma {:induction false} ClearedFirst(a: seq<Record>, c: Record, b: seq<Record>)
    requires c.sw == Clear
    ensures Cleared(Pseudos(a) + b) == Cleared(a + ([c] + b))
  {
    if b == [] {
      PseudosTwice(a);
      ClearedNone(Pseudos(a));
      assert Pseudos(a) + b == Pseudos(a) && a + ([c] + b) == a + [c];
      assert (a + [c])[..|a|] == a;
    } else {
      var n := |b| - 1;
      var b', x := b[..n], b[n];
      assert a + ([c] + b) == (a + ([c] + b')) + [x] && Pseudos(a) + b == (Pseudos(a) + b') + [x];
      assert ((a + ([c] + b')) + [x])[..|a + ([c] + b')|] == a + ([c] + b');
      assert ((Pseudos(a) + b') + [x])[..|Pseudos(a) + b'|] == Pseudos(a) + b';
      ClearedFirst(a, c, b');
      if x.sw == Clear {
        PseudosAcross(a, c, b');
      }
    }
  }

  lemma PseudosAcross(a: seq<Record>, c: Record, b: seq<Record>)
    requires c.sw == Clear
    ensures Pseudos(Pseudos(a) + b) == Pseudos(a + ([c] + b))
  {
    PseudosConcat(Pseudos(a), b);
    PseudosTwice(a);
    PseudosConcat(a, [c] + b);
    PseudosConcat([c], b);
    assert Pseudos([c]) == [];
  }

  /** The closed form: the pseudo-arguments in front of the last -clear, then all that follows it. */
  lemma ClearedExactly(before: seq<Record>, clear: Record, behind: seq<Record>)
    requires clear.sw == Clear && !HasClear(behind)
    ensures Cleared(before + ([clear] + behind)) == Pseudos(before) + behind
  {
    PseudosTwice(before);
    ClearedFirst(before, clear, behind);
    ClearedNone(Pseudos(before) + behind);
  }

  lemma ClearedOne(s: seq<Record>, k: nat)
    requires k < |s| && s[k].sw == Clear
    ensures var t := Pseudos(s[..k]) + s[k + 1..]; Cleared(t) == Cleared(s) && |t| < |s|
  {
    SplitAt(s, k);
    ClearedFirst(s[..k], s[k], s[k + 1..]);
    PseudosShorter(s[..k]);
  }

  /** A cursor at `i` in the list, at `seen` in the list as it was. */
  lemma CursorStep(cmd: seq<Record>, i: nat, input: seq<Record>, seen: nat)
    requires i < |cmd| && seen <= |input| && cmd[i..] == input[seen..]
    ensures seen < |input| && cmd[i] == input[seen] && cmd[i + 1..] == input[seen + 1..]
    ensures input[..seen + 1] == input[..seen] + [cmd[i]] && cmd[..i + 1] == cmd[..i] + [cmd[i]]
    ensures RemoveAt(cmd, i)[..i] == cmd[..i] && RemoveAt(cmd, i)[i..] == input[seen + 1..]
  {
    assert cmd[i] == cmd[i..][0];
    assert cmd[i + 1..] == cmd[i..][1..];
  }

  lemma PassedOne(s: seq<Record>, r: Record, h: Handler)
    ensures Passed(s + [r], h) == if Matches(h, r) then Passed(s, h) else Passed(s, h) + [r]
    ensures Taken(s + [r], h) == if Matches(h, r) then Taken(s, h) + [r] else Taken(s, h)
  {
    PassedConcat(s, [r], h);
  }

  /** The first record of a switch comes behind those already done. */
  lemma TakeNext(cmdline: seq<Record>, sw: Switch, done: seq<Record>, own: seq<Record>)
    requires Find(cmdline, sw) < |cmdline| && done + Only(cmdline, sw) == own
    ensures var k := Find(cmdline, sw); var rest := RemoveAt(cmdline, k);
      && |done| < |own| && own[..|done| + 1] == done + [cmdline[k]]
      && own[..|done| + 1] + Only(rest, sw) == own && Without(rest, sw) == Without(cmdline, sw)
  {
    var k := Find(cmdline, sw);
    TakeFirst(cmdline, sw);
    RecordsAssociate(done, cmdline[k], Only(RemoveAt(cmdline, k), sw));
  }

  lemma TakesLast(rs: seq<Record>, r: Record)
    ensures Takes(rs + [r]) == Takes(rs) + [Took(r)]
  {
    assert (rs + [r])[..|rs|] == rs;
  }

  lemma {:induction false} PassedShorter(s: seq<Record>, h: Handler)
    ensures |Passed(s, h)| + |Taken(s, h)| == |s|
  {
    if s == [] {
    } else {
      PassedShorter(s[1..], h);
    }
  }

  lemma RecordsAssociate(a: seq<Record>, r: Record, b: seq<Record>)
    ensures a + ([r] + b) == (a + [r]) + b
  {
  }

  class Builder {
    var cmdline: seq<Record>
    var job: Job
    var stopped: bool
    ghost const env: seq<Item>
    ghost var used: seq<Record>
    ghost var killed: seq<Record>
    ghost var log: seq<Deed>

    ghost function State(): State
      reads this
    {
      JobParameters.State(cmdline, used, killed, log, stopped)
    }

    /** The job is what the deeds so far make of a fresh one. */
    ghost predicate Valid()
      reads this
    {
      job == Fold(Fresh(env), log)
    }

    constructor (input: seq<Record>, start: seq<Item>)
      ensures Valid() && State() == Start(input) && env == start
    {
      cmdline, job, stopped := input, Fresh(start), false;
      env, used, killed, log := start, [], [], [];
    }

    method Perform(d: Deed)
      requires Valid()
      modifies this`job, this`log
      ensures Valid() && log == old(log) + [d]
    {
      FoldLast(Fresh(env), log, d);
      job := Do(job, d);
      log := log + [d];
    }

    /** Since `used0` and `log0`, the records `done` have been used. */
    ghost predicate HasUsed(used0: seq<Record>, log0: seq<Deed>, done: seq<Record>)
      reads this
    {
      used == used0 + done && log == log0 + Takes(done)
    }

    method Use(k: nat, ghost used0: seq<Record>, ghost log0: seq<Deed>, ghost done: seq<Record>)
      requires Valid() && k < |cmdline| && HasUsed(used0, log0, done)
      modifies this`cmdline, this`job, this`used, this`log
      ensures Valid() && cmdline == RemoveAt(old(cmdline), k) && HasUsed(used0, log0, done + [old(cmdline)[k]])
    {
      var r := cmdline[k];
      TakesLast(done, r);
      Perform(Took(r));
      used := used + [r];
      cmdline := cmdline[..k] + cmdline[k + 1..];
    }

    /** While a record of the switch is found: use it and remove it. */
    method TakeAll(sw: Switch)
      requires Valid()
      modifies this`cmdline, this`job, this`used, this`log
      ensures Valid() && cmdline == Without(old(cmdline), sw)
      ensures HasUsed(old(used), old(log), Only(old(cmdline), sw))
    {
      ghost var own, rest := Only(cmdline, sw), Without(cmdline, sw);
      ghost var done: seq<Record> := [];
      assert [] + own == own && used + [] == used && log + [] == log;
      while true
        invariant Valid() && HasUsed(old(used), old(log), done)
        invariant done + Only(cmdline, sw) == own && Without(cmdline, sw) == rest
        decreases |cmdline|
      {
        var k := Find(cmdline, sw);
        if k == |cmdline| {
          NoneOf(cmdline, sw);
          assert done + [] == done;
          break;
        }
        TakeNext(cmdline, sw, done, own);
        Use(k, old(used), old(log), done);
        done := own[..|done| + 1];
      }
    }

    /** One pass over the list that uses and removes every match. */
    method TakeMatches(h: Handler)
      requires Valid()
      modifies this`cmdline, this`job, this`used, this`log
      ensures Valid() && cmdline == Passed(old(cmdline), h)
      ensures HasUsed(old(used), old(log), Taken(old(cmdline), h))
    {
      ghost var input := cmdline;
      ghost var seen: nat := 0;
      var i := 0;
      while i < |cmdline|
        invariant Valid() && 0 <= i <= |cmdline| && seen <= |input|
        invariant cmdline[..i] == Passed(input[..seen], h) && cmdline[i..] == input[seen..]
        invariant HasUsed(old(used), old(log), Taken(input[..seen], h))
        decreases |cmdline| - i
      {
        CursorStep(cmdline, i, input, seen);
        PassedOne(input[..seen], cmdline[i], h);
        if Matches(h, cmdline[i]) {
          Use(i, old(used), old(log), Taken(input[..seen], h));
        } else {
          i := i + 1;
        }
        seen := seen + 1;
      }
      assert input[..seen] == input && cmdline[..i] == cmdline;
    }

    /** At most one record: the first one. */
    method TakeFirstOnly(sw: Switch) returns (found: bool)
      requires Valid() && !stopped
      modifies this`cmdline, this`job, this`used, this`log
      ensures Valid() && State() == TakeOne(old(State()), sw) && found == (|used| > |old(used)|)
    {
      var k := Find(cmdline, sw);
      found := k < |cmdline|;
      if found {
        Use(k, used, log, []);
        assert Takes([old(cmdline)[k]]) == [Took(old(cmdline)[k])];
      }
    }

    /** The inner loop of -clear: a cursor walks up to the -clear record and removes options behind itself. */
    method KillBefore(clear: nat)
      requires clear < |cmdline| && clear == Find(cmdline, Clear)
      modifies this`cmdline
      ensures cmdline == Pseudos(old(cmdline)[..clear]) + old(cmdline)[clear + 1..]
    {
      ghost var input := cmdline;
      ghost var seen: nat := 0;
      var run, ep := 0, clear;
      while run != ep
        invariant 0 <= run <= ep < |cmdline| && seen <= clear && ep - run == clear - seen
        invariant cmdline[..run] == Pseudos(input[..seen]) && cmdline[run..] == input[seen..]
        decreases ep - run
      {
        CursorStep(cmdline, run, input, seen);
        PseudosOne(input[..seen], cmdline[run]);
        run := run + 1;
        if !IsPseudo(cmdline[run - 1].sw) {
          cmdline := cmdline[..run - 1] + cmdline[run..];
          run, ep := run - 1, ep - 1;
        }
        seen := seen + 1;
      }
      CursorStep(cmdline, run, input, seen);
      cmdline := cmdline[..run] + cmdline[run + 1..];
    }

    /** As long as there is a -clear: kill all options in front of it, and it. */
    method ClearOptions()
      modifies this`cmdline
      ensures cmdline == Cleared(old(cmdline))
    {
      while true
        invariant Cleared(cmdline) == Cleared(old(cmdline))
        decreases |cmdline|
      {
        var ep := Find(cmdline, Clear);
        if ep == |cmdline| {
          ClearedNone(cmdline);
          break;
        }
        ClearedOne(cmdline, ep);
        KillBefore(ep);
      }
    }

    /** -V records become -v records where they stand. */
    method RenameEnv()
      modifies this`cmdline
      ensures cmdline == Renamed(old(cmdline))
    {
      while true
        invariant Renamed(cmdline) == Renamed(old(cmdline))
        decreases |Only(cmdline, EnvAll)|
      {
        var k := Find(cmdline, EnvAll);
        if k == |cmdline| {
          RenamedNone(cmdline);
          break;
        }
        RenameOne(cmdline, k);
        cmdline := cmdline[k := cmdline[k].(sw := Env)];
      }
    }

    /** A handler that uses all the records it matches: by search, or in one pass. */
    method TakeHandled(h: Handler)
      requires Valid()
      modifies this`cmdline, this`job, this`used, this`log
      ensures Valid() && cmdline == Passed(old(cmdline), h) && used == old(used) + Taken(old(cmdline), h)
      ensures log == old(log) + Takes(Taken(old(cmdline), h)) + Behind(h, Taken(old(cmdline), h))
    {
      var before := |cmdline|;
      PassedShorter(cmdline, h);
      if h.All? {
        TakenOfAll(cmdline, h.sw);
        TakeAll(h.sw);
      } else {
        TakeMatches(h);
      }
      if h.InScope? && h.sw == MasterQueue && |cmdline| < before {
        Perform(ShiftedQueues);
      }
    }

    /** One handler of the sequence. */
    method Handle(h: Handler)
      requires Valid() && !stopped
      modifies this
      ensures Valid() && State() == Step(h, old(State()))
    {
      match h
      case All(_) => TakeHandled(h);
      case InScope(_, _) => TakeHandled(h);
      case ContextPass => TakeHandled(h);
      case CollapseLists(sw) => Perform(Collapsed(sw));
      case First(sw) => var _ := TakeFirstOnly(sw);
      case ClearPass =>
        killed := killed + Killed(cmdline);
        ClearOptions();
      case RenameEnvAll => RenameEnv();
      case StopOnHelp =>
        var found := TakeFirstOnly(Help);
        stopped := found;
    }

    /** The whole function: every handler in order, until -help stops it; what is left is unknown. */
    method Build() returns (unknown: seq<Record>)
      requires Valid() && !stopped
      modifies this
      ensures Valid() && State() == Run(Handlers(), HANDLERS, old(State()))
      ensures unknown == if stopped then [] else cmdline
    {
      var k := 0;
      ghost var tr := TraceOf(Handlers(), State());
      while k < HANDLERS && !stopped
        invariant Valid() && 0 <= k <= HANDLERS && State() == tr[k]
      {
        assert StepAt(Handlers(), tr, k);
        Handle(HandlerAt(k));
        k := k + 1;
      }
      if stopped {
        RunStopped(Handlers(), tr, k, HANDLERS);
        return [];
      }
      unknown := cmdline;
    }
  }

  lemma {:induction false} PseudosShorter(s: seq<Record>)
    ensures |Pseudos(s)| <= |s|
  {
    if s == [] {
    } else {
      PseudosShorter(s[1..]);
    }
  }

  lemma {:induction false} RenamedNone(s: seq<Record>)
    requires forall x | 0 <= x < |s| :: s[x].sw != EnvAll
    ensures Renamed(s) == s
  {
    if s == [] {
    } else {
      RenamedNone(s[1..]);
    }
  }

  lemma {:induction false} RenameOne(s: seq<Record>, k: nat)
    requires k < |s| && s[k].sw == EnvAll
    ensures var t := s[k := s[k].(sw := Env)];
      Renamed(t) == Renamed(s) && |Only(t, EnvAll)| < |Only(s, EnvAll)|
  {
    var t := s[k := s[k].(sw := Env)];
    if k > 0 {
      RenameOne(s[1..], k - 1);
      assert t[1..] == s[1..][k - 1 := s[k].(sw := Env)];
    } else {
      assert t[1..] == s[1..];
    }
  }
}
