/**
 End to end: the tasks of a job and their holds.
 */
module SubmissionHolds {
  import opened Options
  import opened JobFields
  import opened JobParameters
  import opened HandlerRuns
  import opened JobHandlers
  import opened Submission
  import opened SubmissionProperties

  function TaskIds(tasks: seq<Record>): seq<Item> {
    if tasks == [] then ONE_TASK else tasks[|tasks| - 1].value.items
  }

  lemma DoTask(job: Job, d: Deed)
    requires d.Took? ==> d.record.sw != Hold
    ensures var j := Do(job, d);
      if d.Took? && d.record.sw == Tasks then j.notHeld == d.record.value.items && j.userHeld == []
      else j.notHeld == job.notHeld && j.userHeld == job.userHeld
  {
  }

  lemma OnlyOfLast(log: seq<Deed>, n: nat, sw: Switch)
    requires |log| == n + 1
    ensures Only(RecordsOf(log), sw)
      == Only(RecordsOf(log[..n]), sw) + if log[n].Took? && log[n].record.sw == sw then [log[n].record] else []
  {
    var rs := RecordsOf(log[..n]);
    if log[n].Took? {
      assert RecordsOf(log) == rs + [log[n].record];
      OnlyConcat(rs, [log[n].record], sw);
    } else {
      assert RecordsOf(log) == rs;
    }
  }

  lemma TasksLast(log: seq<Deed>, n: nat)
    requires |log| == n + 1 && Only(RecordsOf(log), Hold) == []
    ensures Only(RecordsOf(log[..n]), Hold) == [] && (log[n].Took? ==> log[n].record.sw != Hold)
    ensures Only(RecordsOf(log), Tasks)
      == Only(RecordsOf(log[..n]), Tasks) + if log[n].Took? && log[n].record.sw == Tasks then [log[n].record] else []
  {
    OnlyOfLast(log, n, Hold);
    OnlyOfLast(log, n, Tasks);
  }

  lemma TasksStep(job: Job, log: seq<Deed>, n: nat)
    requires |log| == n + 1 && Only(RecordsOf(log), Hold) == []
    requires job.notHeld == TaskIds(Only(RecordsOf(log[..n]), Tasks)) && job.userHeld == []
    ensures Do(job, log[n]).notHeld == TaskIds(Only(RecordsOf(log), Tasks)) && Do(job, log[n]).userHeld == []
  {
    TasksLast(log, n);
    DoTask(job, log[n]);
  }

  /** Before any hold, the tasks are those of the last -t used, and not held. */
  lemma {:induction false} TasksOf(env: seq<Item>, log: seq<Deed>)
    requires Only(RecordsOf(log), Hold) == []
    ensures var job := Fold(Fresh(env), log);
      job.notHeld == TaskIds(Only(RecordsOf(log), Tasks)) && job.userHeld == []
  {
    if log == [] {
      assert RecordsOf(log) == [];
    } else {
      var n := |log| - 1;
      TasksLast(log, n);
      TasksOf(env, log[..n]);
      TasksStep(Fold(Fresh(env), log[..n]), log, n);
    }
  }

  lemma OnlyAHoldHolds(r: Record)
    ensures r.sw != Hold ==> !IsUserHold(r)
  {
  }

  lemma {:induction false} UserHoldsOnly(s: seq<Record>)
    ensures UserHolds(Only(s, Hold)) == UserHolds(s)
  {
    if s == [] {
    } else {
      var n := |s| - 1;
      var init, r := s[..n], s[n];
      UserHoldsOnly(init);
      OnlyLast(s, n, Hold);
      assert s == init + [r];
      UserHoldsLast(init, r);
      if r.sw == Hold {
        UserHoldsLast(Only(init, Hold), r);
      } else {
        OnlyAHoldHolds(r);
        assert Only(s, Hold) == Only(init, Hold);
      }
    }
  }

  lemma HoldRanks()
    ensures IsPlain(Hold) && IsPlain(Tasks) && IsOnce(Tasks) && IsLate(Hold) && Rank(Tasks) < CLEAR_AT
  {
  }

  /** Tasks are taken before holds. */
  lemma HoldsSplit(hs: seq<Handler>, tr: seq<State>, c: nat, t: nat, k: nat, all: seq<Record>)
    returns (a: seq<Deed>, b: seq<Deed>)
    requires IsTrace(hs, tr) && tr[0] == Start(all) && ClearsAt(hs, c) && !tr[|hs|].stopped
    requires HandledAt(hs, t, Tasks) && HandledAt(hs, k, Hold) && t < c < k
    ensures tr[|hs|].log == a + b && Only(RecordsOf(a), Hold) == [] && Only(RecordsOf(b), Tasks) == []
  {
    a := tr[k].log;
    b := LogGrows(hs, tr, k, |hs|);
    RunNotStopped(hs, tr, k, |hs|);
    var own := LateReach(hs, tr, c, k, all, Hold);
    RunKeeps(hs, tr, k, |hs|, Tasks);
    RunLogs(hs, tr, k);
    RunLogs(hs, tr, |hs|);
    NoTasksBehind(a, b);
  }

  lemma NoTasksBehind(a: seq<Deed>, b: seq<Deed>)
    requires Only(RecordsOf(a + b), Tasks) == Only(RecordsOf(a), Tasks)
    ensures Only(RecordsOf(b), Tasks) == []
  {
    RecordsConcat(a, b);
    OnlyConcat(RecordsOf(a), RecordsOf(b), Tasks);
  }

  lemma HoldsSplitFinal(all: seq<Record>) returns (a: seq<Deed>, b: seq<Deed>)
    requires !Final(all).stopped
    ensures Final(all).log == a + b && Only(RecordsOf(a), Hold) == [] && Only(RecordsOf(b), Tasks) == []
  {
    HoldRanks();
    HandlersClear();
    var k, _ := HandlerOf(Hold);
    var t, _ := HandlerOf(Tasks);
    var tr := TraceOf(Handlers(), Start(all));
    a, b := HoldsSplit(Handlers(), tr, CLEAR_AT, t, k, all);
  }

  lemma HoldParts(log: seq<Deed>, a: seq<Deed>, b: seq<Deed>)
    requires log == a + b && Only(RecordsOf(a), Hold) == [] && Only(RecordsOf(b), Tasks) == []
    ensures Only(RecordsOf(log), Tasks) == Only(RecordsOf(a), Tasks)
    ensures Only(RecordsOf(log), Hold) == Only(RecordsOf(b), Hold)
  {
    RecordsConcat(a, b);
    OnlyConcat(RecordsOf(a), RecordsOf(b), Tasks);
    OnlyConcat(RecordsOf(a), RecordsOf(b), Hold);
  }

  lemma HoldLists(env: seq<Item>, log: seq<Deed>, a: seq<Deed>, b: seq<Deed>)
    requires log == a + b && Only(RecordsOf(a), Hold) == [] && Only(RecordsOf(b), Tasks) == []
    ensures var rs := RecordsOf(log); var ids, n := TaskIds(Only(rs, Tasks)), UserHolds(Only(rs, Hold));
      var job := Fold(Fresh(env), log);
      job.notHeld == (if n == 0 then ids else []) && job.userHeld == (if n == 1 then ids else [])
  {
    TasksOf(env, a);
    FoldConcat(Fresh(env), a, b);
    HoldParts(log, a, b);
    UserHoldsOnly(RecordsOf(b));
    HoldsOf(Fold(Fresh(env), a), b);
  }

  /**
   The task ids are those of the first -t. One surviving user hold parks them all in the hold
   list. A second one copies the list the first has emptied: then no list holds any task.
   */
  lemma HoldPrecedence(q: Request)
    requires IsComplete(q)
    ensures var first := FirstIn(Lists(q), Tasks);
      var ids := if first.None? then ONE_TASK else first.value.value.items;
      var n := UserHolds(Surviving(Flat(Lists(q)), Hold));
      && JobFor(q).notHeld == (if n == 0 then ids else [])
      && JobFor(q).userHeld == (if n == 1 then ids else [])
  {
    HoldRanks();
    CompleteRuns(q);
    FirstSourceWins(q, Tasks);
    FinalLogs(AllOptions(q).records);
    LateUsed(q, Hold);
    var a, b := HoldsSplitFinal(AllOptions(q).records);
    HoldLists(q.env, Final(AllOptions(q).records).log, a, b);
  }
}
