/**
 The shutdown protocol of source/utilbin/tst_pthread_signals.cc: main creates, counts and joins
 the threads, one waiter reaps on SIGINT, and any number of emitters look at the quit flag.

 A critical section is one step. Waiting on the condition variable releases the mutex, so a
 reaper falls asleep in one step and looks again in another; it may also wake for no reason.
 */
module ShutdownProtocol {

  datatype Waiter = Waiting | Asleep | Awake | Done

  /**
   Thread 0 is the waiter, threads 1 to `n` are emitters. Main has created the threads below
   `created`, counted `counted` and joined `joined` of them; `gone` are the emitters that quit.
   */
  datatype State = State(n: nat, created: nat, counted: nat, joined: nat,
                         quit: bool, cntr: int, waiter: Waiter, gone: set<nat>)

  function Init(n: nat): State {
    State(n, 0, 0, 0, false, 0, Waiting, {})
  }

  datatype Action =
    | Create
    | CountThread
    | Join
    | Interrupt            // the waiter receives SIGINT and enters the reaper
    | OtherSignal          // the waiter receives any other signal
    | Spurious             // the condition variable wakes the reaper for no reason
    | Recheck              // the woken reaper looks at the counter again
    | Check(emitter: nat)  // an emitter asks whether to quit

  predicate Finished(s: State, thread: nat) {
    if thread == 0 then s.waiter.Done? else thread in s.gone
  }

  predicate Enabled(s: State, a: Action) {
    match a
    case Create => s.created == s.counted && s.created <= s.n
    case CountThread => s.counted < s.created
    case Join => s.counted == s.n + 1 && s.joined <= s.n && Finished(s, s.joined)
    case Interrupt => s.created > 0 && s.waiter.Waiting?
    case OtherSignal => s.created > 0 && s.waiter.Waiting?
    case Spurious => s.waiter.Asleep?
    case Recheck => s.waiter.Awake?
    case Check(i) => 1 <= i < s.created && i !in s.gone
  }

  /** As long as more than one thread is counted the reaper sleeps. */
  function Reaping(cntr: int): Waiter {
    if cntr > 1 then Asleep else Done
  }

  function Effect(s: State, a: Action): State
    requires Enabled(s, a)
  {
    match a
    case Create => s.(created := s.created + 1)
    case CountThread => s.(counted := s.counted + 1, cntr := s.cntr + 1)
    case Join => s.(joined := s.joined + 1)
    case Interrupt => s.(quit := true, waiter := Reaping(s.cntr))
    case OtherSignal => s
    case Spurious => s.(waiter := Awake)
    case Recheck => s.(waiter := Reaping(s.cntr))
    case Check(i) =>
      if !s.quit then s
      else s.(cntr := s.cntr - 1, gone := s.gone + {i}, waiter := if s.waiter.Asleep? then Awake else s.waiter)
  }

  /** A run: every action is enabled where it happens. */
  ghost predicate IsRun(n: nat, run: seq<Action>)
    decreases |run|, 0
  {
    run == [] || (IsRun(n, run[..|run| - 1]) && Enabled(After(n, run[..|run| - 1]), run[|run| - 1]))
  }

  ghost function After(n: nat, run: seq<Action>): State
    requires IsRun(n, run)
    decreases |run|, 1
  {
    if run == [] then Init(n) else Effect(After(n, run[..|run| - 1]), run[|run| - 1])
  }

  // ----- emitters -----

  /** Thread numbers of the emitters created so far. */
  function Emitters(created: nat): (es: set<nat>)
    ensures |es| == (if created == 0 then 0 else created - 1) && forall i :: i in es <==> 1 <= i < created
  {
    if created <= 1 then {} else Emitters(created - 1) + {created - 1}
  }

  lemma {:induction false} SubsetIsSmaller(a: set<nat>, b: set<nat>)
    requires a <= b
    ensures |a| <= |b| && (|a| == |b| ==> a == b)
    decreases |a|
  {
    if a == {} {
      assert |b| == 0 ==> b == {};
    } else {
      var x :| x in a;
      SubsetIsSmaller(a - {x}, b - {x});
      assert a == (a - {x}) + {x} && b == (b - {x}) + {x};
    }
  }

  // ----- what every step keeps -----

  predicate Inv(s: State) {
    && s.counted <= s.created <= s.counted + 1 && s.created <= s.n + 1
    && s.joined <= s.counted && (s.joined > 0 ==> s.counted == s.n + 1)
    && s.gone <= Emitters(s.created)
    && s.cntr == s.counted - |s.gone|
    && (s.quit <==> !s.waiter.Waiting?) && (s.gone != {} ==> s.quit) && (s.created == 0 ==> !s.quit)
    && (s.waiter.Asleep? ==> s.cntr > 1)
    && (forall t | 0 <= t < s.joined :: Finished(s, t))
  }

  lemma StepKeeps(s: State, a: Action)
    requires Inv(s) && Enabled(s, a)
    ensures Inv(Effect(s, a))
  {
    var s' := Effect(s, a);
    forall t | 0 <= t < s'.joined
      ensures Finished(s', t)
    {
      assert t < s.joined ==> Finished(s, t);
      assert s.joined > 0 ==> Finished(s, 0);
    }
    match a
    case Check(i) =>
      if s.quit {
        assert s'.gone == s.gone + {i} && |s'.gone| == |s.gone| + 1;
      }
    case _ =>
  }

  lemma {:induction false} RunKeeps(n: nat, run: seq<Action>)
    requires IsRun(n, run)
    ensures Inv(After(n, run)) && After(n, run).n == n
  {
    if run == [] {
    } else {
      RunKeeps(n, run[..|run| - 1]);
      StepKeeps(After(n, run[..|run| - 1]), run[|run| - 1]);
    }
  }

  /** The counter is the number of counted threads without the emitters that quit. */
  lemma CounterExactly(n: nat, run: seq<Action>)
    requires IsRun(n, run)
    ensures After(n, run).cntr == After(n, run).counted - |After(n, run).gone|
  {
    RunKeeps(n, run);
  }

  lemma SomeEmitterLeft(s: State) returns (i: nat)
    requires Inv(s) && |s.gone| < s.created - 1
    ensures 1 <= i < s.created && i !in s.gone
  {
    var left := Emitters(s.created) - s.gone;
    SubsetIsSmaller(s.gone, Emitters(s.created));
    assert left != {};
    i :| i in left;
  }

  /** No lost wakeup: while the reaper sleeps, an emitter exists that will still wake it. */
  lemma SleeperWillBeWoken(n: nat, run: seq<Action>) returns (i: nat)
    requires IsRun(n, run) && After(n, run).waiter.Asleep?
    ensures After(n, run).cntr > 1 && After(n, run).quit
    ensures Enabled(After(n, run), Check(i)) && Effect(After(n, run), Check(i)).waiter.Awake?
  {
    RunKeeps(n, run);
    i := SomeEmitterLeft(After(n, run));
  }

  ghost predicate Returns(s: State, a: Action) {
    Enabled(s, a) && !s.waiter.Done? && Effect(s, a).waiter.Done?
  }

  /**
   When the reaper returns, all created emitters have quit if and only if main has counted all
   threads it has created, or the counter is zero. Otherwise one emitter is left: main has
   created a thread that it has not counted yet, and the counter stands at one.
   */
  lemma ReaperReturns(n: nat, run: seq<Action>, a: Action)
    requires IsRun(n, run) && Returns(After(n, run), a)
    ensures var s := After(n, run);
      && (s.gone == Emitters(s.created) <==> s.created == s.counted || s.cntr == 0)
      && s.created - 1 - |s.gone| <= s.created - s.counted <= 1
      && (s.gone != Emitters(s.created) ==> s.cntr == 1 && |s.gone| == s.created - 2)
  {
    var s := After(n, run);
    RunKeeps(n, run);
    SubsetIsSmaller(s.gone, Emitters(s.created));
  }

  /** Every emitter has quit when the reaper returns if and only if all were created, and counted or gone. */
  lemma AllAreReapedExactly(n: nat, run: seq<Action>, a: Action)
    requires IsRun(n, run) && Returns(After(n, run), a)
    ensures var s := After(n, run);
      (forall i | 1 <= i <= n :: i in s.gone) <==> n == 0 || (s.created == n + 1 && (s.counted == n + 1 || s.cntr == 0))
  {
    var s := After(n, run);
    RunKeeps(n, run);
    ReaperReturns(n, run, a);
    if n > 0 && forall i | 1 <= i <= n :: i in s.gone {
      assert n in s.gone && n in Emitters(s.created);
      assert forall i :: i in Emitters(s.created) ==> i in s.gone;
      assert s.gone == Emitters(s.created);
    }
  }

  /** Once main has counted all threads, the reaper returns only after every emitter has quit. */
  lemma AllAreReaped(n: nat, run: seq<Action>, a: Action)
    requires IsRun(n, run) && Returns(After(n, run), a) && After(n, run).counted == n + 1
    ensures forall i | 1 <= i <= n :: i in After(n, run).gone
  {
    RunKeeps(n, run);
    ReaperReturns(n, run, a);
  }

  /** A SIGINT makes the reaper return at once if and only if at most one thread is counted; no emitter is gone then. */
  lemma EarlyInterrupt(n: nat, run: seq<Action>)
    requires IsRun(n, run) && Enabled(After(n, run), Interrupt)
    ensures Returns(After(n, run), Interrupt) <==> After(n, run).counted <= 1
    ensures After(n, run).gone == {}
  {
    RunKeeps(n, run);
  }

  lemma RunMore(n: nat, run: seq<Action>, a: Action)
    requires IsRun(n, run) && Enabled(After(n, run), a)
    ensures IsRun(n, run + [a]) && After(n, run + [a]) == Effect(After(n, run), a)
  {
    assert (run + [a])[..|run|] == run;
  }

  /** A run in which it returns at once, before any emitter is created. */
  lemma EarlyInterruptHappens(n: nat) returns (run: seq<Action>)
    requires n > 0
    ensures IsRun(n, run) && run == [Create, CountThread, Interrupt]
    ensures var s := After(n, run); s.waiter.Done? && s.gone == {} && s.created < n + 1
  {
    run := [];
    RunMore(n, run, Create);
    run := run + [Create];
    RunMore(n, run, CountThread);
    run := run + [CountThread];
    RunMore(n, run, Interrupt);
    run := run + [Interrupt];
  }

  /**
   And one in which two threads were counted before the SIGINT: an emitter that is not yet
   counted quits first, and the reaper returns while the counted one lives.
   */
  lemma LateEmitterHappens() returns (run: seq<Action>)
    ensures IsRun(2, run) && run == [Create, CountThread, Create, CountThread, Create, Interrupt, Check(2)]
    ensures var s := After(2, run); Returns(s, Recheck) && s.gone == {2} && s.counted == 2 && s.created == 3
  {
    run := [];
    RunMore(2, run, Create);
    run := run + [Create];
    RunMore(2, run, CountThread);
    run := run + [CountThread];
    RunMore(2, run, Create);
    run := run + [Create];
    RunMore(2, run, CountThread);
    run := run + [CountThread];
    RunMore(2, run, Create);
    run := run + [Create];
    RunMore(2, run, Interrupt);
    run := run + [Interrupt];
    RunMore(2, run, Check(2));
    run := run + [Check(2)];
  }

  // ----- the end -----

  function WaiterWork(w: Waiter): nat {
    match w
    case Waiting => 3
    case Awake => 2
    case Asleep => 1
    case Done => 0
  }

  /** What is left to do. */
  function Work(s: State): int {
    3 * (s.n + 1 - s.created) + 3 * (s.n + 1 - s.counted) + 3 * (s.n - |s.gone|) + (s.n + 1 - s.joined) + WaiterWork(s.waiter)
  }

  lemma WorkIsLeft(s: State)
    requires Inv(s)
    ensures Work(s) >= 0
  {
    SubsetIsSmaller(s.gone, Emitters(s.created));
  }

  /** Once the quit flag is set, every step but a spurious wakeup gets something done: no run goes on forever. */
  lemma WorkGetsDone(s: State, a: Action)
    requires Inv(s) && s.quit && Enabled(s, a) && !a.Spurious?
    ensures 0 <= Work(Effect(s, a)) < Work(s) && Effect(s, a).quit
  {
    StepKeeps(s, a);
    WorkIsLeft(Effect(s, a));
    match a
    case Check(i) => assert |s.gone + {i}| == |s.gone| + 1;
    case _ =>
  }

  /** So the steps that can follow are bounded by the work that is left. */
  lemma {:induction false} ShutdownIsBounded(n: nat, run: seq<Action>, more: seq<Action>)
    requires IsRun(n, run) && IsRun(n, run + more) && After(n, run).quit
    requires forall k | 0 <= k < |more| :: !more[k].Spurious?
    ensures After(n, run + more).quit && |more| + Work(After(n, run + more)) <= Work(After(n, run))
  {
    if more == [] {
      assert run + more == run;
    } else {
      var m := |more| - 1;
      assert (run + more)[..|run + more| - 1] == run + more[..m];
      ShutdownIsBounded(n, run, more[..m]);
      RunKeeps(n, run + more[..m]);
      WorkGetsDone(After(n, run + more[..m]), more[m]);
    }
  }

  /** Nor does it get stuck: as long as main has not joined all threads, some step is enabled. */
  lemma NoDeadlock(n: nat, run: seq<Action>) returns (a: Action)
    requires IsRun(n, run) && After(n, run).quit && After(n, run).joined <= n
    ensures Enabled(After(n, run), a) && !a.Spurious?
  {
    var s := After(n, run);
    RunKeeps(n, run);
    if s.counted < s.created {
      a := CountThread;
    } else if s.created <= n {
      a := Create;
    } else if s.waiter.Awake? {
      a := Recheck;
    } else if |s.gone| < n {
      var i := SomeEmitterLeft(s);
      a := Check(i);
    } else {
      SubsetIsSmaller(s.gone, Emitters(s.created));
      a := Join;
    }
  }

  /** At the end every emitter is gone, the reaper has returned and one thread is counted: the waiter. */
  lemma FinalState(n: nat, run: seq<Action>)
    requires IsRun(n, run) && After(n, run).joined == n + 1
    ensures var s := After(n, run); s.waiter.Done? && s.gone == Emitters(n + 1) && s.cntr == 1
  {
    var s := After(n, run);
    RunKeeps(n, run);
    forall i | i in Emitters(n + 1)
      ensures i in s.gone
    {
      assert Finished(s, i);
    }
    assert Finished(s, 0);
    assert s.gone == Emitters(n + 1);
  }

  // ----- the critical sections -----

  /** The part of the state that the threads share. */
  class ControlBlock {
    var quit: bool
    var cntr: int

    constructor ()
      ensures !quit && cntr == 0
    {
      quit, cntr := false, 0;
    }

    ghost predicate Shows(s: State)
      reads this
    {
      quit == s.quit && cntr == s.cntr
    }

    method IncrementCount(ghost s: State) returns (ghost s': State)
      requires Shows(s) && Enabled(s, CountThread)
      modifies this`cntr
      ensures s' == Effect(s, CountThread) && Shows(s')
    {
      cntr := cntr + 1;
      s' := Effect(s, CountThread);
    }

    /** True tells the emitter to leave; the condition variable is signalled then. */
    method ShouldQuit(ghost s: State, ghost emitter: nat) returns (res: bool, ghost s': State)
      requires Shows(s) && Enabled(s, Check(emitter))
      modifies this`cntr
      ensures s' == Effect(s, Check(emitter)) && Shows(s')
      ensures res <==> emitter in s'.gone
    {
      res := false;
      if quit {
        cntr := cntr - 1;
        res := true;
      }
      s' := Effect(s, Check(emitter));
    }

    /** The head of the reaper; true means that it waits. */
    method BeginReap(ghost s: State) returns (waits: bool, ghost s': State)
      requires Shows(s) && Enabled(s, Interrupt)
      modifies this`quit
      ensures s' == Effect(s, Interrupt) && Shows(s') && (waits <==> s'.waiter.Asleep?)
    {
      quit := true;
      waits := cntr > 1;
      s' := Effect(s, Interrupt);
    }

    /** The loop test behind a wakeup. */
    method ReapAgain(ghost s: State) returns (waits: bool, ghost s': State)
      requires Shows(s) && Enabled(s, Recheck)
      ensures s' == Effect(s, Recheck) && Shows(s') && (waits <==> s'.waiter.Asleep?)
      ensures waits <==> cntr > 1
    {
      waits := cntr > 1;
      s' := Effect(s, Recheck);
    }
  }
}
