/**
 The error memory as a whole: the two latches, the passing error, the suppression of bind
 errors and the log, over every history of events.
 */
module ErrorMemory {
  import opened ErrorLatch

  datatype Code = Ok | AccessDenied | NotUnique | BindSocket | Other(number: int)

  datatype Level = Error | Warning | Info | Debug | Off

  datatype Event =
    | Report(code: Code, now: int, alreadyLogged: bool, level: Level)
    | Suppress(on: bool)
    | Reset

  datatype Memory = Memory(error: Code, wasError: bool, lastError: Code, denied: Latch, notUnique: Latch, suppress: bool)

  const INITIAL := Memory(Ok, false, Ok, DOWN, DOWN, false)

  // ----- one event -----

  predicate IsLogged(m: Memory, e: Event) {
    e.Report? && !e.alreadyLogged && m.lastError != e.code
  }

  /** A bind error while ports are probed is logged for debugging only. */
  function LevelOf(m: Memory, e: Event): Level
    requires e.Report?
  {
    if m.suppress && e.code == BindSocket then Debug else e.level
  }

  function Step(m: Memory, e: Event): Memory {
    match e
    case Report(code, now, _, _) =>
      var wasError := m.wasError || code.Other? || (code.BindSocket? && !m.suppress);
      Memory(code, wasError, if IsLogged(m, e) then code else m.lastError,
             if code.AccessDenied? then Reported(m.denied, now) else m.denied,
             if code.NotUnique? then Reported(m.notUnique, now) else m.notUnique,
             m.suppress)
    case Suppress(on) => m.(suppress := on)
    case Reset => m.(error := Ok, wasError := false, lastError := Ok)
  }

  function Replay(es: seq<Event>): Memory {
    if es == [] then INITIAL else Step(Replay(es[..|es| - 1]), es[|es| - 1])
  }

  /** What the application is told: a refused connection before a doubled endpoint. */
  function Answer(m: Memory): Code {
    if m.denied.up then AccessDenied else if m.notUnique.up then NotUnique else Ok
  }

  // ----- the latches over histories -----

  /** The times at which an error is reported. */
  function Times(es: seq<Event>, code: Code): seq<int> {
    if es == [] then []
    else
      var e := es[|es| - 1];
      Times(es[..|es| - 1], code) + if e.Report? && e.code == code then [e.now] else []
  }

  lemma AfterLast(ts: seq<int>, now: int)
    ensures After(ts + [now]) == Reported(After(ts), now)
  {
    assert (ts + [now])[..|ts|] == ts;
  }

  /** Each latch sees the reports of its own error only; nothing else moves it. */
  lemma {:induction false} LatchesAreIndependent(es: seq<Event>)
    ensures Replay(es).denied == After(Times(es, AccessDenied))
    ensures Replay(es).notUnique == After(Times(es, NotUnique))
  {
    if es == [] {
    } else {
      var init, e := es[..|es| - 1], es[|es| - 1];
      LatchesAreIndependent(init);
      assert forall code :: Times(init, code) + [] == Times(init, code);
      if e.Report? {
        AfterLast(Times(init, AccessDenied), e.now);
        AfterLast(Times(init, NotUnique), e.now);
      }
    }
  }

  /** What the application is told, from the report times alone. */
  lemma AnswerExactly(es: seq<Event>)
    ensures Answer(Replay(es)) ==
      if HasLongWindow(Rising(Times(es, AccessDenied))) then AccessDenied
      else if HasLongWindow(Rising(Times(es, NotUnique))) then NotUnique
      else Ok
  {
    LatchesAreIndependent(es);
    LatchExactly(Times(es, AccessDenied));
    LatchExactly(Times(es, NotUnique));
  }

  /** No later event takes a latch down, the reset included. */
  lemma {:induction false} LatchesAreSticky(es: seq<Event>, more: seq<Event>)
    ensures Replay(es).denied.up ==> Replay(es + more).denied == Replay(es).denied
    ensures Replay(es).notUnique.up ==> Replay(es + more).notUnique == Replay(es).notUnique
  {
    if more == [] {
      assert es + more == es;
    } else {
      var n := |more| - 1;
      LatchesAreSticky(es, more[..n]);
      assert (es + more)[..|es + more| - 1] == es + more[..n];
    }
  }

  // ----- the passing error -----

  /** The last Suppress before the `k`-th event decides. */
  function SuppressedAt(es: seq<Event>, k: nat): bool
    requires k <= |es|
  {
    if k == 0 then false
    else if es[k - 1].Suppress? then es[k - 1].on
    else SuppressedAt(es, k - 1)
  }

  predicate IsHardError(es: seq<Event>, k: nat)
    requires k < |es|
  {
    es[k].Report? && (es[k].code.Other? || (es[k].code.BindSocket? && !SuppressedAt(es, k)))
  }

  /** A hard error with no reset behind it. */
  predicate IsPending(es: seq<Event>, k: nat) {
    k < |es| && IsHardError(es, k) && forall x | k < x < |es| :: !es[x].Reset?
  }

  lemma {:induction false} SuppressedIn(es: seq<Event>, n: nat, k: nat)
    requires k <= n <= |es|
    ensures SuppressedAt(es[..n], k) == SuppressedAt(es, k)
  {
    if k == 0 {
    } else {
      SuppressedIn(es, n, k - 1);
    }
  }

  lemma PendingIn(es: seq<Event>, n: nat, k: nat)
    requires |es| == n + 1 && k < n
    ensures IsPending(es, k) <==> IsPending(es[..n], k) && !es[n].Reset?
  {
    SuppressedIn(es, n, k);
  }

  lemma {:induction false} SuppressionExactly(es: seq<Event>)
    ensures Replay(es).suppress == SuppressedAt(es, |es|)
  {
    if es == [] {
    } else {
      SuppressionExactly(es[..|es| - 1]);
      SuppressedIn(es, |es| - 1, |es| - 1);
    }
  }

  /** The passing error stands for a hard error since the last reset; a probed port is none. */
  lemma {:induction false} PassingErrorExactly(es: seq<Event>)
    ensures Replay(es).wasError <==> exists k: nat :: IsPending(es, k)
  {
    if es == [] {
    } else {
      var n := |es| - 1;
      PassingErrorExactly(es[..n]);
      SuppressionExactly(es[..n]);
      SuppressedIn(es, n, n);
      if Replay(es[..n]).wasError && !es[n].Reset? {
        var k: nat :| IsPending(es[..n], k);
        PendingIn(es, n, k);
      }
      assert IsPending(es, n) <==> IsHardError(es, n);
      if k: nat :| IsPending(es, k) && k < n {
        PendingIn(es, n, k);
      }
    }
  }

  // ----- the log -----

  predicate LoggedAt(es: seq<Event>, k: nat) {
    k < |es| && IsLogged(Replay(es[..k]), es[k])
  }

  lemma {:induction false} LastErrorStays(es: seq<Event>, i: nat, k: nat)
    requires i < k <= |es| && LoggedAt(es, i)
    requires forall x | i < x < k :: !LoggedAt(es, x) && !es[x].Reset?
    ensures Replay(es[..k]).lastError == es[i].code
    decreases k
  {
    assert es[..k][..k - 1] == es[..k - 1];
    if k == i + 1 {
      assert es[..k][i] == es[i];
    } else {
      LastErrorStays(es, i, k - 1);
      assert !LoggedAt(es, k - 1);
    }
  }

  /** Of two messages logged one after the other, without a reset between them, no two are the same. */
  lemma LogDoesNotRepeat(es: seq<Event>, i: nat, k: nat)
    requires i < k && LoggedAt(es, i) && LoggedAt(es, k)
    requires forall x | i < x < k :: !LoggedAt(es, x) && !es[x].Reset?
    ensures es[i].code != es[k].code
  {
    LastErrorStays(es, i, k);
  }

  // ----- the functions of the source -----

  class Clock {
    var time: int
    var counter: int

    function Value(): Timer
      reads this
    {
      Timer(time, counter)
    }

    constructor ()
      ensures Value() == Timer(0, 0)
    {
      time, counter := 0, 0;
    }

    /** Count a second at most once; start over after a long silence. */
    method HandleTimeout(now: int) returns (ret: bool)
      modifies this
      ensures Value() == Counted(old(Value()), now) && ret == Rings(old(Value()), now)
    {
      ret := false;
      if now - time > 3 * READ_TIMEOUT {
        time, counter := 0, 0;
      }
      if time < now {
        var diff := if time == 0 then 1 else now - time;
        counter := counter + diff;
        if counter > 2 * READ_TIMEOUT {
          ret := true;
        }
        time := now;
      }
    }
  }

  class Communication {
    var error: Code
    var wasError: bool
    var lastError: Code
    var denied: bool
    const deniedClock: Clock
    var notUnique: bool
    const notUniqueClock: Clock
    var suppress: bool

    ghost predicate Valid() {
      deniedClock != notUniqueClock
    }

    function Value(): Memory
      reads this, deniedClock, notUniqueClock
    {
      Memory(error, wasError, lastError, Latch(denied, deniedClock.Value()), Latch(notUnique, notUniqueClock.Value()), suppress)
    }

    constructor ()
      ensures Valid() && fresh(deniedClock) && fresh(notUniqueClock) && Value() == INITIAL
    {
      error, wasError, lastError, denied, notUnique, suppress := Ok, false, Ok, false, false, false;
      deniedClock := new Clock();
      notUniqueClock := new Clock();
    }

    /** The error callback; `logged` is what goes to the log. */
    method Callback(code: Code, now: int, alreadyLogged: bool, level: Level) returns (logged: bool, effective: Level)
      requires Valid()
      modifies this, deniedClock, notUniqueClock
      ensures var e := Report(code, now, alreadyLogged, level);
        && Value() == Step(old(Value()), e)
        && logged == IsLogged(old(Value()), e) && effective == (if logged then LevelOf(old(Value()), e) else Off)
    {
      error := code;
      match code {
        case Ok =>
        case AccessDenied =>
          if !denied {
            denied := deniedClock.HandleTimeout(now);
          }
        case NotUnique =>
          if !notUnique {
            notUnique := notUniqueClock.HandleTimeout(now);
          }
        case BindSocket =>
          if !suppress {
            wasError := true;
          }
        case Other(_) =>
          wasError := true;
      }
      logged, effective := false, Off;
      if !alreadyLogged && lastError != error {
        lastError := error;
        logged, effective := true, level;
        if suppress && code == BindSocket {
          effective := Debug;
        }
      }
    }

    method SetSuppressBindErrors(on: bool)
      requires Valid()
      modifies this`suppress
      ensures Value() == Step(old(Value()), Suppress(on))
    {
      suppress := on;
    }

    method ResetApplicationError()
      requires Valid()
      modifies this`error, this`wasError, this`lastError
      ensures Value() == Step(old(Value()), Reset)
    {
      error, wasError, lastError := Ok, false, Ok;
    }

    method GetApplicationError() returns (ret: Code)
      ensures ret == Answer(Value())
    {
      ret := Ok;
      if notUnique {
        ret := NotUnique;
      }
      if denied {
        ret := AccessDenied;
      }
    }
  }
}
