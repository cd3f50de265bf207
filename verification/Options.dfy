/**
 The records of the submit option pipeline: one record per recognised option or operand,
 kept in an ordered list (`SPA_Type` in the source), and the list laws the stages rest on.
 */
module Options {

  datatype Option<T> = None | Some(value: T)

  datatype Scope = Global | Master | Slave

  /** The switches the job builder knows, the pseudo-arguments, and all other names. */
  datatype Switch =
    | Sync | Binary | BindType | BindAmount | BindInstance | BindUnit | BindFilter | BindSort
    | BindStart | BindStop | BindStrategy | NoShell | Tasks | TaskLimit
    | Clear
    | StartTime | Account | Reservation | Deadline | Interval | Checkpoint | Prefix | Department | Jsv
    | StderrPath | Hold | Hard | Help | HoldJid | HoldJidArray | Join | Jid | Resource | MailOptions
    | MailList | Name | Notify | Now | StdoutPath | StdinPath | Priority | JobShare | Project
    | Allocation | Parallel | Queue | MasterQueue | Reserve | Pty | Restart | ScopeWord | Soft
    | ShellPath | Terse | User | EnvAll | Env | AddContext | DeleteContext | SetContext
    | Verify | Validate | WorkDir
    | Script | ScriptLength | ScriptText | JobArg | JobId
    | Operand
    | Other(name: string)   // options that are for others to handle; all start with a dash

  /** An entry of a list argument: a name and a value, either of which may be missing. */
  datatype Item = Item(name: Option<string>, value: Option<string>)

  function Named(word: string): Item {
    Item(Some(word), None)
  }

  /** What an argument parser makes of an argument. */
  datatype Value = Value(number: int, text: Option<string>, items: seq<Item>)

  const NOTHING := Value(0, None, [])

  /** `hardSoft` and `scope` are set for requests only; 2 means soft, 0 and 1 mean hard. */
  datatype Record = Record(sw: Switch, arg: Option<string>, value: Value, hardSoft: int, scope: Scope)

  /** Pseudo-arguments and operands: their switch text does not start with a dash. */
  predicate IsPseudo(sw: Switch) {
    sw == Script || sw == ScriptLength || sw == ScriptText || sw == JobArg || sw == JobId || sw == Operand
  }

  // ----- the records of one switch -----

  function Only(s: seq<Record>, sw: Switch): seq<Record> {
    if s == [] then []
    else if s[0].sw == sw then [s[0]] + Only(s[1..], sw)
    else Only(s[1..], sw)
  }

  function Without(s: seq<Record>, sw: Switch): seq<Record> {
    if s == [] then []
    else if s[0].sw == sw then Without(s[1..], sw)
    else [s[0]] + Without(s[1..], sw)
  }

  /** The first record with the switch, or the length of the list. */
  function Find(s: seq<Record>, sw: Switch): (k: nat)
    ensures k <= |s| && (k < |s| ==> s[k].sw == sw) && forall x | 0 <= x < k :: s[x].sw != sw
  {
    if s == [] then 0
    else if s[0].sw == sw then 0
    else
      assert forall x | 1 <= x < |s| :: s[x] == s[1..][x - 1];
      1 + Find(s[1..], sw)
  }

  function RemoveAt(s: seq<Record>, k: nat): seq<Record>
    requires k < |s|
  {
    s[..k] + s[k + 1..]
  }

  lemma ConcatFirst(a: seq<Record>, b: seq<Record>)
    ensures a == [] ==> a + b == b
    ensures a != [] ==> (a + b)[0] == a[0] && (a + b)[1..] == a[1..] + b
  {
  }

  lemma ConcatLast(a: seq<Record>, b: seq<Record>)
    ensures b == [] ==> a + b == a
    ensures b != [] ==> (a + b)[|a + b| - 1] == b[|b| - 1] && (a + b)[..|a + b| - 1] == a + b[..|b| - 1]
  {
  }

  lemma {:induction false} OnlyConcat(a: seq<Record>, b: seq<Record>, sw: Switch)
    ensures Only(a + b, sw) == Only(a, sw) + Only(b, sw)
    ensures Without(a + b, sw) == Without(a, sw) + Without(b, sw)
  {
    if a == [] {
      assert a + b == b;
    } else {
      assert (a + b)[0] == a[0] && (a + b)[1..] == a[1..] + b;
      OnlyConcat(a[1..], b, sw);
      if a[0].sw == sw {
        assert [a[0]] + (Only(a[1..], sw) + Only(b, sw)) == ([a[0]] + Only(a[1..], sw)) + Only(b, sw);
      } else {
        assert [a[0]] + (Without(a[1..], sw) + Without(b, sw)) == ([a[0]] + Without(a[1..], sw)) + Without(b, sw);
      }
    }
  }

  lemma OnlyLast(s: seq<Record>, n: nat, sw: Switch)
    requires |s| == n + 1
    ensures Only(s, sw) == Only(s[..n], sw) + if s[n].sw == sw then [s[n]] else []
  {
    assert s == s[..n] + [s[n]];
    OnlyConcat(s[..n], [s[n]], sw);
  }

  lemma {:induction false} NoneOf(s: seq<Record>, sw: Switch)
    requires forall x | 0 <= x < |s| :: s[x].sw != sw
    ensures Only(s, sw) == [] && Without(s, sw) == s
  {
    if s == [] {
    } else {
      NoneOf(s[1..], sw);
    }
  }

  lemma SplitAt(s: seq<Record>, k: nat)
    requires k < |s|
    ensures s == s[..k] + ([s[k]] + s[k + 1..])
  {
  }

  /** Taking the first record of a switch: it leads the records of the switch and no other record moves. */
  lemma TakeFirst(s: seq<Record>, sw: Switch)
    requires Find(s, sw) < |s|
    ensures var k := Find(s, sw);
      Only(s, sw) == [s[k]] + Only(RemoveAt(s, k), sw) && Without(s, sw) == Without(RemoveAt(s, k), sw)
  {
    var k := Find(s, sw);
    SplitAt(s, k);
    OnlyConcat(s[..k], [s[k]] + s[k + 1..], sw);
    OnlyConcat([s[k]], s[k + 1..], sw);
    OnlyConcat(s[..k], s[k + 1..], sw);
    NoneOf(s[..k], sw);
    assert Only([s[k]], sw) == [s[k]] && Without([s[k]], sw) == [];
  }

  /** Removing one record leaves the records of every other switch alone. */
  lemma RemoveOther(s: seq<Record>, k: nat, sw: Switch)
    requires k < |s| && s[k].sw != sw
    ensures Only(RemoveAt(s, k), sw) == Only(s, sw)
  {
    SplitAt(s, k);
    OnlyConcat(s[..k], [s[k]] + s[k + 1..], sw);
    OnlyConcat([s[k]], s[k + 1..], sw);
    OnlyConcat(s[..k], s[k + 1..], sw);
  }

  lemma {:induction false} NoneLeft(s: seq<Record>, sw: Switch)
    ensures Only(s, sw) == [] <==> Find(s, sw) == |s|
    ensures Only(Without(s, sw), sw) == []
  {
    if s == [] {
    } else {
      NoneLeft(s[1..], sw);
    }
  }

  lemma {:induction false} OnlyWithout(s: seq<Record>, sw: Switch, other: Switch)
    requires sw != other
    ensures Only(Without(s, other), sw) == Only(s, sw)
    ensures Only(Only(s, other), sw) == []
  {
    if s == [] {
    } else {
      OnlyWithout(s[1..], sw, other);
    }
  }

  // ----- what is done to a job -----

  /** A record is used, the lists of a switch are compressed, or -masterq moves queue requests. */
  datatype Deed = Took(record: Record) | Collapsed(sw: Switch) | ShiftedQueues

  function Takes(rs: seq<Record>): seq<Deed> {
    if rs == [] then [] else Takes(rs[..|rs| - 1]) + [Took(rs[|rs| - 1])]
  }

  function RecordsOf(log: seq<Deed>): seq<Record> {
    if log == [] then []
    else
      var last := log[|log| - 1];
      RecordsOf(log[..|log| - 1]) + if last.Took? then [last.record] else []
  }

  lemma {:induction false} RecordsConcat(a: seq<Deed>, b: seq<Deed>)
    ensures RecordsOf(a + b) == RecordsOf(a) + RecordsOf(b)
  {
    if b == [] {
      assert a + b == a;
    } else {
      assert (a + b)[..|a + b| - 1] == a + b[..|b| - 1];
      RecordsConcat(a, b[..|b| - 1]);
    }
  }

  lemma {:induction false} RecordsOfTakes(rs: seq<Record>)
    ensures RecordsOf(Takes(rs)) == rs
  {
    if rs == [] {
    } else {
      var n := |rs| - 1;
      RecordsOfTakes(rs[..n]);
      assert Takes(rs)[..|Takes(rs[..n])|] == Takes(rs[..n]);
      assert rs == rs[..n] + [rs[n]];
    }
  }

  // ----- what -clear leaves -----

  /** The records of a switch that no later -clear kills. */
  function Surviving(s: seq<Record>, sw: Switch): seq<Record> {
    if s == [] then []
    else
      var last := s[|s| - 1];
      if last.sw == Clear then []
      else Surviving(s[..|s| - 1], sw) + (if last.sw == sw then [last] else [])
  }

  predicate HasClear(s: seq<Record>) {
    exists k | 0 <= k < |s| :: s[k].sw == Clear
  }

  lemma HasClearLast(s: seq<Record>)
    requires s != []
    ensures HasClear(s) <==> HasClear(s[..|s| - 1]) || s[|s| - 1].sw == Clear
  {
    var n := |s| - 1;
    if HasClear(s) && s[n].sw != Clear {
      var k :| 0 <= k < |s| && s[k].sw == Clear;
      assert s[..n][k].sw == Clear;
    }
  }

  /** Precedence between two sources: the later one adds its records, or replaces all if it clears. */
  lemma {:induction false} SurvivingConcat(a: seq<Record>, b: seq<Record>, sw: Switch)
    ensures Surviving(a + b, sw) == if HasClear(b) then Surviving(b, sw) else Surviving(a, sw) + Surviving(b, sw)
  {
    ConcatLast(a, b);
    if b == [] {
    } else {
      SurvivingConcat(a, b[..|b| - 1], sw);
      HasClearLast(b);
    }
  }

  lemma SurvivingLast(s: seq<Record>, r: Record, sw: Switch)
    ensures Surviving(s + [r], sw) == if r.sw == Clear then [] else Surviving(s, sw) + (if r.sw == sw then [r] else [])
  {
    assert (s + [r])[..|s|] == s;
  }

  /** A record of another switch in front of a list changes nothing. */
  lemma SurvivingSkip(r: Record, b: seq<Record>, sw: Switch)
    requires r.sw != sw && r.sw != Clear
    ensures Surviving([r] + b, sw) == Surviving(b, sw) && (HasClear([r] + b) <==> HasClear(b))
  {
    SurvivingConcat([r], b, sw);
    SurvivingLast([], r, sw);
    assert [] + [r] == [r];
    HasClearSkip(r, b);
  }

  lemma HasClearSkip(r: Record, b: seq<Record>)
    requires r.sw != Clear
    ensures HasClear([r] + b) <==> HasClear(b)
  {
    var t := [r] + b;
    if HasClear(b) {
      var k :| 0 <= k < |b| && b[k].sw == Clear;
      assert t[k + 1].sw == Clear;
    }
    if HasClear(t) {
      var k :| 0 <= k < |t| && t[k].sw == Clear;
      assert b[k - 1].sw == Clear;
    }
  }

  lemma RemoveSurviving(s: seq<Record>, k: nat, sw: Switch)
    requires k < |s| && s[k].sw != sw && s[k].sw != Clear
    ensures Surviving(RemoveAt(s, k), sw) == Surviving(s, sw)
  {
    var a, r, b := s[..k], s[k], s[k + 1..];
    SplitAt(s, k);
    SurvivingSkip(r, b, sw);
    SurvivingConcat(a, [r] + b, sw);
    SurvivingConcat(a, b, sw);
  }

  lemma {:induction false} SurvivingAll(s: seq<Record>, sw: Switch)
    requires !HasClear(s)
    ensures Surviving(s, sw) == Only(s, sw)
  {
    if s == [] {
    } else {
      SurvivingAll(s[..|s| - 1], sw);
      OnlyLast(s, |s| - 1, sw);
    }
  }

  lemma {:induction false} SurvivingIsShorter(s: seq<Record>, sw: Switch)
    ensures |Surviving(s, sw)| <= |Only(s, sw)|
  {
    if s == [] {
    } else {
      SurvivingIsShorter(s[..|s| - 1], sw);
      OnlyLast(s, |s| - 1, sw);
    }
  }

  lemma {:induction false} OnlyOnly(s: seq<Record>, sw: Switch)
    ensures Only(Only(s, sw), sw) == Only(s, sw)
  {
    if s == [] {
    } else {
      OnlyOnly(s[1..], sw);
    }
  }

  lemma {:induction false} OnlyHas(s: seq<Record>, sw: Switch, k: nat)
    requires k < |Only(s, sw)|
    ensures Only(s, sw)[k].sw == sw
  {
    if s[0].sw == sw && k == 0 {
      assert Only(s, sw)[0] == s[0];
    } else {
      OnlyHas(s[1..], sw, if s[0].sw == sw then k - 1 else k);
    }
  }

  lemma {:induction false} SurvivingHas(s: seq<Record>, sw: Switch, k: nat)
    requires k < |Surviving(s, sw)|
    ensures Surviving(s, sw)[k].sw == sw
  {
    var n := |s| - 1;
    if k == |Surviving(s[..n], sw)| {
      assert Surviving(s, sw)[k] == s[n];
    } else {
      SurvivingHas(s[..n], sw, k);
    }
  }

  function FirstOf(s: seq<Record>): seq<Record> {
    if s == [] then [] else [s[0]]
  }

  function RestOf(s: seq<Record>): seq<Record> {
    if s == [] then [] else s[1..]
  }

  /** What -clear leaves once the first record of a switch is gone: one less, if that one would have stayed. */
  function RestIfFirstSurvives(s: seq<Record>, sw: Switch): seq<Record> {
    if |Surviving(s, sw)| == |Only(s, sw)| then RestOf(Surviving(s, sw)) else Surviving(s, sw)
  }

  lemma FirstSurvives(a: seq<Record>, r: Record, b: seq<Record>, sw: Switch)
    requires r.sw == sw != Clear && Only(a, sw) == []
    ensures Surviving((a + [r]) + b, sw) == (if HasClear(b) then [] else [r]) + Surviving(b, sw)
  {
    SurvivingIsShorter(a, sw);
    SurvivingLast(a, r, sw);
    SurvivingConcat(a + [r], b, sw);
  }

  lemma NoneSurvives(a: seq<Record>, b: seq<Record>, sw: Switch)
    requires Only(a, sw) == []
    ensures Surviving(a + b, sw) == Surviving(b, sw)
  {
    SurvivingIsShorter(a, sw);
    SurvivingConcat(a, b, sw);
  }

  lemma OneMore(a: seq<Record>, r: Record, b: seq<Record>, sw: Switch)
    requires r.sw == sw && Only(a, sw) == []
    ensures |Only((a + [r]) + b, sw)| == 1 + |Only(b, sw)|
  {
    OnlyConcat(a + [r], b, sw);
    OnlyConcat(a, [r], sw);
  }

  lemma RemoveFirstSurviving(s: seq<Record>, sw: Switch)
    requires sw != Clear && Find(s, sw) < |s|
    ensures Surviving(RemoveAt(s, Find(s, sw)), sw) == RestIfFirstSurvives(s, sw)
  {
    var k := Find(s, sw);
    var a, r, b := s[..k], s[k], s[k + 1..];
    NoneOf(a, sw);
    assert s == (a + [r]) + b;
    FirstSurvives(a, r, b, sw);
    NoneSurvives(a, b, sw);
    OneMore(a, r, b, sw);
    SurvivingIsShorter(b, sw);
    if !HasClear(b) {
      SurvivingAll(b, sw);
    }
  }
}
