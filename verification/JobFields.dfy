/**
 What each record does to the job, and the job that a log of deeds gives.
 */
module JobFields {
  import opened Options
  import opened Items

  datatype Field = Field(sw: Switch, scope: Scope, soft: bool)

  /** The job fields the options set, named after their switches; an unset field is absent. */
  datatype Job = Job(texts: map<Field, Option<string>>, numbers: map<Field, int>, lists: map<Field, seq<Item>>,
                     notHeld: seq<Item>, userHeld: seq<Item>)

  const BASE_PRIORITY := 1024

  const ONE_TASK := [Named("1")]

  /** A new job: one task, not held, and the environment it is set up with. */
  function Fresh(env: seq<Item>): Job {
    Job(map[], map[], map[F(Env) := env], ONE_TASK, [])
  }

  function F(sw: Switch): Field {
    Field(sw, Global, false)
  }

  function TextOf(job: Job, f: Field): Option<string> {
    if f in job.texts then job.texts[f] else None
  }

  function ListOf(job: Job, f: Field): seq<Item> {
    if f in job.lists then job.lists[f] else []
  }

  // ----- which fields a record sets -----

  /** How a switch acts on the job: most replace a value or add to a list. */
  datatype Effect = SetText | SetNumber | AppendItems | MergeItems | Request | Special

  function EffectOf(sw: Switch): Effect {
    match sw
    case Account | Checkpoint | Prefix | Department | Name | Project => SetText
    case WorkDir | Script | ScriptText | BindFilter | BindSort => SetText
    case Sync | Binary | NoShell | TaskLimit | BindType | BindAmount => SetNumber
    case BindInstance | BindUnit | BindStart | BindStop | BindStrategy | StartTime => SetNumber
    case Reservation | Deadline | Join | Notify | Now | Priority => SetNumber
    case JobShare | Reserve | Pty | Restart | Verify | Validate => SetNumber
    case ScriptLength => SetNumber
    case Jsv | HoldJid | HoldJidArray | Jid | User | JobArg => AppendItems
    case StderrPath | StdoutPath | StdinPath | ShellPath | MailList | Env => MergeItems
    case Resource | Queue | MasterQueue => Request
    case _ => Special
  }

  function TextField(r: Record): Option<Field> {
    if EffectOf(r.sw) == SetText || r.sw == Parallel then Some(F(r.sw))
    else if r.sw == Allocation then Some(Field(Allocation, r.scope, false))
    else None
  }

  function TextIn(r: Record): Option<string> {
    if r.sw == Allocation then r.arg else r.value.text
  }

  /** -c sets an interval, or with a text an occasion specifier. */
  function NumberField(r: Record): Option<Field> {
    if EffectOf(r.sw) == SetNumber then Some(F(r.sw))
    else if r.sw == Interval then Some(Field(Interval, Global, r.value.text.Some?))
    else None
  }

  function NumberIn(r: Record): int {
    match r.sw
    case Binary => if r.value.number == 1 then 1 else 0
    case NoShell => if r.value.number == 1 then 0 else 1
    case Now => if r.value.number == 0 then 0 else 1
    case Notify => 1
    case Verify => 1
    case Priority => BASE_PRIORITY + r.value.number
    case _ => r.value.number
  }

  /** Where the items of a request go; -masterq has no soft list. */
  function RequestField(r: Record): Field {
    if r.sw == MasterQueue then Field(Queue, r.scope, false) else Field(r.sw, r.scope, r.hardSoft >= 2)
  }

  predicate IsContextSwitch(sw: Switch) {
    sw == AddContext || sw == DeleteContext || sw == SetContext
  }

  function ListField(r: Record): Option<Field> {
    if EffectOf(r.sw) == Request then Some(RequestField(r))
    else if EffectOf(r.sw) == AppendItems || EffectOf(r.sw) == MergeItems then Some(F(r.sw))
    else if r.sw == Parallel || r.sw == MailOptions || r.sw == Tasks then Some(F(r.sw))
    else if IsContextSwitch(r.sw) then Some(F(SetContext))
    else None
  }

  /** A job argument is its text; of a -jsv list the first entry counts. */
  function ItemsIn(r: Record): seq<Item> {
    if r.sw == JobArg then [Named(if r.value.text.Some? then r.value.text.value else [])]
    else if r.sw == Jsv then (if r.value.items == [] then [] else [r.value.items[0]])
    else r.value.items
  }

  /** The list that a record makes of the one before. */
  function ListAfter(before: seq<Item>, r: Record): seq<Item> {
    if EffectOf(r.sw) == MergeItems then MergedInto(before, ItemsIn(r))
    else if r.sw == Parallel || r.sw == Tasks then ItemsIn(r)
    else if r.sw == MailOptions && Named("n") in ItemsIn(r) then []
    else before + ItemsIn(r)
  }

  // ----- one deed -----

  function TextsAfter(job: Job, r: Record): map<Field, Option<string>> {
    match TextField(r)
    case Some(f) => job.texts[f := TextIn(r)]
    case None => job.texts
  }

  function NumbersAfter(job: Job, r: Record): map<Field, int> {
    match NumberField(r)
    case Some(f) => job.numbers[f := NumberIn(r)]
    case None => job.numbers
  }

  function ListsAfter(job: Job, r: Record): map<Field, seq<Item>> {
    match ListField(r)
    case Some(f) => job.lists[f := ListAfter(ListOf(job, f), r)]
    case None => job.lists
  }

  predicate IsUserHold(r: Record) {
    r.sw == Hold && r.value.number % 2 == 1
  }

  function Apply(job: Job, r: Record): Job {
    Job(TextsAfter(job, r), NumbersAfter(job, r), ListsAfter(job, r),
        if r.sw == Tasks then r.value.items else if IsUserHold(r) then [] else job.notHeld,
        if r.sw == Tasks then [] else if IsUserHold(r) then job.notHeld else job.userHeld)
  }

  /** Does the job have a request set of the global scope? */
  predicate HasGlobalSet(job: Job) {
    || ListOf(job, Field(Resource, Global, false)) != [] || ListOf(job, Field(Resource, Global, true)) != []
    || ListOf(job, Field(Queue, Global, false)) != [] || ListOf(job, Field(Queue, Global, true)) != []
    || Field(Allocation, Global, false) in job.texts
  }

  function Shifted(job: Job): map<Field, seq<Item>> {
    if !HasGlobalSet(job) then job.lists
    else job.lists[Field(Queue, Slave, false) := ListOf(job, Field(Queue, Global, false))]
                  [Field(Queue, Slave, true) := ListOf(job, Field(Queue, Global, true))]
                  [Field(Queue, Global, false) := []][Field(Queue, Global, true) := []]
  }

  function Do(job: Job, d: Deed): Job {
    match d
    case Took(r) => Apply(job, r)
    case Collapsed(sw) =>
      job.(lists := map f | f in job.lists :: if f.sw == sw then Compressed(job.lists[f]) else job.lists[f])
    case ShiftedQueues => job.(lists := Shifted(job))
  }

  function Fold(job: Job, log: seq<Deed>): Job
    decreases |log|, 1
  {
    if log == [] then job else FoldEnd(job, log)
  }

  function FoldEnd(job: Job, log: seq<Deed>): Job
    requires log != []
    decreases |log|, 0
  {
    Do(Fold(job, log[..|log| - 1]), log[|log| - 1])
  }

  lemma FoldLast(job: Job, log: seq<Deed>, d: Deed)
    ensures Fold(job, log + [d]) == Do(Fold(job, log), d)
  {
    assert (log + [d])[..|log|] == log;
  }

  lemma {:induction false} FoldConcat(job: Job, a: seq<Deed>, b: seq<Deed>)
    ensures Fold(job, a + b) == Fold(Fold(job, a), b)
  {
    if b == [] {
      assert a + b == a;
    } else {
      assert (a + b)[..|a + b| - 1] == a + b[..|b| - 1];
      FoldConcat(job, a, b[..|b| - 1]);
    }
  }

  // ----- texts and numbers: the last record that sets a field decides -----

  /** Does the record set the text or number field? */
  predicate Hits(r: Record, f: Field) {
    TextField(r) == Some(f) || NumberField(r) == Some(f)
  }

  function LastHit(rs: seq<Record>, f: Field): Option<Record>
    decreases |rs|, 1
  {
    if rs == [] then None else LastHitEnd(rs, f)
  }

  function LastHitEnd(rs: seq<Record>, f: Field): Option<Record>
    requires rs != []
    decreases |rs|, 0
  {
    if Hits(rs[|rs| - 1], f) then Some(rs[|rs| - 1]) else LastHit(rs[..|rs| - 1], f)
  }

  predicate IsTextField(f: Field) {
    || (f == F(f.sw) && (EffectOf(f.sw) == SetText || f.sw == Parallel))
    || (f.sw == Allocation && !f.soft)
  }

  predicate IsNumberField(f: Field) {
    (f == F(f.sw) && EffectOf(f.sw) == SetNumber) || (f.sw == Interval && f.scope == Global)
  }

  lemma HitsItsField(r: Record, f: Field)
    ensures Hits(r, f) ==> r.sw == f.sw
    ensures IsTextField(f) ==> (Hits(r, f) <==> TextField(r) == Some(f))
    ensures IsNumberField(f) ==> (Hits(r, f) <==> NumberField(r) == Some(f))
  {
  }

  /** A simple field is hit by every record of its switch. */
  lemma HitsByAll(r: Record, f: Field)
    requires f == F(f.sw) && (EffectOf(f.sw) == SetText || EffectOf(f.sw) == SetNumber || f.sw == Parallel)
    ensures Hits(r, f) <==> r.sw == f.sw
  {
  }

  lemma LastHitLast(rs: seq<Record>, r: Record, f: Field)
    ensures LastHit(rs + [r], f) == if Hits(r, f) then Some(r) else LastHit(rs, f)
  {
    assert (rs + [r])[..|rs|] == rs;
  }

  lemma {:induction false} LastHitConcat(a: seq<Record>, b: seq<Record>, f: Field)
    ensures LastHit(a + b, f) == if LastHit(b, f).Some? then LastHit(b, f) else LastHit(a, f)
  {
    ConcatLast(a, b);
    if b == [] {
    } else {
      LastHitConcat(a, b[..|b| - 1], f);
    }
  }

  lemma {:induction false} LastHitOnly(rs: seq<Record>, f: Field)
    ensures LastHit(Only(rs, f.sw), f) == LastHit(rs, f)
  {
    if rs == [] {
    } else {
      var n := |rs| - 1;
      LastHitOnly(rs[..n], f);
      OnlyLast(rs, n, f.sw);
      HitsItsField(rs[n], f);
      if rs[n].sw == f.sw {
        LastHitLast(Only(rs[..n], f.sw), rs[n], f);
      } else {
        assert Only(rs, f.sw) == Only(rs[..n], f.sw);
      }
    }
  }

  lemma {:induction false} LastHitIsLast(rs: seq<Record>, f: Field)
    requires f == F(f.sw) && (EffectOf(f.sw) == SetText || EffectOf(f.sw) == SetNumber || f.sw == Parallel)
    requires forall k | 0 <= k < |rs| :: rs[k].sw == f.sw
    ensures LastHit(rs, f) == if rs == [] then None else Some(rs[|rs| - 1])
  {
    if rs == [] {
    } else {
      HitsByAll(rs[|rs| - 1], f);
    }
  }

  lemma DoText(job: Job, d: Deed, f: Field)
    requires IsTextField(f)
    ensures TextOf(Do(job, d), f) == if d.Took? && Hits(d.record, f) then TextIn(d.record) else TextOf(job, f)
  {
    if d.Took? {
      HitsItsField(d.record, f);
    }
  }

  lemma DoNumber(job: Job, d: Deed, f: Field)
    requires IsNumberField(f)
    ensures var before, after := job.numbers, Do(job, d).numbers;
      if d.Took? && Hits(d.record, f) then f in after && after[f] == NumberIn(d.record)
      else (f in after <==> f in before) && (f in after ==> after[f] == before[f])
  {
    if d.Took? {
      HitsItsField(d.record, f);
    }
  }

  lemma RecordsLast(log: seq<Deed>, n: nat, f: Field)
    requires |log| == n + 1
    ensures LastHit(RecordsOf(log), f)
      == if log[n].Took? && Hits(log[n].record, f) then Some(log[n].record) else LastHit(RecordsOf(log[..n]), f)
  {
    if log[n].Took? {
      LastHitLast(RecordsOf(log[..n]), log[n].record, f);
    } else {
      assert RecordsOf(log) == RecordsOf(log[..n]);
    }
  }

  /** A text field has the text of the last record that sets it. */
  lemma {:induction false} TextIsLast(env: seq<Item>, log: seq<Deed>, f: Field)
    requires IsTextField(f)
    ensures var w := LastHit(RecordsOf(log), f);
      TextOf(Fold(Fresh(env), log), f) == if w.None? then None else TextIn(w.value)
  {
    if log == [] {
    } else {
      var n := |log| - 1;
      TextIsLast(env, log[..n], f);
      RecordsLast(log, n, f);
      DoText(Fold(Fresh(env), log[..n]), log[n], f);
    }
  }

  lemma DoSetsText(job: Job, d: Deed, f: Field)
    requires IsTextField(f)
    ensures f in Do(job, d).texts <==> f in job.texts || (d.Took? && Hits(d.record, f))
  {
    if d.Took? {
      HitsItsField(d.record, f);
    }
  }

  /** A text field is set exactly if some record sets it. */
  lemma {:induction false} TextIsSet(env: seq<Item>, log: seq<Deed>, f: Field)
    requires IsTextField(f)
    ensures f in Fold(Fresh(env), log).texts <==> LastHit(RecordsOf(log), f).Some?
  {
    if log == [] {
    } else {
      var n := |log| - 1;
      TextIsSet(env, log[..n], f);
      RecordsLast(log, n, f);
      DoSetsText(Fold(Fresh(env), log[..n]), log[n], f);
    }
  }

  /** A number field has the number of the last record that sets it. */
  lemma {:induction false} NumberIsLast(env: seq<Item>, log: seq<Deed>, f: Field)
    requires IsNumberField(f)
    ensures var w := LastHit(RecordsOf(log), f); var numbers := Fold(Fresh(env), log).numbers;
      if w.None? then f !in numbers else f in numbers && numbers[f] == NumberIn(w.value)
  {
    if log == [] {
    } else {
      var n := |log| - 1;
      NumberIsLast(env, log[..n], f);
      RecordsLast(log, n, f);
      DoNumber(Fold(Fresh(env), log[..n]), log[n], f);
    }
  }

  // ----- lists -----

  /** What the records make of a list, one after the other. */
  function ListThrough(before: seq<Item>, rs: seq<Record>, f: Field): seq<Item> {
    if rs == [] then before else ListNext(ListThrough(before, rs[..|rs| - 1], f), rs[|rs| - 1], f)
  }

  function ListNext(list: seq<Item>, r: Record, f: Field): seq<Item> {
    if ListField(r) == Some(f) then ListAfter(list, r) else list
  }

  lemma DoList(job: Job, d: Deed, f: Field)
    requires d.Took?
    ensures ListOf(Do(job, d), f) == ListNext(ListOf(job, f), d.record, f)
  {
  }

  lemma DoCollapse(job: Job, sw: Switch, f: Field)
    ensures ListOf(Do(job, Collapsed(sw)), f) == if f.sw == sw then Compressed(ListOf(job, f)) else ListOf(job, f)
  {
  }

  lemma DoShift(job: Job, f: Field)
    requires f.sw != Queue
    ensures ListOf(Do(job, ShiftedQueues), f) == ListOf(job, f)
  {
  }

  lemma {:induction false} FoldTakes(job: Job, rs: seq<Record>, f: Field)
    ensures ListOf(Fold(job, Takes(rs)), f) == ListThrough(ListOf(job, f), rs, f)
  {
    if rs == [] {
    } else {
      var n := |rs| - 1;
      FoldTakes(job, rs[..n], f);
      FoldLast(job, Takes(rs[..n]), Took(rs[n]));
      DoList(Fold(job, Takes(rs[..n])), Took(rs[n]), f);
    }
  }

  /** A record of another switch leaves a list alone. */
  predicate MayFeed(sw: Switch, f: Field) {
    sw == f.sw || (sw == MasterQueue && f.sw == Queue) || (IsContextSwitch(sw) && f.sw == SetContext)
  }

  lemma FeedsItsField(r: Record, f: Field)
    requires ListField(r) == Some(f)
    ensures MayFeed(r.sw, f)
  {
  }

  lemma {:induction false} ListUnfed(before: seq<Item>, rs: seq<Record>, f: Field)
    requires forall k | 0 <= k < |rs| :: !MayFeed(rs[k].sw, f)
    ensures ListThrough(before, rs, f) == before
  {
    if rs == [] {
    } else {
      var n := |rs| - 1;
      ListUnfed(before, rs[..n], f);
      if ListField(rs[n]) == Some(f) {
        FeedsItsField(rs[n], f);
      }
    }
  }

  /** The items that the records bring to a field. */
  function Contribution(rs: seq<Record>, f: Field): seq<Item> {
    if rs == [] then [] else Contribution(rs[..|rs| - 1], f) + Added(rs[|rs| - 1], f)
  }

  function Added(r: Record, f: Field): seq<Item> {
    if ListField(r) == Some(f) then ItemsIn(r) else []
  }

  /** Lists that grow at their end only. */
  predicate IsAppended(f: Field) {
    EffectOf(f.sw) == AppendItems || EffectOf(f.sw) == Request || f.sw == SetContext
  }

  lemma AppendsItems(before: seq<Item>, r: Record, f: Field)
    requires IsAppended(f)
    ensures ListNext(before, r, f) == before + Added(r, f)
  {
  }

  lemma ItemsAssociate(a: seq<Item>, b: seq<Item>, c: seq<Item>)
    ensures (a + b) + c == a + (b + c)
  {
  }

  lemma {:induction false} ListAppended(before: seq<Item>, rs: seq<Record>, f: Field)
    requires IsAppended(f)
    ensures ListThrough(before, rs, f) == before + Contribution(rs, f)
  {
    if rs == [] {
    } else {
      var n := |rs| - 1;
      ListAppended(before, rs[..n], f);
      AppendsItems(ListThrough(before, rs[..n], f), rs[n], f);
      ItemsAssociate(before, Contribution(rs[..n], f), Added(rs[n], f));
    }
  }

  lemma {:induction false} ContributionConcat(a: seq<Record>, b: seq<Record>, f: Field)
    ensures Contribution(a + b, f) == Contribution(a, f) + Contribution(b, f)
  {
    ConcatLast(a, b);
    if b == [] {
    } else {
      var n := |b| - 1;
      ContributionConcat(a, b[..n], f);
      ItemsAssociate(Contribution(a, f), Contribution(b[..n], f), Added(b[n], f));
    }
  }

  // ----- holds -----

  function UserHolds(rs: seq<Record>): nat {
    if rs == [] then 0 else UserHolds(rs[..|rs| - 1]) + if IsUserHold(rs[|rs| - 1]) then 1 else 0
  }

  lemma UserHoldsLast(rs: seq<Record>, r: Record)
    ensures UserHolds(rs + [r]) == UserHolds(rs) + if IsUserHold(r) then 1 else 0
  {
    assert (rs + [r])[..|rs|] == rs;
  }

  lemma DoHold(job: Job, d: Deed)
    requires d.Took? ==> d.record.sw != Tasks
    ensures var j := Do(job, d);
      if d.Took? && IsUserHold(d.record) then j.userHeld == job.notHeld && j.notHeld == []
      else j.userHeld == job.userHeld && j.notHeld == job.notHeld
  {
  }

  lemma HoldsLast(log: seq<Deed>, n: nat)
    requires |log| == n + 1 && Only(RecordsOf(log), Tasks) == []
    ensures Only(RecordsOf(log[..n]), Tasks) == [] && (log[n].Took? ==> log[n].record.sw != Tasks)
    ensures UserHolds(RecordsOf(log))
      == UserHolds(RecordsOf(log[..n])) + if log[n].Took? && IsUserHold(log[n].record) then 1 else 0
  {
    var rs := RecordsOf(log[..n]);
    if log[n].Took? {
      OnlyConcat(rs, [log[n].record], Tasks);
      UserHoldsLast(rs, log[n].record);
    } else {
      assert RecordsOf(log) == rs;
    }
  }

  /** -h parks all tasks in the user hold list; a second -h copies the list it has just emptied. */
  lemma {:induction false} HoldsOf(job: Job, log: seq<Deed>)
    requires Only(RecordsOf(log), Tasks) == [] && job.userHeld == []
    ensures var j := Fold(job, log); var n := UserHolds(RecordsOf(log));
      && j.notHeld == (if n == 0 then job.notHeld else [])
      && j.userHeld == (if n == 1 then job.notHeld else [])
  {
    if log == [] {
    } else {
      var n := |log| - 1;
      HoldsLast(log, n);
      HoldsOf(job, log[..n]);
      DoHold(Fold(job, log[..n]), log[n]);
    }
  }
}
