/**
 The sources of a submission and how they are put together
 (source/clients/common/ocs_client_parse.cc): three defaults files, the job script and the
 command line.
 */
module Sources {
  import opened Options
  import opened CommandLine
  import opened ScriptOptions

  datatype Input = Absent | NotOpened | NotRead | Holds(text: string)

  /** A defaults file; two paths with one `id` name the same file. */
  datatype DefaultsFile = DefaultsFile(id: nat, input: Input)

  // ----- defaults files -----

  predicate AlreadyRead(files: seq<DefaultsFile>, k: nat)
    requires k < |files|
  {
    exists x | 0 <= x < k :: files[x].id == files[k].id
  }

  /** A file that is absent, was read before or cannot be opened adds nothing. */
  function FileRecords(files: seq<DefaultsFile>, k: nat, rd: Reader): Outcome
    requires k < |files|
  {
    match files[k].input
    case Absent => Parsed([])
    case NotOpened => Parsed([])
    case NotRead => if AlreadyRead(files, k) then Parsed([]) else Failed(CannotRead)
    case Holds(text) =>
      if AlreadyRead(files, k) then Parsed([])
      else
        var r := TextRecords(text, "", rd);
        if r == Failed(CannotOpen) then Parsed([]) else r
  }

  /** The records of each file from the `k`-th on; an error other than a failing open ends it. */
  function DefaultsFrom(files: seq<DefaultsFile>, k: nat, rd: Reader): Outcome
    requires k <= |files|
    decreases |files| - k, 1
  {
    if k == |files| then Parsed([]) else DefaultsNext(files, k, rd)
  }

  function DefaultsNext(files: seq<DefaultsFile>, k: nat, rd: Reader): Outcome
    requires k < |files|
    decreases |files| - k, 0
  {
    Joined(FileRecords(files, k, rd), DefaultsFrom(files, k + 1, rd))
  }

  /** Is one of the paths in front of the `k`-th the same file? */
  method ReadBefore(files: seq<DefaultsFile>, k: nat) returns (read: bool)
    requires k < |files|
    ensures read <==> AlreadyRead(files, k)
  {
    read := false;
    var p := 0;
    while p < k && !read
      invariant 0 <= p <= k && (read <==> exists x | 0 <= x < p :: files[x].id == files[k].id)
    {
      read := files[p].id == files[k].id;
      p := p + 1;
    }
  }

  method ReadFile(files: seq<DefaultsFile>, k: nat, rd: Reader) returns (r: Outcome)
    requires k < |files|
    ensures r == FileRecords(files, k, rd)
  {
    r := Parsed([]);
    if files[k].input.Absent? {
      return;
    }
    var read := ReadBefore(files, k);
    if read {
      return;
    }
    match files[k].input
    case Absent => assert false;
    case NotOpened => return;
    case NotRead => return Failed(CannotRead);
    case Holds(text) =>
      var parsed := ParseText(text, "", rd);
      if parsed != Failed(CannotOpen) {
        r := parsed;
      }
  }

  method ReadDefaults(files: seq<DefaultsFile>, rd: Reader) returns (r: Outcome)
    ensures r == DefaultsFrom(files, 0, rd)
  {
    var opts: seq<Record> := [];
    var k := 0;
    while k < |files|
      invariant 0 <= k <= |files|
      invariant DefaultsFrom(files, 0, rd) == Joined(Parsed(opts), DefaultsFrom(files, k, rd))
    {
      var file := ReadFile(files, k, rd);
      JoinedAssociates(Parsed(opts), file, DefaultsFrom(files, k + 1, rd));
      if file.Failed? {
        return file;
      }
      opts := opts + file.records;
      k := k + 1;
    }
    r := Parsed(opts);
  }

  // ----- the job script -----

  const DEFAULT_PREFIX := "#$"

  /** The first -C on the command line decides; None switches the scan off. */
  function DirectivePrefix(cmd: seq<Record>): Option<string> {
    var k := Find(cmd, Prefix);
    if k < |cmd| then cmd[k].value.text else Some(DEFAULT_PREFIX)
  }

  function ScriptRecords(cmd: seq<Record>, input: Input, rd: Reader): Outcome {
    match input
    case Absent => Failed(CannotOpen)
    case NotOpened => Failed(CannotOpen)
    case NotRead => Failed(CannotRead)
    case Holds(text) =>
      if text == [] && Find(cmd, Script) == |cmd| then Failed(NoInput)
      else
        var r := if DirectivePrefix(cmd).Some? then TextRecords(text, DirectivePrefix(cmd).value, rd) else Parsed([]);
        if r.Failed? then r else Parsed(r.records + ScriptPseudos(text))
  }

  function ScriptPseudos(text: string): seq<Record> {
    [Record(ScriptLength, None, Value(|text|, None, []), 0, Global), TextRecord(ScriptText, text)]
  }

  method ReadScript(cmd: seq<Record>, input: Input, rd: Reader) returns (r: Outcome)
    ensures r == ScriptRecords(cmd, input, rd)
  {
    match input
    case Absent => return Failed(CannotOpen);
    case NotOpened => return Failed(CannotOpen);
    case NotRead => return Failed(CannotRead);
    case Holds(text) =>
      if text == [] && Find(cmd, Script) == |cmd| {
        return Failed(NoInput);
      }
      r := Parsed([]);
      if DirectivePrefix(cmd).Some? {
        r := ParseText(text, DirectivePrefix(cmd).value, rd);
      }
      if r.Parsed? {
        r := Parsed(r.records + ScriptPseudos(text));
      }
  }

  // ----- the merge -----

  /** The -q records of the right list replace those of the left one. */
  function Overridden(left: seq<Record>, right: seq<Record>): seq<Record> {
    if Only(right, Queue) == [] then left + right else Without(left, Queue) + right
  }

  /** Elements move over one by one; the first -q among them drops those already there. */
  method Override(left: seq<Record>, right: seq<Record>) returns (all: seq<Record>)
    ensures all == Overridden(left, right)
  {
    all := left;
    var overridden := false;
    var k := 0;
    while k < |right|
      invariant 0 <= k <= |right|
      invariant overridden <==> Only(right[..k], Queue) != []
      invariant all == (if overridden then Without(left, Queue) else left) + right[..k]
    {
      assert right[..k + 1] == right[..k] + [right[k]];
      OnlyConcat(right[..k], [right[k]], Queue);
      if right[k].sw == Queue && !overridden {
        NoneLeft(right[..k], Queue);
        NoneOf(right[..k], Queue);
        OnlyConcat(left, right[..k], Queue);
        all := Without(all, Queue);
        overridden := true;
      }
      all := all + [right[k]];
      k := k + 1;
    }
    assert right[..k] == right;
  }

  const ERROR_VERIFY := 2

  const VALIDATE_ERROR := Record(Validate, Some("e"), Value(ERROR_VERIFY, None, []), 0, Global)

  /** -ar without -w stands for -w e as well. */
  function WithValidation(all: seq<Record>): seq<Record> {
    if Only(all, Reservation) != [] && Only(all, Validate) == [] then all + [VALIDATE_ERROR] else all
  }

  function Merged(defaults: seq<Record>, script: seq<Record>, cmd: seq<Record>): seq<Record> {
    WithValidation(Overridden(Overridden(defaults, script), cmd))
  }

  method Merge(defaults: seq<Record>, script: seq<Record>, cmd: seq<Record>) returns (all: seq<Record>)
    ensures all == Merged(defaults, script, cmd)
  {
    all := Override(defaults, script);
    all := Override(all, cmd);
    NoneLeft(all, Reservation);
    NoneLeft(all, Validate);
    if Find(all, Reservation) < |all| && Find(all, Validate) == |all| {
      all := all + [VALIDATE_ERROR];
    }
  }
}
