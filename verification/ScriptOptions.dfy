/**
 Options embedded in a text (`parse_script_file` in source/common/parse_job_cull.cc): the
 directive lines of a job script, or all lines of a defaults file.

 Texts are C strings. How a directive is split into words is a parameter.
 */
module ScriptOptions {
  import opened Options
  import opened CommandLine

  datatype Reader = Reader(words: string -> seq<string>, parsers: Parsers, prog: Prog)

  predicate IsSpace(c: char) {
    c == ' ' || '\t' <= c <= '\r'
  }

  // ----- lines -----

  /** The first newline at or behind `pos`, or the end. */
  function LineEnd(text: string, pos: nat): (e: nat)
    requires pos <= |text|
    ensures pos <= e <= |text| && (e < |text| ==> text[e] == '\n')
    ensures forall k | pos <= k < e :: text[k] != '\n'
    decreases |text| - pos
  {
    if pos == |text| || text[pos] == '\n' then pos else LineEnd(text, pos + 1)
  }

  function NextLine(text: string, pos: nat): (next: nat)
    requires pos < |text|
    ensures pos < next <= |text|
  {
    var e := LineEnd(text, pos);
    if e == |text| then e else e + 1
  }

  function Lines(text: string, pos: nat): seq<string>
    requires pos <= |text|
    decreases |text| - pos
  {
    if pos == |text| then [] else [text[pos..LineEnd(text, pos)]] + Lines(text, NextLine(text, pos))
  }

  function Glued(lines: seq<string>): string {
    if lines == [] then [] else lines[0] + ['\n'] + Glued(lines[1..])
  }

  /** The text from `pos` on, with the newline that its last line may lack. */
  function Ended(text: string, pos: nat): string
    requires pos <= |text|
  {
    text[pos..] + if pos == |text| || text[|text| - 1] == '\n' then [] else ['\n']
  }

  lemma EndedSplits(text: string, pos: nat)
    requires pos < |text|
    ensures Ended(text, pos) == text[pos..LineEnd(text, pos)] + ['\n'] + Ended(text, NextLine(text, pos))
  {
    var e := LineEnd(text, pos);
    if e < |text| {
      assert text[pos..] == text[pos..e] + ['\n'] + text[e + 1..];
    }
  }

  /** The lines, each with its newline, are the text: nothing is skipped and nothing is read twice. */
  lemma {:induction false} LinesRejoin(text: string, pos: nat)
    requires pos <= |text|
    ensures Glued(Lines(text, pos)) == Ended(text, pos)
    decreases |text| - pos
  {
    if pos == |text| {
    } else {
      var next := NextLine(text, pos);
      LinesRejoin(text, next);
      EndedSplits(text, pos);
      assert Lines(text, pos)[1..] == Lines(text, next);
    }
  }

  lemma {:induction false} LinesAreLines(text: string, pos: nat, k: nat)
    requires pos <= |text| && k < |Lines(text, pos)|
    ensures '\n' !in Lines(text, pos)[k]
    decreases k
  {
    if k == 0 {
    } else {
      LinesAreLines(text, NextLine(text, pos), k - 1);
    }
  }

  // ----- the directive of a line -----

  function SkipSpace(s: string): string {
    if s != [] && IsSpace(s[0]) then SkipSpace(s[1..]) else s
  }

  function CutAtHash(s: string): string {
    if s == [] || s[0] == '#' then [] else [s[0]] + CutAtHash(s[1..])
  }

  function TrimEnd(s: string): string {
    if s != [] && IsSpace(s[|s| - 1]) then TrimEnd(s[..|s| - 1]) else s
  }

  /** A text of blanks only is left as it is. */
  function Trimmed(s: string): string {
    if TrimEnd(s) == [] then s else TrimEnd(s)
  }

  /** None: the line holds no options. With an empty prefix every line counts but comment lines. */
  function Directive(line: string, prefix: string): Option<string> {
    if prefix == [] then
      if line != [] && line[0] == '#' then None else Some(Trimmed(CutAtHash(line)))
    else if prefix <= line then Some(Trimmed(CutAtHash(SkipSpace(line[|prefix|..]))))
    else None
  }

  predicate AllSpace(s: string) {
    forall k | 0 <= k < |s| :: IsSpace(s[k])
  }

  lemma {:induction false} SkipSpaceSplits(s: string) returns (lead: string)
    ensures s == lead + SkipSpace(s) && AllSpace(lead)
    ensures SkipSpace(s) != [] ==> !IsSpace(SkipSpace(s)[0])
  {
    if s != [] && IsSpace(s[0]) {
      var lead' := SkipSpaceSplits(s[1..]);
      lead := [s[0]] + lead';
    } else {
      lead := [];
    }
  }

  lemma {:induction false} CutSplits(s: string) returns (rest: string)
    ensures s == CutAtHash(s) + rest && '#' !in CutAtHash(s) && (rest != [] ==> rest[0] == '#')
  {
    if s == [] || s[0] == '#' {
      rest := s;
    } else {
      rest := CutSplits(s[1..]);
    }
  }

  lemma {:induction false} TrimSplits(s: string) returns (trail: string)
    ensures s == TrimEnd(s) + trail && AllSpace(trail)
    ensures TrimEnd(s) != [] ==> !IsSpace(TrimEnd(s)[|TrimEnd(s)| - 1])
  {
    if s != [] && IsSpace(s[|s| - 1]) {
      var trail' := TrimSplits(s[..|s| - 1]);
      trail := trail' + [s[|s| - 1]];
    } else {
      trail := [];
    }
  }

  /** `d` without the blanks behind it; or blanks only. */
  lemma TrimmedSplits(s: string) returns (trail: string)
    ensures s == Trimmed(s) + trail && AllSpace(trail)
    ensures AllSpace(s) || (Trimmed(s) != [] && !IsSpace(Trimmed(s)[|Trimmed(s)| - 1]))
    ensures AllSpace(s) ==> Trimmed(s) == s
  {
    trail := TrimSplits(s);
    if TrimEnd(s) == [] {
      trail := [];
    } else {
      var t := TrimEnd(s);
      assert s[|t| - 1] == t[|t| - 1];
    }
  }

  /** The part of a line that is cut and trimmed. */
  function Candidate(line: string, prefix: string): string
    requires prefix <= line
  {
    if prefix == [] then line else SkipSpace(line[|prefix|..])
  }

  lemma CandidateSplits(line: string, prefix: string) returns (lead: string)
    requires prefix <= line
    ensures line == prefix + lead + Candidate(line, prefix) && AllSpace(lead) && (prefix == [] ==> lead == [])
    ensures prefix != [] && Candidate(line, prefix) != [] ==> !IsSpace(Candidate(line, prefix)[0])
  {
    if prefix == [] {
      lead := [];
    } else {
      lead := SkipSpaceSplits(line[|prefix|..]);
      assert line == prefix + line[|prefix|..];
    }
  }

  predicate IsDirective(line: string, prefix: string) {
    prefix <= line && !(prefix == [] && line != [] && line[0] == '#')
  }

  lemma DirectiveIs(line: string, prefix: string) returns (cut: string, d: string)
    requires IsDirective(line, prefix)
    ensures cut == CutAtHash(Candidate(line, prefix)) && d == Trimmed(cut) && Directive(line, prefix) == Some(d)
  {
    cut := CutAtHash(Candidate(line, prefix));
    d := Trimmed(cut);
  }

  /** What a directive is: the line without its prefix, the blanks around it and the comment behind it. */
  lemma DirectiveShape(line: string, prefix: string) returns (lead: string, d: string, trail: string, rest: string)
    requires IsDirective(line, prefix)
    ensures Directive(line, prefix) == Some(d)
    ensures line == prefix + lead + (d + trail + rest)
    ensures AllSpace(lead) && AllSpace(trail) && '#' !in d && (rest != [] ==> rest[0] == '#')
    ensures prefix == [] ==> lead == [] && (d != [] && IsSpace(d[|d| - 1]) ==> AllSpace(d))
    ensures prefix != [] && d != [] ==> !IsSpace(d[0]) && !IsSpace(d[|d| - 1])
  {
    lead := CandidateSplits(line, prefix);
    rest := CutSplits(Candidate(line, prefix));
    var cut;
    cut, d := DirectiveIs(line, prefix);
    trail := TrimmedSplits(cut);
    if d != [] {
      assert d[0] == cut[0] == Candidate(line, prefix)[0];
    }
  }

  lemma CutStep(s: string, i: nat)
    requires i <= |s| && CutAtHash(s) == s[..i] + CutAtHash(s[i..])
    ensures i == |s| || s[i] == '#' ==> CutAtHash(s) == s[..i]
    ensures i < |s| && s[i] != '#' ==> CutAtHash(s) == s[..i + 1] + CutAtHash(s[i + 1..])
  {
    if i < |s| && s[i] != '#' {
      assert s[i..][1..] == s[i + 1..];
      Shifted(s, i, CutAtHash(s[i + 1..]));
    }
  }

  lemma Shifted(s: string, i: nat, rest: string)
    requires i < |s|
    ensures s[..i] + ([s[i]] + rest) == s[..i + 1] + rest
  {
  }

  /** Find the first comment sign and cut there. */
  method CutComment(s: string) returns (r: string)
    ensures r == CutAtHash(s)
  {
    var hash := 0;
    assert s[0..] == s;
    while hash < |s| && s[hash] != '#'
      invariant 0 <= hash <= |s| && CutAtHash(s) == s[..hash] + CutAtHash(s[hash..])
    {
      CutStep(s, hash);
      hash := hash + 1;
    }
    CutStep(s, hash);
    r := s[..hash];
  }

  /** Look for the last character that is no blank and cut behind it; without one, cut nothing. */
  method CutTrailing(s: string) returns (r: string)
    ensures r == Trimmed(s)
  {
    var i := |s| - 1;
    assert s[..|s|] == s;
    while i >= 0
      invariant -1 <= i < |s| && TrimEnd(s) == TrimEnd(s[..i + 1])
    {
      if !IsSpace(s[i]) {
        return s[..i + 1];
      }
      assert s[..i + 1][..i] == s[..i];
      i := i - 1;
    }
    r := s;
  }

  /** The pointer walk over one line. */
  method ReadDirective(line: string, prefix: string) returns (d: Option<string>)
    ensures d == Directive(line, prefix)
  {
    var parameters := line;
    if prefix == [] {
      if line != [] && line[0] == '#' {
        return None;
      }
    } else if prefix <= line {
      parameters := line[|prefix|..];
      while parameters != [] && IsSpace(parameters[0])
        invariant SkipSpace(parameters) == SkipSpace(line[|prefix|..])
        decreases |parameters|
      {
        parameters := parameters[1..];
      }
    } else {
      return None;
    }
    parameters := CutComment(parameters);
    parameters := CutTrailing(parameters);
    d := Some(parameters);
  }

  // ----- the records of a text -----

  /** A line is parsed on its own, with the flags of a new call. */
  function LineRecords(line: string, prefix: string, rd: Reader): Outcome {
    match Directive(line, prefix)
    case None => Parsed([])
    case Some(d) =>
      if d == [] then Parsed([]) else Parse(rd.words(d), Client(false, false, rd.prog), rd.parsers)
  }

  function Joined(first: Outcome, second: Outcome): Outcome {
    if first.Failed? then first else if second.Failed? then second else Parsed(first.records + second.records)
  }

  /** The records of all lines in order, or the first error. */
  function Gathered(lines: seq<string>, prefix: string, rd: Reader): Outcome
    decreases |lines|, 1
  {
    if lines == [] then Parsed([]) else GatheredNext(lines, prefix, rd)
  }

  function GatheredNext(lines: seq<string>, prefix: string, rd: Reader): Outcome
    requires lines != []
    decreases |lines|, 0
  {
    Joined(LineRecords(lines[0], prefix, rd), Gathered(lines[1..], prefix, rd))
  }

  /** A -C inside the text is ignored. */
  function TextRecords(text: string, prefix: string, rd: Reader): Outcome {
    match Gathered(Lines(text, 0), prefix, rd)
    case Failed(e) => Failed(e)
    case Parsed(rs) => Parsed(Without(rs, Prefix))
  }

  method DropPrefixRecords(opts: seq<Record>) returns (kept: seq<Record>)
    ensures kept == Without(opts, Prefix)
  {
    kept := opts;
    while true
      invariant Without(kept, Prefix) == Without(opts, Prefix)
      decreases |kept|
    {
      var k := Find(kept, Prefix);
      if k == |kept| {
        NoneOf(kept, Prefix);
        break;
      }
      TakeFirst(kept, Prefix);
      kept := kept[..k] + kept[k + 1..];
    }
  }

  lemma GatheredUnfolds(text: string, prefix: string, rd: Reader, pos: nat)
    requires pos < |text|
    ensures Gathered(Lines(text, pos), prefix, rd)
         == Joined(LineRecords(text[pos..LineEnd(text, pos)], prefix, rd), Gathered(Lines(text, NextLine(text, pos)), prefix, rd))
  {
    assert Lines(text, pos)[1..] == Lines(text, NextLine(text, pos));
  }

  lemma JoinedAssociates(a: Outcome, b: Outcome, c: Outcome)
    ensures Joined(a, Joined(b, c)) == Joined(Joined(a, b), c)
  {
    if a.Parsed? && b.Parsed? && c.Parsed? {
      assert a.records + (b.records + c.records) == (a.records + b.records) + c.records;
    }
  }

  /** The lines in front of `s` have given `raw`. */
  ghost predicate HasRead(text: string, prefix: string, rd: Reader, s: nat, raw: seq<Record>)
    requires s <= |text|
  {
    Gathered(Lines(text, 0), prefix, rd) == Joined(Parsed(raw), Gathered(Lines(text, s), prefix, rd))
  }

  lemma ReadStep(text: string, prefix: string, rd: Reader, s: nat, raw: seq<Record>) returns (r: Outcome)
    requires s < |text| && HasRead(text, prefix, rd, s, raw)
    ensures r == LineRecords(text[s..LineEnd(text, s)], prefix, rd)
    ensures if r.Failed? then TextRecords(text, prefix, rd) == r else HasRead(text, prefix, rd, NextLine(text, s), raw + r.records)
  {
    r := LineRecords(text[s..LineEnd(text, s)], prefix, rd);
    GatheredUnfolds(text, prefix, rd, s);
    JoinedAssociates(Parsed(raw), r, Gathered(Lines(text, NextLine(text, s)), prefix, rd));
  }

  lemma ReadStart(text: string, prefix: string, rd: Reader)
    ensures HasRead(text, prefix, rd, 0, [])
  {
  }

  lemma ReadEnd(text: string, prefix: string, rd: Reader, raw: seq<Record>)
    requires HasRead(text, prefix, rd, |text|, raw)
    ensures TextRecords(text, prefix, rd) == Parsed(Without(raw, Prefix))
  {
    assert Lines(text, |text|) == [] && raw + [] == raw;
  }

  method ParseLine(line: string, prefix: string, rd: Reader) returns (r: Outcome)
    ensures r == LineRecords(line, prefix, rd)
  {
    var parameters := ReadDirective(line, prefix);
    if parameters.Some? && parameters.value != [] {
      r := ParseArguments(rd.words(parameters.value), Client(false, false, rd.prog), rd.parsers);
    } else {
      r := Parsed([]);
    }
  }

  /** One line of the text: parse it, append its records, delete every -C. */
  method TakeLine(text: string, prefix: string, rd: Reader, s: nat, opts: seq<Record>, ghost raw: seq<Record>)
    returns (r: Outcome, ghost raw': seq<Record>)
    requires s < |text| && HasRead(text, prefix, rd, s, raw) && opts == Without(raw, Prefix)
    ensures r.Failed? ==> TextRecords(text, prefix, rd) == r
    ensures r.Parsed? ==> HasRead(text, prefix, rd, NextLine(text, s), raw') && r.records == Without(raw', Prefix)
  {
    r := ParseLine(text[s..LineEnd(text, s)], prefix, rd);
    ghost var line := ReadStep(text, prefix, rd, s, raw);
    raw' := raw;
    if r.Parsed? {
      WithoutAppended(raw, r.records, Prefix);
      raw' := raw + r.records;
      var kept := DropPrefixRecords(opts + r.records);
      r := Parsed(kept);
    }
  }

  /** The line loop. `ntIndex` is the distance to the end of the text. */
  method ParseText(text: string, prefix: string, rd: Reader) returns (r: Outcome)
    ensures r == TextRecords(text, prefix, rd)
  {
    var opts: seq<Record> := [];
    ghost var raw: seq<Record> := [];
    var s, ntIndex := 0, |text|;
    ReadStart(text, prefix, rd);
    while s < |text|
      invariant 0 <= s <= |text| && ntIndex == |text| - s
      invariant HasRead(text, prefix, rd, s, raw) && opts == Without(raw, Prefix)
      decreases ntIndex
    {
      var newline := LineEnd(text, s);
      var length := if newline < |text| then newline - s + 1 else ntIndex;
      assert s + length == NextLine(text, s);
      var taken;
      taken, raw := TakeLine(text, prefix, rd, s, opts, raw);
      if taken.Failed? {
        return taken;
      }
      opts := taken.records;
      s, ntIndex := s + length, ntIndex - length;
    }
    ReadEnd(text, prefix, rd, raw);
    r := Parsed(opts);
  }

  lemma WithoutAppended(raw: seq<Record>, more: seq<Record>, sw: Switch)
    ensures Without(Without(raw, sw) + more, sw) == Without(raw + more, sw)
  {
    OnlyConcat(raw, more, sw);
    OnlyConcat(Without(raw, sw), more, sw);
    WithoutTwice(raw, sw);
  }

  lemma {:induction false} WithoutTwice(s: seq<Record>, sw: Switch)
    ensures Without(Without(s, sw), sw) == Without(s, sw)
  {
    if s == [] {
    } else {
      WithoutTwice(s[1..], sw);
    }
  }

  // ----- lines do not see each other -----

  lemma {:induction false} LineEndIn(a: string, b: string, pos: nat)
    requires pos < |a| && a[|a| - 1] == '\n'
    ensures LineEnd(a + b, pos) == LineEnd(a, pos) < |a|
    decreases |a| - pos
  {
    if a[pos] == '\n' {
      assert LineEnd(a + b, pos) == pos;
    } else {
      LineEndIn(a, b, pos + 1);
    }
  }

  /** `t` ends with `b`, which starts at `k`. */
  predicate EndsWith(t: string, k: nat, b: string) {
    |t| == k + |b| && forall x | 0 <= x < |b| :: t[k + x] == b[x]
  }

  lemma {:induction false} LineEndBehind(t: string, k: nat, b: string, pos: nat)
    requires EndsWith(t, k, b) && pos <= |b|
    ensures LineEnd(t, k + pos) == k + LineEnd(b, pos)
    decreases |b| - pos
  {
    if pos == |b| || b[pos] == '\n' {
      assert LineEnd(t, k + pos) == k + pos;
    } else {
      LineEndBehind(t, k, b, pos + 1);
    }
  }

  lemma LineBehind(t: string, k: nat, b: string, pos: nat)
    requires EndsWith(t, k, b) && pos < |b|
    ensures t[k + pos..LineEnd(t, k + pos)] == b[pos..LineEnd(b, pos)]
    ensures NextLine(t, k + pos) == k + NextLine(b, pos)
  {
    LineEndBehind(t, k, b, pos);
  }

  lemma LinesNext(text: string, pos: nat, line: string, rest: nat)
    requires pos < |text| && rest == NextLine(text, pos) && line == text[pos..LineEnd(text, pos)]
    ensures Lines(text, pos) == [line] + Lines(text, rest)
  {
  }

  lemma {:induction false} LinesBehind(t: string, k: nat, b: string, pos: nat)
    requires EndsWith(t, k, b) && pos <= |b|
    ensures Lines(t, k + pos) == Lines(b, pos)
    decreases |b| - pos
  {
    if pos == |b| {
      assert Lines(t, k + pos) == [] == Lines(b, pos);
    } else {
      var line, rest := b[pos..LineEnd(b, pos)], NextLine(b, pos);
      LineBehind(t, k, b, pos);
      LinesNext(b, pos, line, rest);
      LinesNext(t, k + pos, line, k + rest);
      LinesBehind(t, k, b, rest);
    }
  }

  lemma LineIn(a: string, b: string, pos: nat)
    requires pos < |a| && a[|a| - 1] == '\n'
    ensures (a + b)[pos..LineEnd(a + b, pos)] == a[pos..LineEnd(a, pos)]
    ensures NextLine(a + b, pos) == NextLine(a, pos)
  {
    LineEndIn(a, b, pos);
  }

  lemma {:induction false} LinesIn(a: string, b: string, pos: nat)
    requires pos <= |a| && (a == [] || a[|a| - 1] == '\n')
    ensures Lines(a + b, pos) == Lines(a, pos) + Lines(b, 0)
    decreases |a| - pos
  {
    if pos == |a| {
      LinesBehind(a + b, |a|, b, 0);
    } else {
      LineIn(a, b, pos);
      LinesIn(a, b, NextLine(a, pos));
    }
  }

  lemma {:induction false} GatheredConcat(a: seq<string>, b: seq<string>, prefix: string, rd: Reader)
    ensures Gathered(a + b, prefix, rd) == Joined(Gathered(a, prefix, rd), Gathered(b, prefix, rd))
  {
    if a == [] {
      assert a + b == b;
    } else {
      assert (a + b)[0] == a[0] && (a + b)[1..] == a[1..] + b;
      GatheredConcat(a[1..], b, prefix, rd);
      JoinedAssociates(LineRecords(a[0], prefix, rd), Gathered(a[1..], prefix, rd), Gathered(b, prefix, rd));
    }
  }

  /** Cutting a text between two lines cuts its records in two: no flag and no error crosses a line backwards. */
  lemma LinesAreIndependent(a: string, b: string, prefix: string, rd: Reader)
    requires a == [] || a[|a| - 1] == '\n'
    ensures TextRecords(a + b, prefix, rd) == Joined(TextRecords(a, prefix, rd), TextRecords(b, prefix, rd))
  {
    LinesIn(a, b, 0);
    GatheredConcat(Lines(a, 0), Lines(b, 0), prefix, rd);
    var first, second := Gathered(Lines(a, 0), prefix, rd), Gathered(Lines(b, 0), prefix, rd);
    if first.Parsed? && second.Parsed? {
      OnlyConcat(first.records, second.records, Prefix);
    }
  }
}
