/**
 The independent check of a DENTER pass (doc/doxygen/dxm-denter-verify.py), and the proof
 that the pass always satisfies it.
 */
module DenterVerify {
  import opened DenterLines
  import opened DenterFirst

  // ----- text and lines -----

  function NewlineAt(text: string, i: nat): (k: nat)
    requires i <= |text|
    ensures i <= k <= |text| && (k < |text| ==> text[k] == '\n') && forall x | i <= x < k :: text[x] != '\n'
    decreases |text| - i
  {
    if i == |text| || text[i] == '\n' then i else NewlineAt(text, i + 1)
  }

  function Split(text: string): (lines: seq<string>)
    ensures AreLines(lines)
    decreases |text|
  {
    var k := NewlineAt(text, 0);
    if k == |text| then [text] else [text[..k]] + Split(text[k + 1..])
  }

  function JoinLines(lines: seq<string>): string {
    if lines == [] then []
    else if |lines| == 1 then lines[0]
    else lines[0] + ['\n'] + JoinLines(lines[1..])
  }

  lemma {:induction false} SplitJoined(lines: seq<string>)
    requires AreLines(lines)
    ensures Split(JoinLines(lines)) == lines
  {
    var text := JoinLines(lines);
    if |lines| == 1 {
      assert NewlineAt(text, 0) == |text|;
      assert lines == [lines[0]];
    } else {
      SplitJoined(lines[1..]);
      var k := NewlineAt(text, 0);
      assert text[|lines[0]|] == '\n';
      assert k == |lines[0]|;
      assert text[..k] == lines[0] && text[k + 1..] == JoinLines(lines[1..]);
      assert lines == [lines[0]] + lines[1..];
    }
  }

  // ----- the canonical form -----

  function NonDenter(lines: seq<string>): seq<string> {
    if lines == [] then []
    else if IsDenter(lines[0]) then NonDenter(lines[1..])
    else [lines[0]] + NonDenter(lines[1..])
  }

  function Squeeze(s: string): string {
    if s == [] then []
    else if IsSpace(s[0]) then Squeeze(s[1..])
    else [s[0]] + Squeeze(s[1..])
  }

  /** The whole text without DENTER lines and without whitespace. */
  function Canonical(text: string): string {
    Squeeze(JoinLines(NonDenter(Split(text))))
  }

  lemma {:induction false} SqueezeConcat(a: string, b: string)
    ensures Squeeze(a + b) == Squeeze(a) + Squeeze(b)
  {
    if a == [] {
      assert a + b == b;
    } else {
      assert (a + b)[1..] == a[1..] + b;
      SqueezeConcat(a[1..], b);
    }
  }

  lemma {:induction false} SqueezeBlank(s: string)
    requires forall x | 0 <= x < |s| :: IsSpace(s[x])
    ensures Squeeze(s) == []
  {
    if s == [] {
    } else {
      SqueezeBlank(s[1..]);
    }
  }

  /** Lines squeezed one by one. */
  function Squeezed(lines: seq<string>): string {
    if lines == [] then [] else Squeeze(lines[0]) + Squeezed(lines[1..])
  }

  lemma {:induction false} SqueezeJoined(lines: seq<string>)
    ensures Squeeze(JoinLines(lines)) == Squeezed(lines)
  {
    if |lines| == 1 {
      assert Squeezed(lines[1..]) == [];
    } else if |lines| > 1 {
      SqueezeJoined(lines[1..]);
      SqueezeConcat(lines[0] + ['\n'], JoinLines(lines[1..]));
      SqueezeConcat(lines[0], ['\n']);
      assert Squeeze(['\n']) == Squeeze([]);
    }
  }

  lemma SqueezedCons(line: string, lines: seq<string>)
    ensures Squeezed([line] + lines) == Squeeze(line) + Squeezed(lines)
  {
    assert ([line] + lines)[1..] == lines;
  }

  /** The check sees nothing but the kept lines. */
  lemma {:induction false} CheckSeesKept(lines: seq<string>)
    ensures Squeezed(NonDenter(lines)) == Squeezed(Kept(lines))
  {
    if lines == [] {
    } else {
      CheckSeesKept(lines[1..]);
      KeptFirst(lines);
      if !IsDenter(lines[0]) {
        SqueezedCons(lines[0], NonDenter(lines[1..]));
        if Blank(lines[0]) {
          SqueezeBlank(lines[0]);
        } else {
          SqueezedCons(lines[0], Kept(lines[1..]));
        }
      }
    }
  }

  lemma CanonicalOfLines(lines: seq<string>)
    requires AreLines(lines)
    ensures Canonical(JoinLines(lines)) == Squeezed(Kept(lines))
  {
    SplitJoined(lines);
    SqueezeJoined(NonDenter(lines));
    CheckSeesKept(lines);
  }

  lemma {:induction false} JoinSplit(text: string)
    ensures JoinLines(Split(text)) == text
    decreases |text|
  {
    var k := NewlineAt(text, 0);
    if k == |text| {
      assert Split(text) == [text];
    } else {
      JoinSplit(text[k + 1..]);
      assert text == text[..k] + ['\n'] + text[k + 1..];
    }
  }

  /** One file through the pass: the check accepts the result, and a second pass would change nothing. */
  method RewriteFile(original: string, wide: set<char>) returns (text: string, moved: nat, skipped: seq<Skip>)
    ensures Canonical(text) == Canonical(original)
    ensures Settled(Split(text), |Split(text)|, wide)
    ensures var out := Split(text);
      forall k | 0 <= k < |out| && IsDenter(out[k]) && !IsFirst(out, k) :: Skip(k + 1, Judge(out, k, wide)) in skipped
    ensures moved == 0 ==> text == original
  {
    var lines := Split(original);
    var rewritten;
    rewritten, moved, skipped := Process(lines, wide);
    text := JoinLines(rewritten);
    JoinSplit(original);
    SplitJoined(rewritten);
    CanonicalOfLines(rewritten);
    CanonicalOfLines(lines);
  }
}
