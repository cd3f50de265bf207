/**
 Escape sequences of infotext (source/utilbin/infotext.cc): the parser for strings typed by a
 user, the writer for message files, and when one undoes the other.
 */
module Escapes {

  const BACKSLASH := '\\'

  /** The characters that the writer escapes. */
  predicate IsEscaped(c: char) {
    c == '\n' || c == '\"'
  }

  /** The letter behind the backslash. */
  function Letter(c: char): char {
    if c == '\n' then 'n' else c
  }

  /** What a backslash and a letter stand for. */
  predicate IsLetter(c: char) {
    c == 'n' || c == '\"' || c == 'r' || c == 't'
  }

  function Meaning(c: char): char {
    if c == 'n' then '\n' else if c == 'r' then '\r' else if c == 't' then '\t' else c
  }

  /** The writer: a backslash itself is not escaped. */
  function Written(s: string): string {
    if s == [] then []
    else if IsEscaped(s[0]) then [BACKSLASH, Letter(s[0])] + Written(s[1..])
    else [s[0]] + Written(s[1..])
  }

  predicate IsSequence(t: string, i: nat) {
    i + 1 < |t| && t[i] == BACKSLASH && IsLetter(t[i + 1])
  }

  /** The character that is read at `i`. */
  function CharAt(t: string, i: nat): char
    requires i < |t|
  {
    if IsSequence(t, i) then Meaning(t[i + 1]) else t[i]
  }

  /** Where reading goes on: a single character behind a sequence is lost. */
  function Behind(t: string, i: nat): (j: nat)
    requires i < |t|
    ensures i < j <= |t|
  {
    if !IsSequence(t, i) then i + 1 else if |t| <= i + 3 then |t| else i + 2
  }

  function ReadFrom(t: string, i: nat): string
    requires i <= |t|
    decreases |t| - i
  {
    if i == |t| then [] else [CharAt(t, i)] + ReadFrom(t, Behind(t, i))
  }

  function Read(t: string): string {
    ReadFrom(t, 0)
  }

  // ----- the loops -----

  /** What is still to come at `h1`: nothing, if the last character follows a sequence. */
  ghost function ToCome(t: string, h1: nat, special: bool): string
    requires h1 < |t|
  {
    if special && h1 + 1 == |t| then [] else ReadFrom(t, h1)
  }

  lemma Associates(a: string, c: string, b: string)
    ensures a + (c + b) == (a + c) + b
  {
  }

  method Parse(text: string) returns (buffer: string)
    ensures buffer == Read(text)
  {
    buffer := [];
    if |text| == 0 {
      return;
    }
    var h1 := 0;
    var special := false;
    while h1 + 1 < |text|
      invariant 0 <= h1 < |text| && Read(text) == buffer + ToCome(text, h1, special)
      decreases |text| - h1
    {
      special := false;
      if text[h1] == BACKSLASH && IsLetter(text[h1 + 1]) {
        Associates(buffer, [Meaning(text[h1 + 1])], ReadFrom(text, Behind(text, h1)));
        buffer := buffer + [Meaning(text[h1 + 1])];
        special := true;
      }
      if special {
        h1 := h1 + 1;
        if h1 + 1 == |text| {
          break;
        }
        h1 := h1 + 1;
        continue;
      }
      Associates(buffer, [text[h1]], ReadFrom(text, h1 + 1));
      buffer := buffer + [text[h1]];
      h1 := h1 + 1;
    }
    assert h1 + 1 == |text| && Read(text) == buffer + ToCome(text, h1, special);
    if !special {
      assert ReadFrom(text, h1) == [text[h1]];
      buffer := buffer + [text[h1]];
    }
  }

  method Write(text: string) returns (buffer: string)
    ensures buffer == Written(text)
  {
    buffer := [];
    var h1 := 0;
    while h1 < |text|
      invariant 0 <= h1 <= |text| && Written(text) == buffer + Written(text[h1..])
    {
      assert text[h1..][1..] == text[h1 + 1..];
      if IsEscaped(text[h1]) {
        Associates(buffer, [BACKSLASH, Letter(text[h1])], Written(text[h1 + 1..]));
        buffer := buffer + [BACKSLASH, Letter(text[h1])];
      } else {
        Associates(buffer, [text[h1]], Written(text[h1 + 1..]));
        buffer := buffer + [text[h1]];
      }
      h1 := h1 + 1;
    }
  }

  // ----- when reading undoes writing -----

  /** A backslash in front of n, r or t is taken for a sequence. */
  predicate Misread(s: string, i: nat) {
    i + 1 < |s| && s[i] == BACKSLASH && IsLetter(s[i + 1]) && !IsEscaped(s[i + 1])
  }

  /** Exactly one plain character behind the last escaped one. */
  predicate LosesLast(s: string) {
    |s| >= 2 && IsEscaped(s[|s| - 2]) && !IsEscaped(s[|s| - 1])
  }

  predicate IsSafe(s: string) {
    !LosesLast(s) && forall i | 0 <= i < |s| :: !Misread(s, i)
  }

  lemma SameStep(a: string, b: string, i: nat)
    requires i < |b|
    ensures CharAt(a + b, |a| + i) == CharAt(b, i) && Behind(a + b, |a| + i) == |a| + Behind(b, i)
  {
    assert (a + b)[|a| + i] == b[i] && (i + 1 < |b| ==> (a + b)[|a| + i + 1] == b[i + 1]);
  }

  /** Reading does not look back. */
  lemma {:induction false} ReadShift(a: string, b: string, i: nat)
    requires i <= |b|
    ensures ReadFrom(a + b, |a| + i) == ReadFrom(b, i)
    decreases |b| - i
  {
    if i == |b| {
    } else {
      SameStep(a, b, i);
      ReadShift(a, b, Behind(b, i));
    }
  }

  lemma ReadPlain(c: char, t: string)
    requires c != BACKSLASH || t == [] || !IsLetter(t[0])
    ensures Read([c] + t) == [c] + Read(t)
  {
    ReadShift([c], t, 0);
  }

  lemma ReadSequence(c: char, t: string)
    requires IsLetter(c)
    ensures Read([BACKSLASH, c] + t) == [Meaning(c)] + if |t| <= 1 then [] else Read(t)
  {
    ReadShift([BACKSLASH, c], t, 0);
  }

  lemma {:induction false} WrittenLength(s: string)
    ensures |Written(s)| >= |s| && (|Written(s)| <= 1 <==> s == [] || (|s| == 1 && !IsEscaped(s[0])))
    ensures s != [] ==> Written(s)[0] == if IsEscaped(s[0]) then BACKSLASH else s[0]
  {
    if s == [] {
    } else {
      WrittenLength(s[1..]);
    }
  }

  lemma ReadEscaped(s: string)
    requires s != [] && IsEscaped(s[0])
    ensures var rest := Written(s[1..]); Read(Written(s)) == [s[0]] + if |rest| <= 1 then [] else Read(rest)
  {
    ReadSequence(Letter(s[0]), Written(s[1..]));
  }

  lemma ReadMisread(s: string)
    requires Misread(s, 0)
    ensures var rest := Written(s[2..]); Read(Written(s)) == [Meaning(s[1])] + if |rest| <= 1 then [] else Read(rest)
  {
    assert s[1..][1..] == s[2..];
    assert Written(s[1..]) == [s[1]] + Written(s[2..]);
    assert Written(s) == [BACKSLASH, s[1]] + Written(s[2..]);
    ReadSequence(s[1], Written(s[2..]));
  }

  lemma ReadOther(s: string)
    requires s != [] && !IsEscaped(s[0]) && !Misread(s, 0)
    ensures Read(Written(s)) == [s[0]] + Read(Written(s[1..]))
  {
    WrittenLength(s[1..]);
    ReadPlain(s[0], Written(s[1..]));
  }

  /** What the writer and then the parser make of the first character. */
  lemma ReadWritten(s: string)
    requires s != []
    ensures var rest := Written(s[1..]);
      Read(Written(s)) ==
        if IsEscaped(s[0]) then [s[0]] + (if |rest| <= 1 then [] else Read(rest))
        else if Misread(s, 0) then [Meaning(s[1])] + (if |Written(s[2..])| <= 1 then [] else Read(Written(s[2..])))
        else [s[0]] + Read(rest)
  {
    if IsEscaped(s[0]) {
      ReadEscaped(s);
    } else if Misread(s, 0) {
      ReadMisread(s);
    } else {
      ReadOther(s);
    }
  }

  /** Reading what was written never gives more characters than there were. */
  lemma {:induction false} NothingIsAdded(s: string)
    ensures |Read(Written(s))| <= |s|
  {
    if s == [] {
    } else {
      ReadWritten(s);
      NothingIsAdded(s[1..]);
      if |s| > 1 {
        NothingIsAdded(s[2..]);
      }
    }
  }

  lemma SafeRest(s: string)
    requires s != []
    ensures IsSafe(s) <==> !Misread(s, 0) && !(|s| == 2 && LosesLast(s)) && IsSafe(s[1..])
  {
    var t := s[1..];
    assert forall i | 0 <= i < |t| :: Misread(t, i) <==> Misread(s, i + 1);
    if IsSafe(t) && !Misread(s, 0) {
      forall i | 0 <= i < |s|
        ensures !Misread(s, i)
      {
        if i > 0 {
          assert !Misread(t, i - 1);
        }
      }
    }
    if IsSafe(s) {
      forall i | 0 <= i < |t|
        ensures !Misread(t, i)
      {
        assert !Misread(s, i + 1);
      }
    }
    if |s| > 2 {
      assert t[|t| - 1] == s[|s| - 1] && t[|t| - 2] == s[|s| - 2];
    }
  }

  /** Reading undoes writing exactly for the safe texts. */
  lemma {:induction false} RoundTrip(s: string)
    ensures Read(Written(s)) == s <==> IsSafe(s)
    ensures !IsSafe(s) ==> |Read(Written(s))| < |s|
  {
    if s == [] {
    } else {
      var rest := Written(s[1..]);
      ReadWritten(s);
      RoundTrip(s[1..]);
      SafeRest(s);
      WrittenLength(s[1..]);
      if Misread(s, 0) {
        NothingIsAdded(s[2..]);
      } else {
        assert s == [s[0]] + s[1..];
      }
    }
  }

  lemma BackslashFree(s: string)
    requires BACKSLASH !in s
    ensures IsSafe(s) <==> !LosesLast(s)
  {
  }

  /** Without backslashes, at most the last character is lost, and only as LosesLast says. */
  lemma {:induction false} OnlyTheLastIsLost(s: string)
    requires BACKSLASH !in s
    ensures Read(Written(s)) == if LosesLast(s) then s[..|s| - 1] else s
  {
    if LosesLast(s) {
      ReadWritten(s);
      WrittenLength(s[1..]);
      if |s| > 2 {
        OnlyTheLastIsLost(s[1..]);
        assert s[..|s| - 1] == [s[0]] + s[1..][..|s| - 2];
      }
    } else {
      BackslashFree(s);
      RoundTrip(s);
    }
  }

  /** A newline and one letter: the letter is lost. A backslash and an n: they come back as a newline. */
  lemma RoundTripFails(lost: string, misread: string)
    requires lost == "\nx" && misread == "\\n"
    ensures Read(Written(lost)) == "\n" && Read(Written(misread)) == "\n"
  {
    assert lost[0] == '\n' && lost[1] == 'x' && misread[0] == BACKSLASH && misread[1] == 'n';
    OnlyTheLastIsLost(lost);
    ReadMisread(misread);
    assert misread[2..] == [];
  }
}
