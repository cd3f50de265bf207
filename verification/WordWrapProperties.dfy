/**
 Word wrap as a whole: what the printed lines of a text hold, where they break, and where a
 break is missing from the output.
 */
module WordWrapProperties {
  import opened WordWrap

  // ----- text is conserved -----

  function Text(ps: seq<Printed>): string {
    if ps == [] then [] else ps[0].line + Text(ps[1..])
  }

  lemma GapInk(a: string, gap: string, w: string)
    requires IsBlank(gap)
    ensures NonBlank(a + gap + w) == NonBlank(a) + NonBlank(w)
  {
    NonBlankOfBlanks(gap);
    NonBlankConcat(a + gap, w);
    NonBlankConcat(a, gap);
  }

  lemma {:induction false} LaidInk(indent: string, words: seq<string>)
    ensures NonBlank(Laid(indent, words)) == NonBlank(indent) + NonBlank(Joined(words))
  {
    if words == [] {
    } else {
      var init, w := words[..|words| - 1], words[|words| - 1];
      LaidInk(indent, init);
      GapInk(Laid(indent, init), if |words| == 1 || IsBlank(w) then [] else [' '], w);
      JoinedInk(words);
      Associates(NonBlank(indent), NonBlank(Joined(init)), NonBlank(w));
    }
  }

  lemma JoinedInk(words: seq<string>)
    requires words != []
    ensures NonBlank(Joined(words)) == NonBlank(Joined(words[..|words| - 1])) + NonBlank(words[|words| - 1])
  {
    NonBlankConcat(Joined(words[..|words| - 1]), words[|words| - 1]);
  }

  lemma Associates(a: string, b: string, c: string)
    ensures a + (b + c) == (a + b) + c
  {
  }

  /** Each line is its words behind its indent; `indent` is that of the first line. */
  predicate AreLaid(ps: seq<Printed>, indent: string, later: string) {
    forall k | 0 <= k < |ps| :: ps[k].words != [] && ps[k].line == Laid(if k == 0 then indent else later, ps[k].words)
  }

  lemma {:induction false} TextInk(ps: seq<Printed>, indent: string, later: string)
    requires AreLaid(ps, indent, later) && IsBlank(later)
    ensures NonBlank(Text(ps)) == (if ps == [] then [] else NonBlank(indent)) + NonBlank(Joined(AllWords(ps)))
  {
    if ps == [] {
    } else {
      var p, tail := ps[0], ps[1..];
      assert forall k | 0 <= k < |tail| :: tail[k] == ps[k + 1];
      TextInk(tail, later, later);
      NonBlankOfBlanks(later);
      LaidInk(indent, p.words);
      NonBlankConcat(p.line, Text(tail));
      JoinedConcat(p.words, AllWords(tail));
      NonBlankConcat(Joined(p.words), Joined(AllWords(tail)));
    }
  }

  lemma FormatIsLaid(t: string, lay: Layout)
    ensures AreLaid(Format(t, lay), lay.indent, Later(lay))
  {
    var ps := Format(t, lay);
    forall k | 0 <= k < |ps|
      ensures ps[k].words != [] && ps[k].line == Laid(if k == 0 then lay.indent else Later(lay), ps[k].words)
    {
      WrappedShape(Words(t, 0), 0, lay.indent, [], lay, k);
    }
  }

  lemma FormatKeepsWords(t: string, lay: Layout)
    ensures AllWords(Format(t, lay)) == Words(t, 0)
  {
    WrappedKeepsWords(Words(t, 0), 0, lay.indent, [], lay);
  }

  /**
   The lines hold every character of the text that is no blank, once and in order, behind the
   indent; a text without words prints nothing at all.
   */
  lemma FormatKeepsText(t: string, lay: Layout)
    ensures NonBlank(Text(Format(t, lay))) == (if Format(t, lay) == [] then [] else NonBlank(lay.indent)) + NonBlank(t)
    ensures Format(t, lay) == [] <==> !HasWord(t, 0)
  {
    FormatIsLaid(t, lay);
    FormatKeepsWords(t, lay);
    TextInk(Format(t, lay), lay.indent, Later(lay));
    WordsKeepInk(t, 0);
    assert t[0..] == t;
    if HasWord(t, 0) {
      WrappedHead(Words(t, 0), 0, lay.indent, [], lay);
    }
  }

  /** A line that is longer than the width is an indent and one word. */
  lemma LongLinesHaveOneWord(t: string, lay: Layout, k: nat)
    requires k < |Format(t, lay)| && |Format(t, lay)[k].line| > lay.max
    ensures var p := Format(t, lay)[k]; |p.words| == 1 && p.line == (if k == 0 then lay.indent else Later(lay)) + p.words[0]
  {
    WrappedFits(Words(t, 0), 0, lay.indent, [], lay);
    FormatIsLaid(t, lay);
    var p := Format(t, lay)[k];
    assert p.words == [] + [p.words[0]];
    LaidMore(if k == 0 then lay.indent else Later(lay), [], p.words[0]);
  }

  /** Lines break only where they must. */
  lemma BreaksAreGreedy(t: string, lay: Layout, k: nat)
    requires k + 1 < |Format(t, lay)|
    ensures IsGreedyBreak(Format(t, lay)[k], Format(t, lay)[k + 1], lay.max)
  {
    WrappedIsGreedy(Words(t, 0), 0, lay.indent, [], lay, k);
  }

  // ----- the missing break -----

  /** A newline can only be the last character. */
  predicate EndsAtNewline(s: string) {
    forall k | 0 <= k < |s| - 1 :: s[k] != '\n'
  }

  lemma {:induction false} WordEndsAtNewline(t: string, i: nat)
    requires i <= |t|
    ensures forall k | i <= k < WordEnd(t, i) - 1 :: t[k] != '\n'
    decreases |t| - i
  {
    if i == |t| || t[i] == ' ' || t[i] == '\n' {
      assert forall k | i <= k < WordEnd(t, i) - 1 :: t[k] == ' ';
    } else {
      WordEndsAtNewline(t, i + 1);
    }
  }

  lemma WordIsOneLine(t: string, i: nat)
    requires i <= |t|
    ensures EndsAtNewline(Word(t, i))
  {
    WordEndsAtNewline(t, SkipBlanks(t, i));
  }

  lemma {:induction false} WordsAreOneLine(t: string, i: nat, j: nat)
    requires i <= |t| && j < |Words(t, i)|
    ensures EndsAtNewline(Words(t, i)[j]) && Words(t, i)[j] != []
    decreases j
  {
    if j == 0 {
      WordIsOneLine(t, i);
    } else {
      WordsAreOneLine(t, End(t, i), j - 1);
    }
  }

  predicate AreWords(ws: seq<string>) {
    forall j | 0 <= j < |ws| :: EndsAtNewline(ws[j]) && ws[j] != []
  }

  predicate LineEndsAtNewline(p: Printed) {
    EndsAtNewline(p.line) && |p.line| > 0 && (p.line[|p.line| - 1] != '\n' ==> HasVisible(p.line))
  }

  lemma OneLineStep(ws: seq<string>, j: nat, indent: string, words: seq<string>, lay: Layout)
    returns (broken: bool, more: seq<string>, p: Printed)
    requires j < |ws| && AreWords(ws) && '\n' !in Laid(indent, words)
    ensures LineEndsAtNewline(p)
    ensures broken ==> Wrapped(ws, j, indent, words, lay) == [p] + Wrapped(ws, j + 1, Later(lay), [], lay)
    ensures !broken ==> Wrapped(ws, j, indent, words, lay) == Wrapped(ws, j + 1, indent, more, lay)
    ensures !broken ==> '\n' !in Laid(indent, more) && Laid(indent, more) != []
  {
    var line;
    more, line := WrappedStep(ws, j, indent, words, lay);
    broken := IsBroken(ws, j + 1, line, lay.max);
    p := Printed(line, more, OptionAt(ws, j + 1, line, lay.max));
    OneLineMore(Laid(indent, words) + (if words == [] || IsBlank(ws[j]) then [] else [' ']), ws[j]);
  }

  lemma OneLineMore(front: string, w: string)
    requires '\n' !in front && EndsAtNewline(w) && w != []
    ensures EndsAtNewline(front + w) && (front + w)[|front + w| - 1] == w[|w| - 1]
    ensures w[|w| - 1] != '\n' ==> HasVisible(front + w)
  {
    var s := front + w;
    forall k | 0 <= k < |s| - 1
      ensures s[k] != '\n'
    {
      if k < |front| {
        assert s[k] == front[k];
      } else {
        assert s[k] == w[k - |front|];
      }
    }
    assert s[|s| - 1] == w[|w| - 1];
  }

  predicate AllEndAtNewline(ps: seq<Printed>) {
    forall k | 0 <= k < |ps| :: LineEndsAtNewline(ps[k])
  }

  lemma EndFirst(p: Printed, ps: seq<Printed>)
    requires LineEndsAtNewline(p) && AllEndAtNewline(ps)
    ensures AllEndAtNewline([p] + ps)
  {
  }

  lemma {:induction false} WrappedOneLine(ws: seq<string>, j: nat, indent: string, words: seq<string>, lay: Layout)
    requires j <= |ws| && AreWords(ws) && '\n' !in Laid(indent, words) && (words != [] ==> Laid(indent, words) != [])
    ensures AllEndAtNewline(Wrapped(ws, j, indent, words, lay))
    decreases |ws| - j
  {
    if j == |ws| {
      VisibleLine(Laid(indent, words));
    } else {
      var broken, more, p := OneLineStep(ws, j, indent, words, lay);
      if broken {
        WrappedOneLine(ws, j + 1, Later(lay), [], lay);
        EndFirst(p, Wrapped(ws, j + 1, Later(lay), [], lay));
      } else {
        WrappedOneLine(ws, j + 1, indent, more, lay);
      }
    }
  }

  lemma VisibleLine(s: string)
    requires '\n' !in s
    ensures EndsAtNewline(s) && (s != [] ==> HasVisible(s))
  {
    if s != [] {
      assert s[0] != '\n';
    }
  }

  predicate HasOwnBreak(p: Printed) {
    p.line != [] && p.line[|p.line| - 1] == '\n'
  }

  /** Does the output go on in a new line behind this line? */
  predicate BreaksBehind(p: Printed) {
    var o := Output(p);
    o != [] && o[|o| - 1] == '\n'
  }

  /**
   Between two lines the output has a line break, except behind a line that is too long and
   ends without a newline of its own: there the next line is printed right behind it.
   */
  lemma BreakIsMissingExactly(t: string, lay: Layout, k: nat)
    requires k + 1 < |Format(t, lay)| && '\n' !in lay.indent
    ensures var p := Format(t, lay)[k]; BreaksBehind(p) <==> |p.line| <= lay.max || HasOwnBreak(p)
  {
    var ws := Words(t, 0);
    forall j | 0 <= j < |ws|
      ensures EndsAtNewline(ws[j]) && ws[j] != []
    {
      WordsAreOneLine(t, 0, j);
    }
    WrappedOneLine(ws, 0, lay.indent, [], lay);
    BreaksAreGreedy(t, lay, k);
    var p := Format(t, lay)[k];
    assert LineEndsAtNewline(p);
    assert '\n' in p.line <==> p.line[|p.line| - 1] == '\n';
  }

  function OutputText(ps: seq<Printed>): string {
    if ps == [] then [] else Output(ps[0]) + OutputText(ps[1..])
  }

  lemma TwoWords(t: string)
    requires t == "aaaa b"
    ensures Words(t, 0) == ["aaaa", "b"]
  {
    assert t[0] == t[1] == t[2] == t[3] == 'a' && t[4] == ' ' && t[5] == 'b';
    assert SkipBlanks(t, 4) == SkipBlanks(t, 5) == 5;
    assert WordEnd(t, 4) == 4 && WordEnd(t, 3) == 4 && WordEnd(t, 2) == 4;
    assert WordEnd(t, 1) == 4 && WordEnd(t, 0) == 4;
    assert Start(t, 0) == 0 && End(t, 0) == 4 && t[0..4] == "aaaa";
    assert SkipBlanks(t, 4) == 5 && WordEnd(t, 5) == 6;
    assert Start(t, 4) == 5 && End(t, 4) == 6 && t[5..6] == "b";
    assert Words(t, 6) == [];
    assert Words(t, 4) == ["b"];
  }

  lemma TwoLines(ws: seq<string>, lay: Layout) returns (first: Printed, second: Printed)
    requires ws == ["aaaa", "b"] && lay == Layout("", 2, 0)
    ensures Wrapped(ws, 0, "", [], lay) == [first, second]
    ensures first == Printed("aaaa", ["aaaa"], 1) && second == Printed("b", ["b"], 0)
  {
    first, second := Printed("aaaa", ["aaaa"], 1), Printed("b", ["b"], 0);
    var more, line := WrappedStep(ws, 0, "", [], lay);
    var more', line' := WrappedStep(ws, 1, "", [], lay);
    assert line == "aaaa" && line' == "b" && Later(lay) == "";
  }

  /** Two words, the first too long for a line of two characters: they come out as one. */
  lemma WordsAreGlued(t: string, lay: Layout)
    requires t == "aaaa b" && lay == Layout("", 2, 0)
    ensures Words(t, 0) == ["aaaa", "b"] && OutputText(Format(t, lay)) == "aaaab\n"
  {
    TwoWords(t);
    var first, second := TwoLines(Words(t, 0), lay);
    assert [first, second][1..] == [second];
    assert second.line[0] != '\n';
    assert OutputText([second]) == Output(second);
  }
}
