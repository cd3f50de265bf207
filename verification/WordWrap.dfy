/**
 Word wrap of infotext (source/utilbin/infotext.cc): the text is cut into words, and the words
 are laid out on lines behind an indent.
 */
module WordWrap {

  // ----- words -----

  /** The first character behind `i` that is no blank, or the end. */
  function SkipBlanks(t: string, i: nat): (k: nat)
    requires i <= |t|
    ensures i <= k <= |t| && (k < |t| ==> t[k] != ' ') && forall x | i <= x < k :: t[x] == ' '
    decreases |t| - i
  {
    if i < |t| && t[i] == ' ' then SkipBlanks(t, i + 1) else i
  }

  /** A word ends in front of a blank or behind a newline; blanks at the end of the text belong to the last word. */
  function WordEnd(t: string, i: nat): (e: nat)
    requires i <= |t|
    ensures i <= e <= |t| && (i < |t| && t[i] != ' ' ==> i < e)
    decreases |t| - i
  {
    if i == |t| then i
    else if t[i] == ' ' then (if SkipBlanks(t, i) < |t| then i else |t|)
    else if t[i] == '\n' then i + 1
    else WordEnd(t, i + 1)
  }

  /** One blank in front of a word is skipped; more blanks are a word of their own, one shorter. */
  function Start(t: string, i: nat): (a: nat)
    requires i <= |t|
    ensures i <= a <= |t|
  {
    if SkipBlanks(t, i) > i + 1 then i else SkipBlanks(t, i)
  }

  function End(t: string, i: nat): (b: nat)
    requires i <= |t|
    ensures Start(t, i) <= b <= |t| && (Start(t, i) < b ==> i < b)
  {
    var k := SkipBlanks(t, i);
    if k > i + 1 then (if k == |t| then |t| else k - 1) else WordEnd(t, k)
  }

  predicate HasWord(t: string, i: nat)
    requires i <= |t|
  {
    Start(t, i) < End(t, i)
  }

  function Word(t: string, i: nat): (w: string)
    requires i <= |t|
    ensures w != [] <==> HasWord(t, i)
  {
    t[Start(t, i)..End(t, i)]
  }

  function Words(t: string, i: nat): seq<string>
    requires i <= |t|
    decreases |t| - i
  {
    if HasWord(t, i) then [Word(t, i)] + Words(t, End(t, i)) else []
  }

  predicate OccursAt(w: string, t: string, x: nat) {
    x + |w| <= |t| && t[x..x + |w|] == w
  }

  /** The search for the word from `i` on finds it where it was taken from. */
  lemma WordIsFound(t: string, i: nat)
    requires i <= |t| && HasWord(t, i)
    ensures OccursAt(Word(t, i), t, Start(t, i))
    ensures forall x | i <= x < Start(t, i) :: !OccursAt(Word(t, i), t, x)
  {
    var w := Word(t, i);
    assert w[0] == t[Start(t, i)];
    forall x | i <= x < Start(t, i)
      ensures !OccursAt(w, t, x)
    {
      assert x + |w| <= |t| ==> t[x..x + |w|][0] == t[x];
    }
  }

  // ----- nothing but blanks is dropped -----

  function NonBlank(s: string): string {
    if s == [] then []
    else NonBlank(s[..|s| - 1]) + if s[|s| - 1] == ' ' then [] else [s[|s| - 1]]
  }

  lemma {:induction false} NonBlankConcat(a: string, b: string)
    ensures NonBlank(a + b) == NonBlank(a) + NonBlank(b)
  {
    if b == [] {
      assert a + b == a;
    } else {
      NonBlankConcat(a, b[..|b| - 1]);
      assert (a + b)[..|a + b| - 1] == a + b[..|b| - 1];
    }
  }

  lemma {:induction false} NonBlankOfBlanks(s: string)
    requires forall k | 0 <= k < |s| :: s[k] == ' '
    ensures NonBlank(s) == []
  {
    if s == [] {
    } else {
      NonBlankOfBlanks(s[..|s| - 1]);
    }
  }

  function Joined(words: seq<string>): string {
    if words == [] then [] else Joined(words[..|words| - 1]) + words[|words| - 1]
  }

  lemma {:induction false} JoinedConcat(a: seq<string>, b: seq<string>)
    ensures Joined(a + b) == Joined(a) + Joined(b)
  {
    if b == [] {
      assert a + b == a;
    } else {
      JoinedConcat(a, b[..|b| - 1]);
      assert (a + b)[..|a + b| - 1] == a + b[..|b| - 1];
    }
  }

  lemma WordKeepsInk(t: string, i: nat)
    requires i <= |t|
    ensures NonBlank(t[i..]) == NonBlank(Word(t, i)) + NonBlank(t[End(t, i)..])
  {
    var a, b := Start(t, i), End(t, i);
    NonBlankOfBlanks(t[i..a]);
    assert t[i..] == t[i..a] + (t[a..b] + t[b..]);
    NonBlankConcat(t[i..a], t[a..b] + t[b..]);
    NonBlankConcat(t[a..b], t[b..]);
  }

  lemma NoWordNoInk(t: string, i: nat)
    requires i <= |t| && !HasWord(t, i)
    ensures NonBlank(t[i..]) == []
  {
    NonBlankOfBlanks(t[i..]);
  }

  /** The words of a text hold every character of it that is no blank, once and in order. */
  lemma {:induction false} WordsKeepInk(t: string, i: nat)
    requires i <= |t|
    ensures NonBlank(Joined(Words(t, i))) == NonBlank(t[i..])
    decreases |t| - i
  {
    if HasWord(t, i) {
      var w, b := Word(t, i), End(t, i);
      WordKeepsInk(t, i);
      WordsKeepInk(t, b);
      JoinedConcat([w], Words(t, b));
      assert Joined([w]) == w;
      NonBlankConcat(w, Joined(Words(t, b)));
    } else {
      NoWordNoInk(t, i);
    }
  }

  // ----- lines -----

  predicate IsBlank(s: string) {
    forall k | 0 <= k < |s| :: s[k] == ' '
  }

  /** Words behind an indent, one blank between them; a word of blanks needs none. */
  function Laid(indent: string, words: seq<string>): string {
    if words == [] then indent
    else
      var w := words[|words| - 1];
      Laid(indent, words[..|words| - 1]) + (if |words| == 1 || IsBlank(w) then [] else [' ']) + w
  }

  /** A printed line, the words on it and the option in force: 1 suppresses the newline. */
  datatype Printed = Printed(line: string, words: seq<string>, n: int)

  /** `indent` leads the first line, as many blanks lead the others. */
  datatype Layout = Layout(indent: string, max: nat, n: int)

  function Blanks(n: nat): (s: string)
    ensures |s| == n && IsBlank(s)
  {
    if n == 0 then [] else Blanks(n - 1) + [' ']
  }

  function Later(lay: Layout): string {
    Blanks(|lay.indent|)
  }

  predicate IsFull(line: string, max: nat) {
    |line| > max || '\n' in line
  }

  /** The line is full, or the next word does not fit on it. */
  predicate IsBroken(ws: seq<string>, j: nat, line: string, max: nat) {
    IsFull(line, max) || (j < |ws| && |line| + |ws[j]| + 1 > max)
  }

  /** 1 behind a full line with words to follow: its newline is left out. */
  function OptionAt(ws: seq<string>, j: nat, line: string, max: nat): int {
    if IsFull(line, max) && j < |ws| then 1 else 0
  }

  /** The lines for the words from `j` on, with `words` already on the current line. */
  function Wrapped(ws: seq<string>, j: nat, indent: string, words: seq<string>, lay: Layout): seq<Printed>
    requires j <= |ws|
    decreases |ws| - j
  {
    if j == |ws| then (if words == [] then [] else [Printed(Laid(indent, words), words, lay.n)])
    else
      var more := words + [ws[j]];
      var line := Laid(indent, more);
      if IsBroken(ws, j + 1, line, lay.max) then
        [Printed(line, more, OptionAt(ws, j + 1, line, lay.max))] + Wrapped(ws, j + 1, Later(lay), [], lay)
      else Wrapped(ws, j + 1, indent, more, lay)
  }

  function Format(t: string, lay: Layout): seq<Printed> {
    Wrapped(Words(t, 0), 0, lay.indent, [], lay)
  }

  /** What one printed line adds to the output. */
  function Output(p: Printed): string {
    p.line + if p.n != 1 && HasVisible(p.line) then ['\n'] else []
  }

  predicate HasVisible(line: string) {
    exists k | 0 <= k < |line| :: line[k] != '\n'
  }

  // ----- the loops -----

  method NextWord(t: string, i: nat) returns (w: string)
    requires i <= |t|
    ensures w == Word(t, i)
  {
    var start := i;
    while start < |t| && t[start] == ' '
      invariant i <= start <= |t| && SkipBlanks(t, i) == SkipBlanks(t, start)
    {
      start := start + 1;
    }
    if start - i > 1 {
      return t[i..if start == |t| then |t| else start - 1];
    }
    var b := start;
    while b < |t|
      invariant start <= b <= |t| && WordEnd(t, start) == WordEnd(t, b)
    {
      if t[b] == ' ' {
        if SkipBlanks(t, b) == |t| {
          b := |t|;
        }
        return t[start..b];
      }
      if t[b] == '\n' {
        return t[start..b + 1];
      }
      b := b + 1;
    }
    w := t[start..b];
  }

  /** The first occurrence of `w` from `i` on, or the length of the text. */
  method Search(t: string, i: nat, w: string) returns (x: nat)
    requires i <= |t|
    ensures i <= x <= |t| && (x == |t| || OccursAt(w, t, x)) && forall y | i <= y < x :: !OccursAt(w, t, y)
  {
    x := i;
    while x < |t| && !OccursAt(w, t, x)
      invariant i <= x <= |t| && forall y | i <= y < x :: !OccursAt(w, t, y)
    {
      x := x + 1;
    }
  }

  /** The words left at `tp` are those from the `j`-th on. */
  ghost predicate IsAt(t: string, ws: seq<string>, tp: nat, j: nat) {
    tp <= |t| && j <= |ws| && ws[j..] == Words(t, tp)
  }

  lemma AtWord(t: string, ws: seq<string>, tp: nat, j: nat)
    requires IsAt(t, ws, tp, j)
    ensures HasWord(t, tp) <==> j < |ws|
    ensures j < |ws| ==> ws[j] == Word(t, tp) && IsAt(t, ws, End(t, tp), j + 1)
  {
    if j < |ws| {
      assert ws[j..][0] == ws[j] && ws[j..][1..] == ws[j + 1..];
    }
  }

  method TakeWord(t: string, tp: nat, ghost ws: seq<string>, ghost j: nat) returns (w: string)
    requires IsAt(t, ws, tp, j)
    ensures if j < |ws| then w == ws[j] != [] else w == []
  {
    AtWord(t, ws, tp, j);
    w := NextWord(t, tp);
  }

  /** Behind the word at `tp`: it is searched for, and found where it was taken from. */
  method Advance(t: string, tp: nat, w: string, ghost ws: seq<string>, ghost j: nat) returns (tp': nat)
    requires IsAt(t, ws, tp, j) && j < |ws| && w == ws[j]
    ensures IsAt(t, ws, tp', j + 1)
  {
    AtWord(t, ws, tp, j);
    WordIsFound(t, tp);
    tp' := Search(t, tp, w);
    tp' := tp' + |w|;
  }

  lemma WrappedStep(ws: seq<string>, j: nat, indent: string, words: seq<string>, lay: Layout)
    returns (more: seq<string>, line: string)
    requires j < |ws|
    ensures more == words + [ws[j]] && line == Laid(indent, more)
    ensures line == Laid(indent, words) + (if words == [] || IsBlank(ws[j]) then [] else [' ']) + ws[j]
    ensures Wrapped(ws, j, indent, words, lay) ==
      if IsBroken(ws, j + 1, line, lay.max) then
        [Printed(line, more, OptionAt(ws, j + 1, line, lay.max))] + Wrapped(ws, j + 1, Later(lay), [], lay)
      else Wrapped(ws, j + 1, indent, more, lay)
  {
    more := words + [ws[j]];
    line := Laid(indent, more);
    LaidMore(indent, words, ws[j]);
  }

  /** One word onto the line; `full` and `last` as the source finds them behind it. */
  method AddWord(line: string, w: string, nrWord: nat) returns (r: string)
    ensures r == line + (if nrWord == 0 || IsBlank(w) then [] else [' ']) + w
  {
    r := line;
    if nrWord != 0 && !IsBlank(w) {
      r := r + [' '];
    }
    r := r + w;
  }

  /** What has been printed and what the words from `j` on will give make up the result. */
  ghost predicate IsLeft(ws: seq<string>, j: nat, indent: string, words: seq<string>, lay: Layout, out: seq<Printed>)
    requires j <= |ws|
  {
    Wrapped(ws, 0, lay.indent, [], lay) == out + Wrapped(ws, j, indent, words, lay)
  }

  lemma LeftStep(ws: seq<string>, j: nat, indent: string, words: seq<string>, lay: Layout, out: seq<Printed>)
    returns (more: seq<string>, line: string)
    requires j < |ws| && IsLeft(ws, j, indent, words, lay, out)
    ensures more == words + [ws[j]] && line == Laid(indent, more)
    ensures line == Laid(indent, words) + (if words == [] || IsBlank(ws[j]) then [] else [' ']) + ws[j]
    ensures IsBroken(ws, j + 1, line, lay.max) ==>
      IsLeft(ws, j + 1, Later(lay), [], lay, out + [Printed(line, more, OptionAt(ws, j + 1, line, lay.max))])
    ensures !IsBroken(ws, j + 1, line, lay.max) ==> IsLeft(ws, j + 1, indent, more, lay, out)
  {
    more, line := WrappedStep(ws, j, indent, words, lay);
    if IsBroken(ws, j + 1, line, lay.max) {
      var p := Printed(line, more, OptionAt(ws, j + 1, line, lay.max));
      var rest := Wrapped(ws, j + 1, Later(lay), [], lay);
      assert out + ([p] + rest) == (out + [p]) + rest;
    }
  }

  lemma LeftEnd(ws: seq<string>, indent: string, words: seq<string>, lay: Layout, out: seq<Printed>)
    requires IsLeft(ws, |ws|, indent, words, lay, out)
    ensures Wrapped(ws, 0, lay.indent, [], lay)
         == if words == [] then out else out + [Printed(Laid(indent, words), words, lay.n)]
  {
  }

  method FormatOutput(t: string, lay: Layout) returns (out: seq<Printed>)
    ensures out == Format(t, lay)
  {
    out := [];
    var line, tp, nrWord := lay.indent, 0, 0;
    var dash := Blanks(|lay.indent|);
    var onLine: seq<string> := [];
    ghost var indent, ws, j := lay.indent, Words(t, 0), 0;
    while true
      invariant IsAt(t, ws, tp, j) && line == Laid(indent, onLine) && nrWord == |onLine|
      invariant IsLeft(ws, j, indent, onLine, lay, out)
      decreases |ws| - j
    {
      var w := TakeWord(t, tp, ws, j);
      if w == [] {
        LeftEnd(ws, indent, onLine, lay, out);
        if nrWord != 0 {
          out := out + [Printed(line, onLine, lay.n)];
        }
        break;
      }
      ghost var more, next := LeftStep(ws, j, indent, onLine, lay, out);
      line := AddWord(line, w, nrWord);
      onLine, nrWord := onLine + [w], nrWord + 1;
      tp := Advance(t, tp, w, ws, j);
      j := j + 1;
      w := TakeWord(t, tp, ws, j);
      if IsFull(line, lay.max) {
        out := out + [Printed(line, onLine, if w == [] then 0 else 1)];
        nrWord, onLine, line, indent := 0, [], dash, dash;
      } else if w == [] {
        LeftEnd(ws, indent, onLine, lay, out);
        out := out + [Printed(line, onLine, lay.n)];
        break;
      } else if |line| + |w| + 1 > lay.max && nrWord != 0 {
        out := out + [Printed(line, onLine, 0)];
        nrWord, onLine, line, indent := 0, [], dash, dash;
      }
    }
  }

  lemma LaidMore(indent: string, words: seq<string>, w: string)
    ensures Laid(indent, words + [w]) == Laid(indent, words) + (if words == [] || IsBlank(w) then [] else [' ']) + w
  {
    assert (words + [w])[..|words|] == words;
  }

  // ----- what the lines are -----

  function AllWords(ps: seq<Printed>): seq<string> {
    if ps == [] then [] else ps[0].words + AllWords(ps[1..])
  }

  lemma AllWordsFirst(p: Printed, ps: seq<Printed>)
    ensures AllWords([p] + ps) == p.words + AllWords(ps)
  {
    assert ([p] + ps)[1..] == ps;
  }

  lemma WordsStep(ws: seq<string>, j: nat, indent: string, words: seq<string>, lay: Layout)
    returns (broken: bool, more: seq<string>, p: Printed)
    requires j < |ws|
    ensures more + ws[j + 1..] == words + ws[j..]
    ensures broken ==> p.words == more && Wrapped(ws, j, indent, words, lay) == [p] + Wrapped(ws, j + 1, Later(lay), [], lay)
    ensures !broken ==> Wrapped(ws, j, indent, words, lay) == Wrapped(ws, j + 1, indent, more, lay)
  {
    var line;
    more, line := WrappedStep(ws, j, indent, words, lay);
    MoveWord(words, ws, j);
    broken := IsBroken(ws, j + 1, line, lay.max);
    p := Printed(line, more, OptionAt(ws, j + 1, line, lay.max));
  }

  lemma MoveWord(words: seq<string>, ws: seq<string>, j: nat)
    requires j < |ws|
    ensures (words + [ws[j]]) + ws[j + 1..] == words + ws[j..]
  {
  }

  /** Every word is on some line, once and in order. */
  lemma {:induction false} WrappedKeepsWords(ws: seq<string>, j: nat, indent: string, words: seq<string>, lay: Layout)
    requires j <= |ws|
    ensures AllWords(Wrapped(ws, j, indent, words, lay)) == words + ws[j..]
    decreases |ws| - j
  {
    if j == |ws| {
      assert words + ws[j..] == words;
      if words != [] {
        AllWordsFirst(Printed(Laid(indent, words), words, lay.n), []);
      }
    } else {
      var broken, more, p := WordsStep(ws, j, indent, words, lay);
      if broken {
        WrappedKeepsWords(ws, j + 1, Later(lay), [], lay);
        AllWordsFirst(p, Wrapped(ws, j + 1, Later(lay), [], lay));
        assert [] + ws[j + 1..] == ws[j + 1..];
      } else {
        WrappedKeepsWords(ws, j + 1, indent, more, lay);
      }
    }
  }

  /** Every line is its indent and its words, and has at least one word. */
  lemma {:induction false} WrappedShape(ws: seq<string>, j: nat, indent: string, words: seq<string>, lay: Layout, k: nat)
    requires j <= |ws| && k < |Wrapped(ws, j, indent, words, lay)|
    ensures var p := Wrapped(ws, j, indent, words, lay)[k];
      p.words != [] && p.line == Laid(if k == 0 then indent else Later(lay), p.words)
    decreases |ws| - j
  {
    if j == |ws| {
    } else {
      var more, line := WrappedStep(ws, j, indent, words, lay);
      if !IsBroken(ws, j + 1, line, lay.max) {
        WrappedShape(ws, j + 1, indent, more, lay, k);
      } else if k > 0 {
        WrappedShape(ws, j + 1, Later(lay), [], lay, k - 1);
      }
    }
  }

  /** The current line, if it has words, has room for the next one. */
  predicate HasRoom(ws: seq<string>, j: nat, indent: string, words: seq<string>, max: nat) {
    words != [] ==> |Laid(indent, words)| + (if j < |ws| then |ws[j]| + 1 else 0) <= max
  }

  lemma RoomStep(ws: seq<string>, j: nat, indent: string, words: seq<string>, lay: Layout)
    returns (broken: bool, more: seq<string>, p: Printed)
    requires j < |ws| && HasRoom(ws, j, indent, words, lay.max)
    ensures broken ==> Wrapped(ws, j, indent, words, lay) == [p] + Wrapped(ws, j + 1, Later(lay), [], lay)
    ensures broken && |p.line| > lay.max ==> |p.words| == 1
    ensures !broken ==> Wrapped(ws, j, indent, words, lay) == Wrapped(ws, j + 1, indent, more, lay)
    ensures !broken ==> HasRoom(ws, j + 1, indent, more, lay.max)
  {
    var line;
    more, line := WrappedStep(ws, j, indent, words, lay);
    broken := IsBroken(ws, j + 1, line, lay.max);
    p := Printed(line, more, OptionAt(ws, j + 1, line, lay.max));
  }

  /** A line that is too long has one word only. */
  predicate AllFit(ps: seq<Printed>, max: nat) {
    forall k | 0 <= k < |ps| :: |ps[k].line| > max ==> |ps[k].words| == 1
  }

  lemma FitFirst(p: Printed, ps: seq<Printed>, max: nat)
    requires (|p.line| > max ==> |p.words| == 1) && AllFit(ps, max)
    ensures AllFit([p] + ps, max)
  {
  }

  lemma FitEnd(ws: seq<string>, indent: string, words: seq<string>, lay: Layout)
    requires HasRoom(ws, |ws|, indent, words, lay.max)
    ensures AllFit(Wrapped(ws, |ws|, indent, words, lay), lay.max)
  {
  }

  lemma {:induction false} WrappedFits(ws: seq<string>, j: nat, indent: string, words: seq<string>, lay: Layout)
    requires j <= |ws| && HasRoom(ws, j, indent, words, lay.max)
    ensures AllFit(Wrapped(ws, j, indent, words, lay), lay.max)
    decreases |ws| - j
  {
    if j == |ws| {
      FitEnd(ws, indent, words, lay);
    } else {
      var broken, more, p := RoomStep(ws, j, indent, words, lay);
      if broken {
        WrappedFits(ws, j + 1, Later(lay), [], lay);
        FitFirst(p, Wrapped(ws, j + 1, Later(lay), [], lay), lay.max);
      } else {
        WrappedFits(ws, j + 1, indent, more, lay);
      }
    }
  }

  lemma {:induction false} WrappedHead(ws: seq<string>, j: nat, indent: string, words: seq<string>, lay: Layout)
    requires j < |ws|
    ensures var ps := Wrapped(ws, j, indent, words, lay);
      ps != [] && ps[0].words != [] && ps[0].words[0] == (words + [ws[j]])[0]
    decreases |ws| - j
  {
    var more, line := WrappedStep(ws, j, indent, words, lay);
    if IsBroken(ws, j + 1, line, lay.max) || j + 1 == |ws| {
      assert Wrapped(ws, j, indent, words, lay)[0].words == more;
    } else {
      WrappedHead(ws, j + 1, indent, more, lay);
      assert (more + [ws[j + 1]])[0] == more[0];
    }
  }

  /** Between two lines: the first is full, or the first word of the second does not fit on it. */
  predicate IsGreedyBreak(p: Printed, q: Printed, max: nat) {
    && q.words != []
    && (IsFull(p.line, max) || |p.line| + |q.words[0]| + 1 > max)
    && p.n == (if IsFull(p.line, max) then 1 else 0)
  }

  /** Lines break only where they must, and a full line with another behind it gets no newline. */
  lemma {:induction false} WrappedIsGreedy(ws: seq<string>, j: nat, indent: string, words: seq<string>, lay: Layout, k: nat)
    requires j <= |ws| && k + 1 < |Wrapped(ws, j, indent, words, lay)|
    ensures var ps := Wrapped(ws, j, indent, words, lay); IsGreedyBreak(ps[k], ps[k + 1], lay.max)
    decreases |ws| - j
  {
    if j == |ws| {
    } else {
      var more, line := WrappedStep(ws, j, indent, words, lay);
      if !IsBroken(ws, j + 1, line, lay.max) {
        WrappedIsGreedy(ws, j + 1, indent, more, lay, k);
      } else if k > 0 {
        WrappedIsGreedy(ws, j + 1, Later(lay), [], lay, k - 1);
      } else if j + 1 < |ws| {
        WrappedHead(ws, j + 1, Later(lay), [], lay);
        assert ([] + [ws[j + 1]])[0] == ws[j + 1];
      }
    }
  }
}
