/**
 Comment removal for C++ sources (doc/doxygen/dxm-strip-comments.py).

 The token grammar below is the specification: a source text is cut into single code
 characters, literals, raw strings and comments, and only comments are rewritten. The
 method `StripText` is the character-level machine of the tool and refines that grammar.

 `wide` is the set of characters outside ASCII that count as alphanumeric; every
 statement holds for every such set.
 */
module StripComments {

  datatype Kind = Code | Str | Chr | Raw | Line | Block

  datatype Token = Token(kind: Kind, text: string)

  predicate IsIdent(c: char, wide: set<char>) {
    'a' <= c <= 'z' || 'A' <= c <= 'Z' || '0' <= c <= '9' || c == '_' || (c > '\U{007F}' && c in wide)
  }

  /** Does an identifier character stand directly before index `i`? */
  predicate Before(src: string, i: nat, wide: set<char>)
    requires i <= |src|
  {
    i > 0 && IsIdent(src[i - 1], wide)
  }

  predicate At2(src: string, i: nat, a: char, b: char) {
    i + 1 < |src| && src[i] == a && src[i + 1] == b
  }

  predicate At3(src: string, i: nat, a: char, b: char, c: char) {
    i + 2 < |src| && src[i] == a && src[i + 1] == b && src[i + 2] == c
  }

  predicate StartsAt(src: string, i: nat, t: string) {
    i + |t| <= |src| && src[i..i + |t|] == t
  }

  // ----- where a token ends, seen from an index inside it -----

  /** A literal runs to its first unescaped closing quote, or to the end of the text. */
  function LiteralEnd(src: string, i: nat, quote: char): (e: nat)
    requires i <= |src|
    ensures i <= e <= |src| && (i < |src| ==> i < e)
    decreases |src| - i
  {
    if i == |src| then i
    else if src[i] == '\\' && i + 1 < |src| then LiteralEnd(src, i + 2, quote)
    else if src[i] == quote then i + 1
    else LiteralEnd(src, i + 1, quote)
  }

  /** A line comment runs to its first newline that is not spliced by a backslash. */
  function LineEnd(src: string, i: nat): (e: nat)
    requires i <= |src|
    ensures i <= e <= |src| && (i < |src| ==> i < e)
    decreases |src| - i
  {
    if i == |src| then i
    else if At2(src, i, '\\', '\n') then LineEnd(src, i + 2)
    else if At3(src, i, '\\', '\r', '\n') then LineEnd(src, i + 3)
    else if src[i] == '\n' then i + 1
    else LineEnd(src, i + 1)
  }

  function BlockEnd(src: string, i: nat): (e: nat)
    requires i <= |src|
    ensures i <= e <= |src| && (i < |src| ==> i < e)
    decreases |src| - i
  {
    if i == |src| then i
    else if At2(src, i, '*', '/') then i + 2
    else BlockEnd(src, i + 1)
  }

  predicate BlockClosed(src: string, i: nat)
    requires i <= |src|
    decreases |src| - i
  {
    i < |src| && (At2(src, i, '*', '/') || BlockClosed(src, i + 1))
  }

  function RawEnd(src: string, i: nat, delim: string): (e: nat)
    requires i <= |src| && delim != []
    ensures i <= e <= |src| && (i < |src| ==> i < e)
    decreases |src| - i
  {
    if i == |src| then i
    else if StartsAt(src, i, delim) then i + |delim|
    else RawEnd(src, i + 1, delim)
  }

  /** The first `c` at or after `i`, or the length of the text. */
  function IndexOf(src: string, i: nat, c: char): (k: nat)
    requires i <= |src|
    ensures i <= k <= |src| && (k < |src| ==> src[k] == c)
    decreases |src| - i
  {
    if i == |src| || src[i] == c then i else IndexOf(src, i + 1, c)
  }

  // ----- the grammar -----

  /** An `R"` that opens a raw string as soon as a parenthesis follows anywhere behind it. */
  predicate RawCandidate(src: string, i: nat, wide: set<char>)
    requires i <= |src|
  {
    At2(src, i, 'R', '"') && !Before(src, i, wide)
  }

  predicate RawStart(src: string, i: nat, wide: set<char>)
    requires i <= |src|
  {
    RawCandidate(src, i, wide) && IndexOf(src, i + 2, '(') < |src|
  }

  function RawDelim(src: string, i: nat): (d: string)
    requires i + 2 <= |src|
    ensures d != []
  {
    [')'] + src[i + 2..IndexOf(src, i + 2, '(')] + ['"']
  }

  function KindAt(src: string, i: nat, wide: set<char>): Kind
    requires i < |src|
  {
    if RawStart(src, i, wide) then Raw
    else if At2(src, i, '/', '/') then Line
    else if At2(src, i, '/', '*') then Block
    else if src[i] == '"' then Str
    else if src[i] == '\'' then Chr
    else Code
  }

  function EndAt(src: string, i: nat, wide: set<char>): (e: nat)
    requires i < |src|
    ensures i < e <= |src|
  {
    match KindAt(src, i, wide)
    case Raw => RawEnd(src, IndexOf(src, i + 2, '(') + 1, RawDelim(src, i))
    case Line => LineEnd(src, i + 2)
    case Block => BlockEnd(src, i + 2)
    case Str => LiteralEnd(src, i + 1, '"')
    case Chr => LiteralEnd(src, i + 1, '\'')
    case Code => i + 1
  }

  function TokenAt(src: string, i: nat, wide: set<char>): Token
    requires i < |src|
  {
    Token(KindAt(src, i, wide), src[i..EndAt(src, i, wide)])
  }

  function Tokens(src: string, i: nat, wide: set<char>): seq<Token>
    requires i <= |src|
    decreases |src| - i, 1
  {
    if i == |src| then [] else TokensFrom(src, i, wide)
  }

  function TokensFrom(src: string, i: nat, wide: set<char>): seq<Token>
    requires i < |src|
    decreases |src| - i, 0
  {
    [TokenAt(src, i, wide)] + Tokens(src, EndAt(src, i, wide), wide)
  }

  function Lex(src: string, wide: set<char>): seq<Token> {
    Tokens(src, 0, wide)
  }

  function Source(ts: seq<Token>): string {
    if ts == [] then [] else ts[0].text + Source(ts[1..])
  }

  predicate IsComment(t: Token) {
    t.kind == Line || t.kind == Block
  }

  // ----- what is printed -----

  function Newlines(s: string): string {
    if s == [] then []
    else if s[0] == '\n' then ['\n'] + Newlines(s[1..])
    else Newlines(s[1..])
  }

  function SpaceIf(b: bool): string {
    if b then [' '] else []
  }

  /** A comment leaves its newlines, and a closed block comment one space; all else is verbatim. */
  function Render(t: Token): string {
    if t.kind == Line then Newlines(t.text)
    else if t.kind == Block then Newlines(t.text) + SpaceIf(|t.text| >= 2 && BlockClosed(t.text, 2))
    else t.text
  }

  function Stripped(ts: seq<Token>): string {
    if ts == [] then [] else Render(ts[0]) + Stripped(ts[1..])
  }

  function Strip(src: string, wide: set<char>): string {
    Stripped(Lex(src, wide))
  }

  // ----- the machine -----

  datatype State = InCode | InLine | InBlock | InString | InChar | InRaw

  /** One turn of the loop: the next state and index, and what it prints. */
  datatype Turn = Turn(state: State, delim: string, next: nat, emit: string)

  function TurnAt(src: string, wide: set<char>, state: State, delim: string, i: nat): (r: Turn)
    requires i < |src|
    ensures i < r.next <= |src|
  {
    match state
    case InCode =>
      if RawStart(src, i, wide) then
        var close := IndexOf(src, i + 2, '(');
        Turn(InRaw, RawDelim(src, i), close + 1, src[i..close + 1])
      else if At2(src, i, '/', '/') then Turn(InLine, delim, i + 2, [])
      else if At2(src, i, '/', '*') then Turn(InBlock, delim, i + 2, [])
      else Turn(if src[i] == '"' then InString else if src[i] == '\'' then InChar else InCode, delim, i + 1, [src[i]])
    case InRaw =>
      if StartsAt(src, i, delim) && delim != [] then Turn(InCode, delim, i + |delim|, delim)
      else Turn(InRaw, delim, i + 1, [src[i]])
    case InString => LiteralTurn(src, state, delim, i, '"')
    case InChar => LiteralTurn(src, state, delim, i, '\'')
    case InLine =>
      if At2(src, i, '\\', '\n') then Turn(InLine, delim, i + 2, ['\n'])
      else if At3(src, i, '\\', '\r', '\n') then Turn(InLine, delim, i + 3, ['\n'])
      else if src[i] == '\n' then Turn(InCode, delim, i + 1, ['\n'])
      else Turn(InLine, delim, i + 1, [])
    case InBlock =>
      if At2(src, i, '*', '/') then Turn(InCode, delim, i + 2, [' '])
      else Turn(InBlock, delim, i + 1, if src[i] == '\n' then ['\n'] else [])
  }

  function LiteralTurn(src: string, state: State, delim: string, i: nat, quote: char): (r: Turn)
    requires i < |src|
    ensures i < r.next <= |src|
  {
    if src[i] == '\\' && i + 1 < |src| then Turn(state, delim, i + 2, src[i..i + 2])
    else Turn(if src[i] == quote then InCode else state, delim, i + 1, [src[i]])
  }

  /** What the loop prints from index `i` on. */
  function Run(src: string, wide: set<char>, state: State, delim: string, i: nat): string
    requires i <= |src|
    decreases |src| - i
  {
    if i == |src| then []
    else
      var r := TurnAt(src, wide, state, delim, i);
      r.emit + Run(src, wide, r.state, r.delim, r.next)
  }

  // ----- the machine prints what the grammar says -----

  lemma Cut(src: string, i: nat, k: nat, e: nat, behind: string)
    requires i <= k <= e <= |src|
    ensures src[i..e] + behind == src[i..k] + (src[k..e] + behind)
  {
    assert src[i..e] == src[i..k] + src[k..e];
  }

  lemma CutNewlines(src: string, i: nat, k: nat, e: nat, behind: string)
    requires i <= k <= e <= |src|
    ensures Newlines(src[i..e]) + behind == Newlines(src[i..k]) + (Newlines(src[k..e]) + behind)
  {
    assert src[i..e] == src[i..k] + src[k..e];
    NewlinesConcat(src[i..k], src[k..e]);
  }

  lemma {:induction false} NewlinesConcat(a: string, b: string)
    ensures Newlines(a + b) == Newlines(a) + Newlines(b)
  {
    if a == [] {
      assert a + b == b;
    } else {
      assert (a + b)[1..] == a[1..] + b;
      NewlinesConcat(a[1..], b);
    }
  }

  /** The newlines of one, two or three characters. */
  lemma NewlinesShort(src: string, i: nat)
    requires i < |src|
    ensures Newlines(src[i..i + 1]) == if src[i] == '\n' then ['\n'] else []
    ensures i + 1 < |src| ==> Newlines(src[i..i + 2]) == Newlines(src[i..i + 1]) + Newlines(src[i + 1..i + 2])
    ensures i + 2 < |src| ==> Newlines(src[i..i + 3]) == Newlines(src[i..i + 1]) + Newlines(src[i + 1..i + 3])
  {
    assert src[i..i + 1][1..] == [];
    if i + 1 < |src| {
      CutNewlines(src, i, i + 1, i + 2, []);
    }
    if i + 2 < |src| {
      CutNewlines(src, i, i + 1, i + 3, []);
    }
  }

  lemma {:induction false} RunLiteral(src: string, wide: set<char>, state: State, delim: string, i: nat, quote: char)
    requires (state == InString && quote == '"') || (state == InChar && quote == '\'')
    requires i <= |src|
    ensures var e := LiteralEnd(src, i, quote);
      Run(src, wide, state, delim, i) == src[i..e] + Run(src, wide, InCode, delim, e)
    decreases |src| - i
  {
    if i == |src| {
    } else {
      var e := LiteralEnd(src, i, quote);
      var r := TurnAt(src, wide, state, delim, i);
      assert src[i..i + 1] == [src[i]];
      if r.state == state {
        RunLiteral(src, wide, state, delim, r.next, quote);
        Cut(src, i, r.next, e, Run(src, wide, InCode, delim, e));
      }
    }
  }

  lemma {:induction false} RunRaw(src: string, wide: set<char>, delim: string, i: nat)
    requires i <= |src| && delim != []
    ensures var e := RawEnd(src, i, delim);
      Run(src, wide, InRaw, delim, i) == src[i..e] + Run(src, wide, InCode, delim, e)
    decreases |src| - i
  {
    var e := RawEnd(src, i, delim);
    if i == |src| {
      assert src[i..e] == [];
    } else if StartsAt(src, i, delim) {
      assert src[i..e] == delim;
    } else {
      assert src[i..i + 1] == [src[i]];
      RunRaw(src, wide, delim, i + 1);
      Cut(src, i, i + 1, e, Run(src, wide, InCode, delim, e));
    }
  }

  lemma {:induction false} RunLine(src: string, wide: set<char>, delim: string, i: nat)
    requires i <= |src|
    ensures var e := LineEnd(src, i);
      Run(src, wide, InLine, delim, i) == Newlines(src[i..e]) + Run(src, wide, InCode, delim, e)
    decreases |src| - i
  {
    if i == |src| {
    } else {
      var e := LineEnd(src, i);
      var r := TurnAt(src, wide, InLine, delim, i);
      LineTurnEmits(src, wide, delim, i);
      if r.state == InLine {
        RunLine(src, wide, delim, r.next);
        CutNewlines(src, i, r.next, e, Run(src, wide, InCode, delim, e));
      }
    }
  }

  lemma LineTurnEmits(src: string, wide: set<char>, delim: string, i: nat)
    requires i < |src|
    ensures var r := TurnAt(src, wide, InLine, delim, i); r.emit == Newlines(src[i..r.next])
  {
    NewlinesShort(src, i);
    if i + 1 < |src| {
      NewlinesShort(src, i + 1);
    }
    if i + 2 < |src| {
      NewlinesShort(src, i + 2);
    }
  }

  lemma {:induction false} RunBlock(src: string, wide: set<char>, delim: string, i: nat)
    requires i <= |src|
    ensures var e := BlockEnd(src, i);
      Run(src, wide, InBlock, delim, i)
        == Newlines(src[i..e]) + (SpaceIf(BlockClosed(src, i)) + Run(src, wide, InCode, delim, e))
    decreases |src| - i
  {
    if i == |src| {
    } else {
      var e := BlockEnd(src, i);
      NewlinesShort(src, i);
      if At2(src, i, '*', '/') {
        NewlinesShort(src, i + 1);
      } else {
        RunBlock(src, wide, delim, i + 1);
        CutNewlines(src, i, i + 1, e, SpaceIf(BlockClosed(src, i)) + Run(src, wide, InCode, delim, e));
      }
    }
  }

  // ----- windows: a token looks the same wherever its text stands -----

  /** `src[a..e]` stands in `dst` shifted by `d`, and the texts end together if `src` ends there. */
  ghost predicate Window(src: string, a: nat, e: nat, dst: string, d: int) {
    && a <= e <= |src| && 0 <= a + d && e + d <= |dst|
    && (forall k | a <= k < e :: src[k] == dst[k + d])
    && (e == |src| ==> e + d == |dst|)
  }

  lemma {:induction false} LiteralWindow(src: string, i: nat, quote: char, dst: string, d: int)
    requires i <= |src| && Window(src, i, LiteralEnd(src, i, quote), dst, d)
    ensures LiteralEnd(dst, i + d, quote) == LiteralEnd(src, i, quote) + d
    decreases |src| - i
  {
    if i == |src| {
    } else if src[i] == '\\' && i + 1 < |src| {
      LiteralWindow(src, i + 2, quote, dst, d);
    } else if src[i] == quote {
    } else {
      LiteralWindow(src, i + 1, quote, dst, d);
    }
  }

  lemma {:induction false} LineWindow(src: string, i: nat, dst: string, d: int)
    requires i <= |src| && Window(src, i, LineEnd(src, i), dst, d)
    ensures LineEnd(dst, i + d) == LineEnd(src, i) + d
    decreases |src| - i
  {
    if i == |src| {
    } else if At2(src, i, '\\', '\n') {
      LineWindow(src, i + 2, dst, d);
    } else if At3(src, i, '\\', '\r', '\n') {
      LineWindow(src, i + 3, dst, d);
    } else if src[i] == '\n' {
    } else {
      LineWindow(src, i + 1, dst, d);
    }
  }

  lemma {:induction false} BlockWindow(src: string, i: nat, dst: string, d: int)
    requires i <= |src| && Window(src, i, BlockEnd(src, i), dst, d)
    ensures BlockEnd(dst, i + d) == BlockEnd(src, i) + d && BlockClosed(dst, i + d) == BlockClosed(src, i)
    decreases |src| - i
  {
    if i == |src| || At2(src, i, '*', '/') {
    } else {
      BlockWindow(src, i + 1, dst, d);
    }
  }

  lemma {:induction false} RawWindow(src: string, i: nat, delim: string, dst: string, d: int)
    requires i <= |src| && delim != [] && Window(src, i, RawEnd(src, i, delim), dst, d)
    ensures RawEnd(dst, i + d, delim) == RawEnd(src, i, delim) + d
    decreases |src| - i
  {
    if i == |src| {
    } else {
      var e := RawEnd(src, i, delim);
      if StartsAt(src, i, delim) {
        assert dst[i + d..e + d] == src[i..e];
      } else {
        RawEndRoom(src, i, delim);
        if i + |delim| <= e {
          SliceWindow(src, i, i + |delim|, dst, d);
        }
        assert !StartsAt(dst, i + d, delim);
        RawWindow(src, i + 1, delim, dst, d);
      }
    }
  }

  /** A raw string that is closed ends with its whole delimiter. */
  lemma {:induction false} RawEndRoom(src: string, i: nat, delim: string)
    requires i <= |src| && delim != []
    ensures RawEnd(src, i, delim) == |src| || i + |delim| <= RawEnd(src, i, delim)
    decreases |src| - i
  {
    if i == |src| || StartsAt(src, i, delim) {
      assert RawEnd(src, i, delim) == |src| || RawEnd(src, i, delim) == i + |delim|;
    } else {
      RawEndRoom(src, i + 1, delim);
    }
  }

  lemma {:induction false} IndexWindow(src: string, i: nat, c: char, dst: string, d: int)
    requires i <= |src| && IndexOf(src, i, c) < |src|
    requires Window(src, i, IndexOf(src, i, c) + 1, dst, d)
    ensures IndexOf(dst, i + d, c) == IndexOf(src, i, c) + d
    decreases |src| - i
  {
    if src[i] == c {
      assert dst[i + d] == c;
    } else {
      IndexWindow(src, i + 1, c, dst, d);
    }
  }

  lemma {:induction false} IndexAbsent(src: string, i: nat, c: char)
    requires i <= |src|
    ensures IndexOf(src, i, c) == |src| <==> (forall k | i <= k < |src| :: src[k] != c)
    decreases |src| - i
  {
    if i == |src| || src[i] == c {
      assert IndexOf(src, i, c) == i;
    } else {
      IndexAbsent(src, i + 1, c);
    }
  }

  lemma SliceWindow(src: string, a: nat, e: nat, dst: string, d: int)
    requires a <= e <= |src| && 0 <= a + d && e + d <= |dst|
    requires forall k | a <= k < e :: src[k] == dst[k + d]
    ensures src[a..e] == dst[a + d..e + d]
  {
  }

  lemma RawOpenWindow(src: string, i: nat, wide: set<char>, dst: string, d: int)
    requires i < |src| && RawStart(src, i, wide) && Window(src, i, EndAt(src, i, wide), dst, d)
    ensures IndexOf(dst, i + d + 2, '(') == IndexOf(src, i + 2, '(') + d
    ensures RawDelim(dst, i + d) == RawDelim(src, i)
  {
    var close := IndexOf(src, i + 2, '(');
    IndexWindow(src, i + 2, '(', dst, d);
    SliceWindow(src, i + 2, close, dst, d);
  }

  lemma RawTokenWindow(src: string, i: nat, wide: set<char>, dst: string, d: int)
    requires i < |src| && RawStart(src, i, wide) && Window(src, i, EndAt(src, i, wide), dst, d)
    requires Before(dst, i + d, wide) == Before(src, i, wide)
    ensures RawStart(dst, i + d, wide) && EndAt(dst, i + d, wide) == EndAt(src, i, wide) + d
  {
    RawOpenWindow(src, i, wide, dst, d);
    RawWindow(src, IndexOf(src, i + 2, '(') + 1, RawDelim(src, i), dst, d);
  }

  /** A token of any kind other than a code character, found again at another place. */
  lemma LongWindow(src: string, i: nat, wide: set<char>, dst: string, d: int)
    requires i < |src| && KindAt(src, i, wide) != Code && Window(src, i, EndAt(src, i, wide), dst, d)
    requires RawStart(src, i, wide) ==> !Before(dst, i + d, wide)
    ensures KindAt(dst, i + d, wide) == KindAt(src, i, wide) && EndAt(dst, i + d, wide) == EndAt(src, i, wide) + d
  {
    if RawStart(src, i, wide) {
      RawTokenWindow(src, i, wide, dst, d);
    } else if At2(src, i, '/', '/') {
      LineWindow(src, i + 2, dst, d);
    } else if At2(src, i, '/', '*') {
      BlockWindow(src, i + 2, dst, d);
    } else {
      LiteralWindow(src, i + 1, src[i], dst, d);
    }
  }

  // ----- the loop -----

  lemma StrippedCons(t: Token, ts: seq<Token>)
    ensures Stripped([t] + ts) == Render(t) + Stripped(ts)
    ensures Source([t] + ts) == t.text + Source(ts)
  {
    assert ([t] + ts)[1..] == ts;
  }

  lemma TokensStep(src: string, i: nat, wide: set<char>, t: Token, e: nat)
    requires i < |src| && TokenAt(src, i, wide) == t && EndAt(src, i, wide) == e
    ensures Tokens(src, i, wide) == [t] + Tokens(src, e, wide)
  {
    assert Tokens(src, i, wide) == TokensFrom(src, i, wide);
  }

  lemma StrippedStep(src: string, i: nat, wide: set<char>, t: Token, e: nat)
    requires i < |src| && TokenAt(src, i, wide) == t && EndAt(src, i, wide) == e
    ensures Stripped(Tokens(src, i, wide)) == Render(t) + Stripped(Tokens(src, e, wide))
  {
    TokensStep(src, i, wide, t, e);
    StrippedCons(t, Tokens(src, e, wide));
  }

  lemma RenderBlock(src: string, i: nat, wide: set<char>)
    requires i < |src| && At2(src, i, '/', '*')
    ensures Render(TokenAt(src, i, wide)) == Newlines(src[i..BlockEnd(src, i + 2)]) + SpaceIf(BlockClosed(src, i + 2))
  {
    var e := BlockEnd(src, i + 2);
    BlockWindow(src, i + 2, src[i..e], 0 - i);
  }

  lemma CommentOpens(src: string, i: nat, e: nat, behind: string)
    requires i + 2 <= e <= |src| && src[i] != '\n' && src[i + 1] != '\n'
    ensures Newlines(src[i..e]) + behind == Newlines(src[i + 2..e]) + behind
  {
    CutNewlines(src, i, i + 2, e, behind);
    NewlinesShort(src, i);
    NewlinesShort(src, i + 1);
    assert Newlines(src[i..i + 2]) == [];
  }

  lemma RawTurn(src: string, wide: set<char>, delim: string, i: nat) returns (k: nat, delim': string)
    requires i < |src| && RawStart(src, i, wide)
    ensures i < k <= |src| && delim' != [] && EndAt(src, i, wide) == RawEnd(src, k, delim')
    ensures Run(src, wide, InCode, delim, i) == src[i..k] + Run(src, wide, InRaw, delim', k)
  {
    k, delim' := IndexOf(src, i + 2, '(') + 1, RawDelim(src, i);
    RunTurn(src, wide, InCode, delim, i, Turn(InRaw, delim', k, src[i..k]));
  }

  lemma RunTurn(src: string, wide: set<char>, state: State, delim: string, i: nat, r: Turn)
    requires i < |src| && TurnAt(src, wide, state, delim, i) == r
    ensures Run(src, wide, state, delim, i) == r.emit + Run(src, wide, r.state, r.delim, r.next)
  {
  }

  lemma RunRawToken(src: string, wide: set<char>, delim: string, i: nat) returns (delim': string)
    requires i < |src| && RawStart(src, i, wide)
    ensures Run(src, wide, InCode, delim, i)
         == src[i..EndAt(src, i, wide)] + Run(src, wide, InCode, delim', EndAt(src, i, wide))
  {
    var k;
    k, delim' := RawTurn(src, wide, delim, i);
    RunRawFrom(src, wide, delim', i, k);
  }

  lemma RunRawFrom(src: string, wide: set<char>, delim: string, i: nat, k: nat)
    requires i <= k <= |src| && delim != []
    ensures var e := RawEnd(src, k, delim);
      src[i..k] + Run(src, wide, InRaw, delim, k) == src[i..e] + Run(src, wide, InCode, delim, e)
  {
    RunRaw(src, wide, delim, k);
    var e := RawEnd(src, k, delim);
    Cut(src, i, k, e, Run(src, wide, InCode, delim, e));
  }

  lemma RunCommentToken(src: string, wide: set<char>, delim: string, i: nat)
    requires i < |src| && (At2(src, i, '/', '/') || At2(src, i, '/', '*'))
    ensures Run(src, wide, InCode, delim, i)
         == Render(TokenAt(src, i, wide)) + Run(src, wide, InCode, delim, EndAt(src, i, wide))
  {
    var e := EndAt(src, i, wide);
    var behind := Run(src, wide, InCode, delim, e);
    if At2(src, i, '/', '/') {
      RunLine(src, wide, delim, i + 2);
      CommentOpens(src, i, e, behind);
    } else {
      RunBlock(src, wide, delim, i + 2);
      RenderBlock(src, i, wide);
      var space := SpaceIf(BlockClosed(src, i + 2));
      CommentOpens(src, i, e, space + behind);
      Printed(Newlines(src[i..e]), space, behind);
    }
  }

  lemma RunLiteralToken(src: string, wide: set<char>, delim: string, i: nat)
    requires i < |src| && (src[i] == '"' || src[i] == '\'')
    ensures Run(src, wide, InCode, delim, i)
         == src[i..EndAt(src, i, wide)] + Run(src, wide, InCode, delim, EndAt(src, i, wide))
  {
    var e := LiteralEnd(src, i + 1, src[i]);
    assert src[i..i + 1] == [src[i]];
    RunLiteral(src, wide, if src[i] == '"' then InString else InChar, delim, i + 1, src[i]);
    Cut(src, i, i + 1, e, Run(src, wide, InCode, delim, e));
  }

  lemma RunToken(src: string, wide: set<char>, delim: string, i: nat) returns (delim': string)
    requires i < |src|
    ensures Run(src, wide, InCode, delim, i)
         == Render(TokenAt(src, i, wide)) + Run(src, wide, InCode, delim', EndAt(src, i, wide))
  {
    delim' := delim;
    if RawStart(src, i, wide) {
      delim' := RunRawToken(src, wide, delim, i);
    } else if At2(src, i, '/', '/') || At2(src, i, '/', '*') {
      RunCommentToken(src, wide, delim, i);
    } else if src[i] == '"' || src[i] == '\'' {
      RunLiteralToken(src, wide, delim, i);
    } else {
      assert src[i..i + 1] == [src[i]];
    }
  }

  lemma {:induction false} RunIsStripped(src: string, wide: set<char>, delim: string, i: nat)
    requires i <= |src|
    ensures Run(src, wide, InCode, delim, i) == Stripped(Tokens(src, i, wide))
    decreases |src| - i
  {
    if i == |src| {
      assert Tokens(src, i, wide) == [] && Stripped([]) == [];
    } else {
      var e := EndAt(src, i, wide);
      var delim' := RunToken(src, wide, delim, i);
      RunIsStripped(src, wide, delim', e);
      StrippedStep(src, i, wide, TokenAt(src, i, wide), e);
    }
  }

  lemma Printed(out: string, emit: string, behind: string)
    ensures out + (emit + behind) == (out + emit) + behind
  {
  }

  /** The body of the loop, one character or one lookahead match at a time. */
  method TakeTurn(src: string, wide: set<char>, state: State, rawDelim: string, i: nat)
    returns (state': State, rawDelim': string, i': nat, emit: string)
    requires i < |src|
    ensures TurnAt(src, wide, state, rawDelim, i) == Turn(state', rawDelim', i', emit)
  {
    var n, c := |src|, src[i];
    state', rawDelim', i', emit := state, rawDelim, i + 1, [];
    match state
    case InCode =>
      if c == 'R' && i + 1 < n && src[i + 1] == '"' && (i == 0 || !IsIdent(src[i - 1], wide)) {
        var close := IndexOf(src, i + 2, '(');
        if close != n {
          rawDelim' := [')'] + src[i + 2..close] + ['"'];
          emit := src[i..close + 1];
          i' := close + 1;
          state' := InRaw;
          return;
        }
      }
      if c == '/' && i + 1 < n && src[i + 1] == '/' {
        state', i' := InLine, i + 2;
        return;
      }
      if c == '/' && i + 1 < n && src[i + 1] == '*' {
        state', i' := InBlock, i + 2;
        return;
      }
      if c == '"' {
        state' := InString;
      } else if c == '\'' {
        state' := InChar;
      }
      emit := [c];

    case InRaw =>
      if i + |rawDelim| <= n && src[i..i + |rawDelim|] == rawDelim && rawDelim != [] {
        emit, i', state' := rawDelim, i + |rawDelim|, InCode;
        return;
      }
      emit := [c];

    case InString | InChar =>
      if c == '\\' && i + 1 < n {
        emit, i' := src[i..i + 2], i + 2;
        return;
      }
      emit := [c];
      if (state == InString && c == '"') || (state == InChar && c == '\'') {
        state' := InCode;
      }

    case InLine =>
      if c == '\\' && i + 1 < n && src[i + 1] == '\n' {
        emit, i' := ['\n'], i + 2;
        return;
      }
      if c == '\\' && i + 2 < n && src[i + 1] == '\r' && src[i + 2] == '\n' {
        emit, i' := ['\n'], i + 3;
        return;
      }
      if c == '\n' {
        emit, state' := ['\n'], InCode;
      }

    case InBlock =>
      if c == '*' && i + 1 < n && src[i + 1] == '/' {
        emit, i', state' := [' '], i + 2, InCode;
        return;
      }
      if c == '\n' {
        emit := ['\n'];
      }
  }

  /** The character loop of the tool. */
  method StripText(src: string, wide: set<char>) returns (out: string)
    ensures out == Strip(src, wide)
  {
    RunIsStripped(src, wide, "", 0);
    out := [];
    var state, i, rawDelim := InCode, 0, "";
    while i < |src|
      invariant 0 <= i <= |src|
      invariant out + Run(src, wide, state, rawDelim, i) == Strip(src, wide)
    {
      ghost var r := TurnAt(src, wide, state, rawDelim, i);
      Printed(out, r.emit, Run(src, wide, r.state, r.delim, r.next));
      var emit;
      state, rawDelim, i, emit := TakeTurn(src, wide, state, rawDelim, i);
      out := out + emit;
    }
  }
}
