/**
 What comment removal keeps: the text is cut without loss, every newline stays, and the
 result has no comments left.
 */
module StripProperties {
  import opened StripComments

  // ----- the cut is lossless, and newlines stay -----

  lemma {:induction false} LexIsLossless(src: string, i: nat, wide: set<char>)
    requires i <= |src|
    ensures Source(Tokens(src, i, wide)) == src[i..]
    decreases |src| - i
  {
    if i == |src| {
      assert Tokens(src, i, wide) == [] && src[i..] == [];
    } else {
      LexIsLossless(src, EndAt(src, i, wide), wide);
      SourceStep(src, i, wide);
      SliceSplits(src, i, EndAt(src, i, wide));
    }
  }

  lemma SourceStep(src: string, i: nat, wide: set<char>)
    requires i < |src|
    ensures var e := EndAt(src, i, wide); Source(Tokens(src, i, wide)) == src[i..e] + Source(Tokens(src, e, wide))
  {
    var t, e := TokenAt(src, i, wide), EndAt(src, i, wide);
    TokensStep(src, i, wide, t, e);
    StrippedCons(t, Tokens(src, e, wide));
  }

  lemma SliceSplits(src: string, i: nat, e: nat)
    requires i <= e <= |src|
    ensures src[i..] == src[i..e] + src[e..]
  {
  }

  lemma {:induction false} NewlinesIdempotent(s: string)
    ensures Newlines(Newlines(s)) == Newlines(s)
  {
    if s == [] {
    } else {
      NewlinesIdempotent(s[1..]);
      if s[0] == '\n' {
        assert (['\n'] + Newlines(s[1..]))[1..] == Newlines(s[1..]);
      }
    }
  }

  lemma RenderKeepsNewlines(t: Token)
    ensures Newlines(Render(t)) == Newlines(t.text)
  {
    NewlinesIdempotent(t.text);
    NewlinesConcat(Newlines(t.text), SpaceIf(|t.text| >= 2 && BlockClosed(t.text, 2)));
    assert Newlines([' ']) == Newlines([]);
  }

  lemma {:induction false} StrippedKeepsNewlines(ts: seq<Token>)
    ensures Newlines(Stripped(ts)) == Newlines(Source(ts))
  {
    if ts == [] {
    } else {
      RenderKeepsNewlines(ts[0]);
      StrippedKeepsNewlines(ts[1..]);
      NewlinesConcat(Render(ts[0]), Stripped(ts[1..]));
      NewlinesConcat(ts[0].text, Source(ts[1..]));
    }
  }

  /** Line structure: the stripped text has exactly the newlines of the source. */
  lemma StripKeepsNewlines(src: string, wide: set<char>)
    ensures Newlines(Strip(src, wide)) == Newlines(src)
  {
    StrippedKeepsNewlines(Lex(src, wide));
    LexIsLossless(src, 0, wide);
    assert src[0..] == src;
  }

  // ----- what is printed for a comment is blank -----

  predicate Blank(s: string) {
    forall k | 0 <= k < |s| :: s[k] == ' ' || s[k] == '\n'
  }

  lemma {:induction false} NewlinesBlank(s: string)
    ensures forall k | 0 <= k < |Newlines(s)| :: Newlines(s)[k] == '\n'
  {
    if s == [] {
    } else {
      NewlinesBlank(s[1..]);
    }
  }

  lemma CommentBlank(t: Token)
    requires IsComment(t)
    ensures Blank(Render(t))
  {
    NewlinesBlank(t.text);
  }

  lemma {:induction false} LineEndsWithNewline(src: string, i: nat)
    requires i <= |src| && LineEnd(src, i) < |src|
    ensures i < LineEnd(src, i) && src[LineEnd(src, i) - 1] == '\n'
    decreases |src| - i
  {
    if At2(src, i, '\\', '\n') {
      LineEndsWithNewline(src, i + 2);
    } else if At3(src, i, '\\', '\r', '\n') {
      LineEndsWithNewline(src, i + 3);
    } else if src[i] == '\n' {
      assert LineEnd(src, i) == i + 1;
    } else {
      LineEndsWithNewline(src, i + 1);
    }
  }

  lemma {:induction false} BlockEndsWithSlash(src: string, i: nat)
    requires i <= |src| && BlockEnd(src, i) < |src|
    ensures BlockClosed(src, i) && src[BlockEnd(src, i) - 1] == '/'
    decreases |src| - i
  {
    if At2(src, i, '*', '/') {
      assert BlockEnd(src, i) == i + 2;
    } else {
      BlockEndsWithSlash(src, i + 1);
    }
  }

  lemma NewlineKept(src: string, i: nat, e: nat)
    requires i < e <= |src| && src[e - 1] == '\n'
    ensures Newlines(src[i..e]) != []
  {
    CutNewlines(src, i, e - 1, e, []);
    NewlinesShort(src, e - 1);
  }

  /** A comment before the end of the text prints something, and no identifier character ends it. */
  lemma CommentInside(src: string, i: nat, wide: set<char>)
    requires i < |src| && IsComment(TokenAt(src, i, wide)) && EndAt(src, i, wide) < |src|
    ensures Render(TokenAt(src, i, wide)) != [] && !Before(src, EndAt(src, i, wide), wide)
  {
    if At2(src, i, '/', '/') {
      LineEndsWithNewline(src, i + 2);
      NewlineKept(src, i, EndAt(src, i, wide));
    } else {
      BlockEndsWithSlash(src, i + 2);
      RenderBlock(src, i, wide);
    }
  }

  /** The rest of the output starts with the next source character, or with the blank of a comment. */
  lemma RestHead(src: string, i: nat, wide: set<char>)
    requires i < |src|
    ensures var rest := Stripped(Tokens(src, i, wide));
      if IsComment(TokenAt(src, i, wide)) then
        src[i] == '/' && (rest == [] || rest[0] == ' ' || rest[0] == '\n')
      else rest != [] && rest[0] == src[i]
  {
    var t, e := TokenAt(src, i, wide), EndAt(src, i, wide);
    StrippedStep(src, i, wide, t, e);
    if IsComment(t) {
      CommentBlank(t);
      if e < |src| {
        CommentInside(src, i, wide);
      }
    }
  }

  lemma {:induction false} RestLacks(src: string, i: nat, wide: set<char>, c: char)
    requires i <= |src| && c != ' ' && c != '\n'
    requires forall k | i <= k < |src| :: src[k] != c
    ensures c !in Stripped(Tokens(src, i, wide))
    decreases |src| - i
  {
    if i == |src| {
      assert Tokens(src, i, wide) == [] && Stripped([]) == [];
    } else {
      var t, e := TokenAt(src, i, wide), EndAt(src, i, wide);
      RestLacks(src, e, wide, c);
      StrippedStep(src, i, wide, t, e);
      if IsComment(t) {
        CommentBlank(t);
      }
    }
  }

  // ----- the output lexes to the same tokens, with blanks for comments -----

  function Codes(s: string): seq<Token> {
    if s == [] then [] else [Token(Code, [s[0]])] + Codes(s[1..])
  }

  function Blanked(t: Token): seq<Token> {
    if IsComment(t) then Codes(Render(t)) else [t]
  }

  function Expand(ts: seq<Token>): seq<Token> {
    if ts == [] then [] else Blanked(ts[0]) + Expand(ts[1..])
  }

  lemma ExpandCons(t: Token, ts: seq<Token>)
    ensures Expand([t] + ts) == Blanked(t) + Expand(ts)
  {
    assert ([t] + ts)[1..] == ts;
  }

  lemma CodesFirst(s: string, rest: seq<Token>)
    requires s != []
    ensures Codes(s) + rest == [Token(Code, [s[0]])] + (Codes(s[1..]) + rest)
  {
  }

  lemma {:induction false} BlanksLex(dst: string, j: nat, n: nat, wide: set<char>)
    requires j + n <= |dst| && Blank(dst[j..j + n])
    ensures Tokens(dst, j, wide) == Codes(dst[j..j + n]) + Tokens(dst, j + n, wide)
    decreases n
  {
    var s := dst[j..j + n];
    if n == 0 {
      assert s == [] && Codes([]) + Tokens(dst, j, wide) == Tokens(dst, j, wide);
    } else {
      assert s[0] == dst[j] && s[1..] == dst[j + 1..j + n];
      assert forall k | 0 <= k < |s| - 1 :: s[1..][k] == s[k + 1];
      BlanksLex(dst, j + 1, n - 1, wide);
      BlankLexes(dst, j, wide);
      CodesFirst(s, Tokens(dst, j + n, wide));
    }
  }

  lemma BlankLexes(dst: string, j: nat, wide: set<char>)
    requires j < |dst| && (dst[j] == ' ' || dst[j] == '\n')
    ensures Tokens(dst, j, wide) == [Token(Code, [dst[j]])] + Tokens(dst, j + 1, wide)
  {
    assert dst[j..j + 1] == [dst[j]];
    TokensStep(dst, j, wide, Token(Code, [dst[j]]), j + 1);
  }

  /** From index `j` on, `dst` is what is printed for `src` from index `i` on. */
  ghost predicate Continues(src: string, i: nat, wide: set<char>, dst: string, j: nat)
    requires i <= |src|
  {
    j <= |dst| && dst[j..] == Stripped(Tokens(src, i, wide))
  }

  lemma RestFrom(src: string, i: nat, wide: set<char>, dst: string, j: nat)
    requires i < |src| && Continues(src, i, wide, dst, j)
    ensures var r := Render(TokenAt(src, i, wide));
      && j + |r| <= |dst| && dst[j..j + |r|] == r
      && Continues(src, EndAt(src, i, wide), wide, dst, j + |r|)
  {
    var t, e := TokenAt(src, i, wide), EndAt(src, i, wide);
    StrippedStep(src, i, wide, t, e);
    var r := Render(t);
    assert dst[j..] == r + Stripped(Tokens(src, e, wide));
    assert dst[j..j + |r|] == dst[j..][..|r|];
    assert dst[j + |r|..] == dst[j..][|r|..];
  }

  /** In the output, the character behind a code character is the same one, or a blank. */
  lemma NextStays(src: string, i: nat, wide: set<char>, dst: string, j: nat)
    requires i < |src| && Continues(src, i, wide, dst, j) && j < |dst|
    ensures dst[j] == src[i] || (src[i] == '/' && (dst[j] == ' ' || dst[j] == '\n'))
  {
    RestHead(src, i, wide);
    assert dst[j] == dst[j..][0];
  }

  lemma NoParen(src: string, i: nat, wide: set<char>, dst: string, j: nat)
    requires i <= |src| && Continues(src, i, wide, dst, j) && IndexOf(src, i, '(') == |src|
    ensures IndexOf(dst, j, '(') == |dst|
  {
    IndexAbsent(src, i, '(');
    RestLacks(src, i, wide, '(');
    forall k | j <= k < |dst|
      ensures dst[k] != '('
    {
      assert dst[k] == dst[j..][k - j];
    }
    IndexAbsent(dst, j, '(');
  }

  /** A code character stays one: no comment and no raw string can form in the output. */
  lemma CodeStays(src: string, i: nat, wide: set<char>, dst: string, j: nat)
    requires i < |src| && KindAt(src, i, wide) == Code && j < |dst| && dst[j] == src[i]
    requires Continues(src, i + 1, wide, dst, j + 1)
    requires Before(dst, j, wide) == Before(src, i, wide)
    ensures KindAt(dst, j, wide) == Code
  {
    if i + 1 < |src| && j + 1 < |dst| {
      NextStays(src, i + 1, wide, dst, j + 1);
      if RawCandidate(src, i, wide) {
        assert IndexOf(src, i + 1, '(') == IndexOf(src, i + 2, '(');
        NoParen(src, i + 1, wide, dst, j + 1);
        assert dst[j + 1] == '"';
        assert IndexOf(dst, j + 1, '(') == IndexOf(dst, j + 2, '(');
      }
    } else if i + 1 == |src| {
      assert dst[j + 1..] == [];
    }
  }

  lemma SamePoints(src: string, i: nat, e: nat, dst: string, j: nat)
    requires i <= e <= |src| && j + (e - i) <= |dst| && dst[j..j + (e - i)] == src[i..e]
    ensures forall k | i <= k < e :: src[k] == dst[k + (j - i)]
  {
    forall k | i <= k < e
      ensures src[k] == dst[k + (j - i)]
    {
      assert src[k] == src[i..e][k - i] == dst[j..j + (e - i)][k - i];
    }
  }

  /** Any token that is not a comment is found again in the output, at its new place. */
  lemma TokenStays(src: string, i: nat, wide: set<char>, dst: string, j: nat)
    requires i < |src| && !IsComment(TokenAt(src, i, wide))
    requires Continues(src, i, wide, dst, j) && Before(dst, j, wide) == Before(src, i, wide)
    ensures j < |dst| && TokenAt(dst, j, wide) == TokenAt(src, i, wide)
    ensures EndAt(dst, j, wide) == j + |TokenAt(src, i, wide).text|
  {
    var e := EndAt(src, i, wide);
    var d := j - i;
    RestFrom(src, i, wide, dst, j);
    SamePoints(src, i, e, dst, j);
    assert e == |src| ==> e + d == |dst| by {
      if e == |src| {
        assert dst[e + d..] == [];
      }
    }
    if KindAt(src, i, wide) == Code {
      CodeStays(src, i, wide, dst, j);
    } else {
      LongWindow(src, i, wide, dst, d);
    }
  }

  lemma CommentLexes(src: string, i: nat, wide: set<char>, dst: string, j: nat)
    requires i < |src| && IsComment(TokenAt(src, i, wide)) && Continues(src, i, wide, dst, j)
    ensures var t := TokenAt(src, i, wide); var j' := j + |Render(t)|;
      j' <= |dst| && Tokens(dst, j, wide) == Blanked(t) + Tokens(dst, j', wide)
  {
    var t := TokenAt(src, i, wide);
    RestFrom(src, i, wide, dst, j);
    CommentBlank(t);
    BlanksLex(dst, j, |Render(t)|, wide);
  }

  lemma CommentBefore(src: string, i: nat, wide: set<char>, dst: string, j: nat)
    requires i < |src| && IsComment(TokenAt(src, i, wide)) && Continues(src, i, wide, dst, j)
    requires EndAt(src, i, wide) < |src|
    ensures var j' := j + |Render(TokenAt(src, i, wide))|;
      j' <= |dst| && !Before(dst, j', wide) && !Before(src, EndAt(src, i, wide), wide)
  {
    var r := Render(TokenAt(src, i, wide));
    RestFrom(src, i, wide, dst, j);
    CommentBlank(TokenAt(src, i, wide));
    CommentInside(src, i, wide);
    assert dst[j + |r| - 1] == dst[j..j + |r|][|r| - 1];
  }

  lemma BeforeStays(src: string, i: nat, e: nat, wide: set<char>, dst: string, j: nat)
    requires i < e <= |src| && j + (e - i) <= |dst| && dst[j..j + (e - i)] == src[i..e]
    ensures Before(dst, j + (e - i), wide) == Before(src, e, wide)
  {
    assert dst[j..j + (e - i)][e - i - 1] == src[i..e][e - i - 1];
  }

  lemma TextLexes(src: string, i: nat, wide: set<char>, dst: string, j: nat) returns (t: Token, e: nat, j': nat)
    requires i < |src| && !IsComment(TokenAt(src, i, wide))
    requires Continues(src, i, wide, dst, j) && Before(dst, j, wide) == Before(src, i, wide)
    ensures t == TokenAt(src, i, wide) && e == EndAt(src, i, wide) && j' == j + |Render(t)| <= |dst|
    ensures Tokens(dst, j, wide) == [t] + Tokens(dst, j', wide)
    ensures Before(dst, j', wide) == Before(src, e, wide)
  {
    t, e := TokenAt(src, i, wide), EndAt(src, i, wide);
    j' := j + (e - i);
    TokenStays(src, i, wide, dst, j);
    TokensStep(dst, j, wide, t, j');
    BeforeStays(src, i, e, wide, dst, j);
  }

  lemma CommentStep(src: string, i: nat, wide: set<char>, dst: string, j: nat) returns (t: Token, e: nat, j': nat)
    requires i < |src| && IsComment(TokenAt(src, i, wide)) && Continues(src, i, wide, dst, j)
    ensures t == TokenAt(src, i, wide) && e == EndAt(src, i, wide) && j' == j + |Render(t)| <= |dst|
    ensures Tokens(dst, j, wide) == Blanked(t) + Tokens(dst, j', wide)
    ensures e < |src| ==> Before(dst, j', wide) == Before(src, e, wide)
  {
    t, e := TokenAt(src, i, wide), EndAt(src, i, wide);
    j' := j + |Render(t)|;
    CommentLexes(src, i, wide, dst, j);
    if e < |src| {
      CommentBefore(src, i, wide, dst, j);
    }
  }

  lemma TextStep(src: string, i: nat, wide: set<char>, dst: string, j: nat) returns (t: Token, e: nat, j': nat)
    requires i < |src| && !IsComment(TokenAt(src, i, wide))
    requires Continues(src, i, wide, dst, j) && Before(dst, j, wide) == Before(src, i, wide)
    ensures t == TokenAt(src, i, wide) && e == EndAt(src, i, wide) && j' == j + |Render(t)| <= |dst|
    ensures Tokens(dst, j, wide) == Blanked(t) + Tokens(dst, j', wide)
    ensures Before(dst, j', wide) == Before(src, e, wide)
  {
    t, e, j' := TextLexes(src, i, wide, dst, j);
  }

  lemma OutputStep(src: string, i: nat, wide: set<char>, dst: string, j: nat) returns (t: Token, e: nat, j': nat)
    requires i < |src| && Continues(src, i, wide, dst, j) && Before(dst, j, wide) == Before(src, i, wide)
    ensures i < e <= |src| && j' <= |dst| && Tokens(src, i, wide) == [t] + Tokens(src, e, wide)
    ensures Continues(src, e, wide, dst, j')
    ensures Tokens(dst, j, wide) == Blanked(t) + Tokens(dst, j', wide)
    ensures e < |src| ==> Before(dst, j', wide) == Before(src, e, wide)
  {
    RestFrom(src, i, wide, dst, j);
    TokensStep(src, i, wide, TokenAt(src, i, wide), EndAt(src, i, wide));
    if IsComment(TokenAt(src, i, wide)) {
      t, e, j' := CommentStep(src, i, wide, dst, j);
    } else {
      t, e, j' := TextStep(src, i, wide, dst, j);
    }
  }

  lemma OutputEnd(src: string, wide: set<char>, dst: string, j: nat)
    requires Continues(src, |src|, wide, dst, j)
    ensures Tokens(dst, j, wide) == Expand(Tokens(src, |src|, wide))
  {
    assert dst[j..] == Stripped([]) == [];
    assert Tokens(src, |src|, wide) == [] && Tokens(dst, j, wide) == [];
  }

  /** The output, cut again, is the same token sequence with every comment replaced by blanks. */
  lemma {:induction false} OutputLexes(src: string, i: nat, wide: set<char>, dst: string, j: nat)
    requires i <= |src| && Continues(src, i, wide, dst, j)
    requires i < |src| ==> Before(dst, j, wide) == Before(src, i, wide)
    ensures Tokens(dst, j, wide) == Expand(Tokens(src, i, wide))
    decreases |src| - i
  {
    if i == |src| {
      OutputEnd(src, wide, dst, j);
    } else {
      var t, e, j' := OutputStep(src, i, wide, dst, j);
      OutputLexes(src, e, wide, dst, j');
      ExpandCons(t, Tokens(src, e, wide));
    }
  }

  lemma {:induction false} CodesPrint(s: string)
    ensures Stripped(Codes(s)) == s
  {
    if s == [] {
    } else {
      CodesPrint(s[1..]);
      StrippedCons(Token(Code, [s[0]]), Codes(s[1..]));
      assert s == [s[0]] + s[1..];
    }
  }

  lemma {:induction false} StrippedConcat(a: seq<Token>, b: seq<Token>)
    ensures Stripped(a + b) == Stripped(a) + Stripped(b)
  {
    if a == [] {
      assert a + b == b;
    } else {
      assert a + b == [a[0]] + (a[1..] + b);
      StrippedConcat(a[1..], b);
      StrippedCons(a[0], a[1..] + b);
    }
  }

  lemma {:induction false} ExpandPrints(ts: seq<Token>)
    ensures Stripped(Expand(ts)) == Stripped(ts)
  {
    if ts == [] {
    } else {
      ExpandPrints(ts[1..]);
      StrippedConcat(Blanked(ts[0]), Expand(ts[1..]));
      if IsComment(ts[0]) {
        CodesPrint(Render(ts[0]));
      } else {
        StrippedCons(ts[0], []);
        assert [ts[0]] + [] == [ts[0]];
      }
    }
  }

  /** Every comment is gone, every other token is still there in order, and a second pass changes nothing. */
  lemma StripIsIdempotent(src: string, wide: set<char>)
    ensures Lex(Strip(src, wide), wide) == Expand(Lex(src, wide))
    ensures Strip(Strip(src, wide), wide) == Strip(src, wide)
  {
    var out := Strip(src, wide);
    assert out[0..] == out;
    OutputLexes(src, 0, wide, out, 0);
    ExpandPrints(Lex(src, wide));
  }
}
