/**
 Edits inside comments (doc/doxygen/dxm-strip-comments.py): a source whose comments are
 exchanged for others that print the same strips to the same text - except for one family of
 inputs, which is described exactly. And when a raw string with an encoding prefix survives.
 */
module CommentEdits {
  import opened StripComments
  import opened StripProperties

  // ----- texts that differ in comments only -----

  /** Where `dst` goes on behind what it has for the token of `src` at `i`. */
  function NextIn(src: string, i: nat, wide: set<char>, dst: string, j: nat): nat
    requires i < |src|
  {
    if j < |dst| && IsComment(TokenAt(src, i, wide)) then EndAt(dst, j, wide) else j + (EndAt(src, i, wide) - i)
  }

  /** At `j`, `dst` has the token of `src` at `i`, or for a comment any one that prints the same. */
  predicate IsExchanged(src: string, i: nat, wide: set<char>, dst: string, j: nat)
    requires i < |src|
  {
    var j' := NextIn(src, i, wide, dst, j);
    && j < |dst| && j' <= |dst|
    && if IsComment(TokenAt(src, i, wide)) then
         IsComment(TokenAt(dst, j, wide)) && Render(TokenAt(dst, j, wide)) == Render(TokenAt(src, i, wide))
       else dst[j..j'] == TokenAt(src, i, wide).text
  }

  /** From `j` on, `dst` is `src` from `i` on with any number of comments exchanged. */
  predicate AreEdits(src: string, i: nat, wide: set<char>, dst: string, j: nat)
    requires i <= |src|
    decreases |src| - i, 1
  {
    if i == |src| then j == |dst| else GoesOn(src, i, wide, dst, j)
  }

  predicate GoesOn(src: string, i: nat, wide: set<char>, dst: string, j: nat)
    requires i < |src|
    decreases |src| - i, 0
  {
    IsExchanged(src, i, wide, dst, j) && AreEdits(src, EndAt(src, i, wide), wide, dst, NextIn(src, i, wide, dst, j))
  }

  /** An `R"` that is code only because no parenthesis follows it. */
  predicate OpenHead(src: string, i: nat, wide: set<char>)
    requires i <= |src|
  {
    RawCandidate(src, i, wide) && !RawStart(src, i, wide)
  }

  /** Some open head of `src` has a parenthesis behind it in `dst`; an exchanged comment has brought it. */
  predicate HeadCloses(src: string, i: nat, wide: set<char>, dst: string, j: nat)
    requires i <= |src|
    decreases |src| - i, 1
  {
    i < |src| && ((OpenHead(src, i, wide) && HasParen(dst, j)) || ClosesLater(src, i, wide, dst, j))
  }

  predicate ClosesLater(src: string, i: nat, wide: set<char>, dst: string, j: nat)
    requires i < |src|
    decreases |src| - i, 0
  {
    HeadCloses(src, EndAt(src, i, wide), wide, dst, NextIn(src, i, wide, dst, j))
  }

  predicate HasParen(s: string, j: nat) {
    exists k | j <= k < |s| :: s[k] == '('
  }

  lemma EditStep(src: string, i: nat, wide: set<char>, dst: string, j: nat)
    requires i < |src|
    ensures AreEdits(src, i, wide, dst, j) <==>
      IsExchanged(src, i, wide, dst, j) && AreEdits(src, EndAt(src, i, wide), wide, dst, NextIn(src, i, wide, dst, j))
  {
    assert AreEdits(src, i, wide, dst, j) == GoesOn(src, i, wide, dst, j);
  }

  lemma CloseStep(src: string, i: nat, wide: set<char>, dst: string, j: nat, j': nat)
    requires i < |src| && j' == NextIn(src, i, wide, dst, j)
    ensures HeadCloses(src, i, wide, dst, j) <==>
      (OpenHead(src, i, wide) && HasParen(dst, j)) || HeadCloses(src, EndAt(src, i, wide), wide, dst, j')
  {
    assert ClosesLater(src, i, wide, dst, j) == HeadCloses(src, EndAt(src, i, wide), wide, dst, j');
  }

  // ----- what they print -----

  lemma HeadStays(src: string, i: nat, wide: set<char>, dst: string, j: nat)
    requires i < |src| && IsExchanged(src, i, wide, dst, j)
    ensures j < |dst| && dst[j] == src[i]
  {
    if !IsComment(TokenAt(src, i, wide)) {
      var e := EndAt(src, i, wide);
      assert dst[j] == dst[j..j + (e - i)][0] == src[i..e][0];
    }
  }

  /** A code character and the one behind it are those of the source. */
  lemma CodeStands(src: string, i: nat, wide: set<char>, dst: string, j: nat)
    requires i < |src| && KindAt(src, i, wide) == Code && AreEdits(src, i, wide, dst, j)
    ensures j < |dst| && dst[j] == src[i] && AreEdits(src, i + 1, wide, dst, j + 1)
    ensures if i + 1 < |src| then j + 1 < |dst| && dst[j + 1] == src[i + 1] else j + 1 == |dst|
  {
    EditStep(src, i, wide, dst, j);
    HeadStays(src, i, wide, dst, j);
    if i + 1 < |src| {
      EditStep(src, i + 1, wide, dst, j + 1);
      HeadStays(src, i + 1, wide, dst, j + 1);
    }
  }

  lemma ParenBehind(s: string, j: nat)
    requires j + 2 <= |s| && s[j] != '(' && s[j + 1] != '('
    ensures IndexOf(s, j + 2, '(') < |s| <==> HasParen(s, j)
  {
    IndexAbsent(s, j + 2, '(');
  }

  lemma CodeKept(src: string, i: nat, wide: set<char>, dst: string, j: nat)
    requires i < |src| && KindAt(src, i, wide) == Code && AreEdits(src, i, wide, dst, j)
    requires j < |dst| && Before(dst, j, wide) == Before(src, i, wide) && !(OpenHead(src, i, wide) && HasParen(dst, j))
    ensures KindAt(dst, j, wide) == Code
  {
    CodeStands(src, i, wide, dst, j);
    if RawCandidate(dst, j, wide) {
      ParenBehind(dst, j);
    }
  }

  lemma TextWindow(src: string, i: nat, wide: set<char>, dst: string, j: nat)
    requires i < |src| && !IsComment(TokenAt(src, i, wide)) && AreEdits(src, i, wide, dst, j)
    ensures Window(src, i, EndAt(src, i, wide), dst, j - i) && dst[j..j + (EndAt(src, i, wide) - i)] == src[i..EndAt(src, i, wide)]
  {
    EditStep(src, i, wide, dst, j);
    SamePoints(src, i, EndAt(src, i, wide), dst, j);
  }

  lemma TextFound(src: string, i: nat, wide: set<char>, dst: string, j: nat)
    requires i < |src| && !IsComment(TokenAt(src, i, wide)) && AreEdits(src, i, wide, dst, j)
    requires j < |dst| && Before(dst, j, wide) == Before(src, i, wide) && !(OpenHead(src, i, wide) && HasParen(dst, j))
    ensures KindAt(dst, j, wide) == KindAt(src, i, wide) && EndAt(dst, j, wide) == j + (EndAt(src, i, wide) - i)
  {
    if KindAt(src, i, wide) == Code {
      CodeKept(src, i, wide, dst, j);
    } else {
      TextWindow(src, i, wide, dst, j);
      LongWindow(src, i, wide, dst, j - i);
    }
  }

  /** A token that is no comment is found again, unless it is an open head that closes. */
  lemma TextKept(src: string, i: nat, wide: set<char>, dst: string, j: nat)
    requires i < |src| && !IsComment(TokenAt(src, i, wide)) && AreEdits(src, i, wide, dst, j) && j <= |dst|
    requires Before(dst, j, wide) == Before(src, i, wide) && !(OpenHead(src, i, wide) && HasParen(dst, j))
    ensures j < |dst| && TokenAt(dst, j, wide) == TokenAt(src, i, wide)
    ensures EndAt(dst, j, wide) == NextIn(src, i, wide, dst, j)
    ensures Before(dst, EndAt(dst, j, wide), wide) == Before(src, EndAt(src, i, wide), wide)
  {
    EditStep(src, i, wide, dst, j);
    HeadStays(src, i, wide, dst, j);
    TextFound(src, i, wide, dst, j);
    TextWindow(src, i, wide, dst, j);
    BeforeStays(src, i, EndAt(src, i, wide), wide, dst, j);
  }

  lemma CommentKept(src: string, i: nat, wide: set<char>, dst: string, j: nat)
    requires i < |src| && IsComment(TokenAt(src, i, wide)) && AreEdits(src, i, wide, dst, j)
    ensures j < |dst| && Render(TokenAt(dst, j, wide)) == Render(TokenAt(src, i, wide))
    ensures EndAt(dst, j, wide) == NextIn(src, i, wide, dst, j)
    ensures var e := EndAt(src, i, wide); e < |src| ==> Before(dst, EndAt(dst, j, wide), wide) == Before(src, e, wide)
  {
    var e := EndAt(src, i, wide);
    EditStep(src, i, wide, dst, j);
    if e < |src| {
      EditStep(src, e, wide, dst, EndAt(dst, j, wide));
      HeadStays(src, e, wide, dst, EndAt(dst, j, wide));
      CommentInside(src, i, wide);
      CommentInside(dst, j, wide);
    }
  }

  lemma TokenKept(src: string, i: nat, wide: set<char>, dst: string, j: nat)
    requires i < |src| && AreEdits(src, i, wide, dst, j) && j <= |dst|
    requires Before(dst, j, wide) == Before(src, i, wide) && !(OpenHead(src, i, wide) && HasParen(dst, j))
    ensures j < |dst| && Render(TokenAt(dst, j, wide)) == Render(TokenAt(src, i, wide))
    ensures var e, j' := EndAt(src, i, wide), EndAt(dst, j, wide);
      && j' == NextIn(src, i, wide, dst, j) && (e < |src| ==> Before(dst, j', wide) == Before(src, e, wide))
      && AreEdits(src, e, wide, dst, j')
  {
    EditStep(src, i, wide, dst, j);
    if IsComment(TokenAt(src, i, wide)) {
      CommentKept(src, i, wide, dst, j);
    } else {
      TextKept(src, i, wide, dst, j);
    }
  }

  /** From an open head on, the one output has no parenthesis and the other has. */
  lemma DanglingShows(src: string, k: nat, wide: set<char>, dst: string, j: nat)
    requires k < |src| && OpenHead(src, k, wide) && j < |dst| && RawStart(dst, j, wide)
    ensures Stripped(Tokens(dst, j, wide)) != Stripped(Tokens(src, k, wide))
  {
    IndexAbsent(src, k + 2, '(');
    RestLacks(src, k, wide, '(');
    var close, e := IndexOf(dst, j + 2, '('), EndAt(dst, j, wide);
    StrippedStep(dst, j, wide, TokenAt(dst, j, wide), e);
    assert dst[j..e][close - j] == '(';
  }

  lemma HeadOpens(src: string, i: nat, wide: set<char>, dst: string, j: nat)
    requires i < |src| && AreEdits(src, i, wide, dst, j) && j <= |dst| && Before(dst, j, wide) == Before(src, i, wide)
    requires OpenHead(src, i, wide) && HasParen(dst, j)
    ensures j < |dst| && RawStart(dst, j, wide)
  {
    CodeStands(src, i, wide, dst, j);
    ParenBehind(dst, j);
  }

  lemma CannotCancel(a: string, b: string, c: string)
    ensures a + b == a + c <==> b == c
  {
    assert (a + b)[|a|..] == b && (a + c)[|a|..] == c;
  }

  lemma {:induction false} EditsShow(src: string, i: nat, wide: set<char>, dst: string, j: nat)
    requires i <= |src| && AreEdits(src, i, wide, dst, j) && j <= |dst|
    requires i < |src| ==> Before(dst, j, wide) == Before(src, i, wide)
    ensures Stripped(Tokens(dst, j, wide)) == Stripped(Tokens(src, i, wide)) <==> !HeadCloses(src, i, wide, dst, j)
    decreases |src| - i
  {
    if i == |src| {
      assert Tokens(src, i, wide) == [] && Tokens(dst, j, wide) == [];
    } else if OpenHead(src, i, wide) && HasParen(dst, j) {
      HeadOpens(src, i, wide, dst, j);
      DanglingShows(src, i, wide, dst, j);
    } else {
      TokenKept(src, i, wide, dst, j);
      var e, j' := EndAt(src, i, wide), EndAt(dst, j, wide);
      CloseStep(src, i, wide, dst, j, j');
      EditsShow(src, e, wide, dst, j');
      StrippedStep(src, i, wide, TokenAt(src, i, wide), e);
      StrippedStep(dst, j, wide, TokenAt(dst, j, wide), j');
      CannotCancel(Render(TokenAt(src, i, wide)), Stripped(Tokens(dst, j', wide)), Stripped(Tokens(src, e, wide)));
    }
  }

  /**
   What the tool is for: exchanging any number of comments for others that print the same
   blanks leaves the output as it is. It holds exactly when no open head has a parenthesis
   behind it in the new text; otherwise the head becomes a raw string that swallows comments.
   */
  lemma CommentEditsInvisible(src: string, wide: set<char>, dst: string)
    requires AreEdits(src, 0, wide, dst, 0)
    ensures Strip(dst, wide) == Strip(src, wide) <==> !HeadCloses(src, 0, wide, dst, 0)
  {
    EditsShow(src, 0, wide, dst, 0);
  }

  // ----- one comment -----

  /** Index `i` is where a token starts, seen from the token start `k`. */
  predicate Reaches(src: string, k: nat, i: nat, wide: set<char>)
    requires k <= |src|
    decreases |src| - k
  {
    k == i || (k < i && k < |src| && Reaches(src, EndAt(src, k, wide), i, wide))
  }


  /** Some `R"` between the token starts `k` and `i` is code only because no parenthesis follows it. */
  predicate DanglingRaw(src: string, k: nat, i: nat, wide: set<char>)
    requires k <= |src|
    decreases |src| - k
  {
    && k < i && k < |src|
    && (OpenHead(src, k, wide) || DanglingRaw(src, EndAt(src, k, wide), i, wide))
  }


  function Edited(src: string, i: nat, e: nat, u: string): string
    requires i <= e <= |src|
  {
    src[..i] + u + src[e..]
  }


  /** `u` is one whole comment when `tail` follows it. */
  predicate CommentBeforeTail(u: string, tail: string, wide: set<char>) {
    u != [] && IsComment(TokenAt(u + tail, 0, wide)) && EndAt(u + tail, 0, wide) == |u|
  }


  ghost predicate SameSuffix(src: string, a: nat, dst: string, b: nat) {
    && a <= |src| && b <= |dst| && |src| - a == |dst| - b
    && (forall k | a <= k < |src| :: src[k] == dst[k + (b - a)])
  }


  lemma {:induction false} IndexSuffix(src: string, a: nat, dst: string, b: nat, c: char)
    requires SameSuffix(src, a, dst, b)
    ensures IndexOf(dst, b, c) == IndexOf(src, a, c) + (b - a)
    decreases |src| - a
  {
    if a == |src| || src[a] == c {
      assert IndexOf(src, a, c) == a && IndexOf(dst, b, c) == b;
    } else {
      IndexSuffix(src, a + 1, dst, b + 1, c);
    }
  }


  lemma TokenSuffix(src: string, a: nat, dst: string, b: nat, wide: set<char>)
    requires SameSuffix(src, a, dst, b) && a < |src| && Before(src, a, wide) == Before(dst, b, wide)
    ensures KindAt(dst, b, wide) == KindAt(src, a, wide)
    ensures EndAt(dst, b, wide) == EndAt(src, a, wide) + (b - a)
  {
    if KindAt(src, a, wide) == Code {
      if RawCandidate(src, a, wide) {
        IndexSuffix(src, a + 2, dst, b + 2, '(');
      }
    } else {
      LongWindow(src, a, wide, dst, b - a);
    }
  }


  lemma CommentWindow(v: string, n: nat, dst: string, i: nat, wide: set<char>, more: bool) returns (t: Token)
    requires v != [] && IsComment(TokenAt(v, 0, wide)) && EndAt(v, 0, wide) == n && SameSuffix(v, 0, dst, i)
    requires more ==> n < |v|
    ensures i < |dst| && t == TokenAt(v, 0, wide) == TokenAt(dst, i, wide) && EndAt(dst, i, wide) == i + n
    ensures more ==> !Before(dst, i + n, wide)
  {
    t := TokenAt(v, 0, wide);
    LongWindow(v, 0, wide, dst, i);
    SliceWindow(v, 0, n, dst, i);
    if more {
      CommentInside(v, 0, wide);
    }
  }


  lemma ReachesStep(src: string, k: nat, i: nat, wide: set<char>)
    requires k < i <= |src| && Reaches(src, k, i, wide)
    ensures EndAt(src, k, wide) <= i && Reaches(src, EndAt(src, k, wide), i, wide)
  {
  }


  lemma EditedPlaces(src: string, i: nat, e: nat, u: string)
    requires i < e <= |src|
    ensures var dst := Edited(src, i, e, u); var v := u + src[e..];
      SameSuffix(v, 0, dst, i) && SameSuffix(src, e, dst, i + |u|) && forall x | 0 <= x < i :: src[x] == dst[x]
  {
  }


  lemma EditedHead(src: string, i: nat, wide: set<char>, u: string)
    requires i < |src| && IsComment(TokenAt(src, i, wide))
    requires CommentBeforeTail(u, src[EndAt(src, i, wide)..], wide)
    ensures var dst := Edited(src, i, EndAt(src, i, wide), u);
      i < |dst| && forall x | 0 <= x <= i :: src[x] == dst[x]
  {
    var e := EndAt(src, i, wide);
    EditedPlaces(src, i, e, u);
    assert src[i] == '/' && (u + src[e..])[0] == '/';
  }


  lemma BeforeBehind(src: string, a: nat, dst: string, b: nat, e: nat, wide: set<char>)
    requires SameSuffix(src, a, dst, b) && a < e <= |src|
    ensures SameSuffix(src, e, dst, e + (b - a))
    ensures e < |src| ==> Before(src, e, wide) == Before(dst, e + (b - a), wide)
  {
  }

  lemma NoParenBehind(src: string, a: nat, dst: string, b: nat, wide: set<char>)
    requires SameSuffix(src, a, dst, b) && a < |src| && OpenHead(src, a, wide)
    ensures !HasParen(dst, b)
  {
    IndexAbsent(src, a + 2, '(');
    forall k | b <= k < |dst|
      ensures dst[k] != '('
    {
      assert src[k - (b - a)] == dst[k];
    }
  }

  lemma SuffixExchanged(src: string, a: nat, dst: string, b: nat, wide: set<char>)
    requires SameSuffix(src, a, dst, b) && a < |src| && Before(src, a, wide) == Before(dst, b, wide)
    ensures IsExchanged(src, a, wide, dst, b) && NextIn(src, a, wide, dst, b) == EndAt(src, a, wide) + (b - a)
  {
    TokenSuffix(src, a, dst, b, wide);
    SliceWindow(src, a, EndAt(src, a, wide), dst, b - a);
  }

  lemma {:induction false} SuffixIsEdit(src: string, a: nat, dst: string, b: nat, wide: set<char>)
    requires SameSuffix(src, a, dst, b) && (a < |src| ==> Before(src, a, wide) == Before(dst, b, wide))
    ensures AreEdits(src, a, wide, dst, b) && !HeadCloses(src, a, wide, dst, b)
    decreases |src| - a
  {
    if a == |src| {
      assert b == |dst|;
    } else {
      var e := EndAt(src, a, wide);
      SuffixExchanged(src, a, dst, b, wide);
      BeforeBehind(src, a, dst, b, e, wide);
      SuffixIsEdit(src, e, dst, e + (b - a), wide);
      EditStep(src, a, wide, dst, b);
      CloseStep(src, a, wide, dst, b, e + (b - a));
      if OpenHead(src, a, wide) {
        NoParenBehind(src, a, dst, b, wide);
      }
    }
  }

  lemma CommentThere(src: string, i: nat, wide: set<char>, u: string, e: nat, dst: string)
    requires i < |src| && IsComment(TokenAt(src, i, wide)) && e == EndAt(src, i, wide) && dst == Edited(src, i, e, u)
    requires CommentBeforeTail(u, src[e..], wide) && Render(TokenAt(u + src[e..], 0, wide)) == Render(TokenAt(src, i, wide))
    ensures i < |dst| && IsComment(TokenAt(dst, i, wide)) && EndAt(dst, i, wide) == i + |u|
    ensures Render(TokenAt(dst, i, wide)) == Render(TokenAt(src, i, wide)) && SameSuffix(src, e, dst, i + |u|)
    ensures e < |src| ==> !Before(src, e, wide) && !Before(dst, i + |u|, wide)
  {
    if e < |src| {
      CommentInside(src, i, wide);
    }
    EditedPlaces(src, i, e, u);
    var t := CommentWindow(u + src[e..], |u|, dst, i, wide, e < |src|);
  }

  lemma RestIsEdit(src: string, i: nat, wide: set<char>, dst: string, e: nat, j: nat)
    requires i < |src| && i < |dst| && IsComment(TokenAt(src, i, wide)) && e == EndAt(src, i, wide)
    requires IsComment(TokenAt(dst, i, wide)) && j == EndAt(dst, i, wide) && SameSuffix(src, e, dst, j)
    requires Render(TokenAt(dst, i, wide)) == Render(TokenAt(src, i, wide))
    requires e < |src| ==> Before(src, e, wide) == Before(dst, j, wide)
    ensures AreEdits(src, i, wide, dst, i) && !HeadCloses(src, i, wide, dst, i)
  {
    SuffixIsEdit(src, e, dst, j, wide);
    EditStep(src, i, wide, dst, i);
    CloseStep(src, i, wide, dst, i, j);
  }

  lemma CommentExchanged(src: string, i: nat, wide: set<char>, u: string, e: nat, dst: string)
    requires i < |src| && IsComment(TokenAt(src, i, wide)) && e == EndAt(src, i, wide) && dst == Edited(src, i, e, u)
    requires CommentBeforeTail(u, src[e..], wide) && Render(TokenAt(u + src[e..], 0, wide)) == Render(TokenAt(src, i, wide))
    ensures AreEdits(src, i, wide, dst, i) && !HeadCloses(src, i, wide, dst, i)
  {
    CommentThere(src, i, wide, u, e, dst);
    RestIsEdit(src, i, wide, dst, e, i + |u|);
  }

  lemma PrefixExchanged(src: string, k: nat, i: nat, wide: set<char>, dst: string)
    requires k < i < |src| && EndAt(src, k, wide) <= i < |dst| && forall x | 0 <= x <= i :: src[x] == dst[x]
    ensures IsExchanged(src, k, wide, dst, k) && NextIn(src, k, wide, dst, k) == EndAt(src, k, wide)
  {
    var e := EndAt(src, k, wide);
    if IsComment(TokenAt(src, k, wide)) {
      LongWindow(src, k, wide, dst, 0);
    }
    SliceWindow(src, k, e, dst, 0);
  }

  /** Behind an open head, a parenthesis of the new text is one of the new comment. */
  lemma ParenAppears(src: string, i: nat, e: nat, u: string, k: nat, wide: set<char>)
    requires k < i <= e <= |src| && OpenHead(src, k, wide)
    ensures HasParen(Edited(src, i, e, u), k) <==> '(' in u
  {
    var dst := Edited(src, i, e, u);
    IndexAbsent(src, k + 2, '(');
    if x :| 0 <= x < |u| && u[x] == '(' {
      assert dst[i + x] == '(';
    }
  }

  lemma {:induction false} OneEdit(src: string, k: nat, i: nat, wide: set<char>, u: string, e: nat, dst: string)
    requires k <= i < |src| && Reaches(src, k, i, wide)
    requires IsComment(TokenAt(src, i, wide)) && e == EndAt(src, i, wide) && dst == Edited(src, i, e, u)
    requires CommentBeforeTail(u, src[e..], wide) && Render(TokenAt(u + src[e..], 0, wide)) == Render(TokenAt(src, i, wide))
    ensures AreEdits(src, k, wide, dst, k) && (HeadCloses(src, k, wide, dst, k) <==> DanglingRaw(src, k, i, wide) && '(' in u)
    decreases i - k
  {
    if k == i {
      CommentExchanged(src, i, wide, u, e, dst);
    } else {
      ReachesStep(src, k, i, wide);
      OneEdit(src, EndAt(src, k, wide), i, wide, u, e, dst);
      EditedHead(src, i, wide, u);
      PrefixExchanged(src, k, i, wide, dst);
      EditStep(src, k, wide, dst, k);
      CloseStep(src, k, wide, dst, k, EndAt(src, k, wide));
      if OpenHead(src, k, wide) {
        ParenAppears(src, i, e, u, k, wide);
      }
    }
  }

  /**
   One comment: replacing it by another one that prints the same leaves the output as it is
   exactly when the new comment has no parenthesis or no open head stands in front of it.
   */
  lemma CommentEditInvisible(src: string, i: nat, wide: set<char>, u: string)
    requires i < |src| && Reaches(src, 0, i, wide) && IsComment(TokenAt(src, i, wide))
    requires CommentBeforeTail(u, src[EndAt(src, i, wide)..], wide)
    requires Render(TokenAt(u + src[EndAt(src, i, wide)..], 0, wide)) == Render(TokenAt(src, i, wide))
    ensures Strip(Edited(src, i, EndAt(src, i, wide), u), wide) == Strip(src, wide)
       <==> !(DanglingRaw(src, 0, i, wide) && '(' in u)
  {
    var e := EndAt(src, i, wide);
    OneEdit(src, 0, i, wide, u, e, Edited(src, i, e, u));
    CommentEditsInvisible(src, wide, Edited(src, i, e, u));
  }

  /** The failing family is not empty: `R"x" //\n` against `R"x" //(\n`. */
  lemma CommentEditCanShow(wide: set<char>)
    ensures Strip("R\"x\" //\n", wide) != Strip("R\"x\" //(\n", wide)
  {
    var a := "R\"x\" //\n";
    var b := "R\"x\" //(\n";
    IndexAbsent(a, 2, '(');
    IndexAbsent(b, 2, '(');
    assert b[7] == '(';
    DanglingShows(a, 0, wide, b, 0);
  }


  // ----- raw strings with an encoding prefix -----

  /** Does a comment start at a token start from `p` on, in front of `q`? */
  predicate CommentStarts(src: string, p: nat, q: nat, wide: set<char>)
    requires p <= |src|
    decreases |src| - p
  {
    p < q && p < |src| && (IsComment(TokenAt(src, p, wide)) || CommentStarts(src, EndAt(src, p, wide), q, wide))
  }

  lemma PrefixBehind(a: string, b: string, rest: string)
    ensures a + b <= a + rest <==> b <= rest
  {
    if |b| <= |rest| {
      assert (a + rest)[..|a + b|] == a + rest[..|b|];
      CannotCancel(a, b, rest[..|b|]);
    }
  }

  lemma VerbatimToEnd(src: string, p: nat, q: nat, wide: set<char>, e: nat)
    requires p < q <= e && p < |src| && !IsComment(TokenAt(src, p, wide)) && e == EndAt(src, p, wide)
    ensures src[p..q] <= Stripped(Tokens(src, p, wide))
  {
    StrippedStep(src, p, wide, TokenAt(src, p, wide), e);
    assert src[p..q] == src[p..e][..q - p];
  }

  lemma VerbatimStep(src: string, p: nat, q: nat, wide: set<char>, e: nat)
    requires p < e <= q <= |src| && !IsComment(TokenAt(src, p, wide)) && e == EndAt(src, p, wide)
    ensures src[p..q] <= Stripped(Tokens(src, p, wide)) <==> src[e..q] <= Stripped(Tokens(src, e, wide))
  {
    StrippedStep(src, p, wide, TokenAt(src, p, wide), e);
    assert src[p..q] == src[p..e] + src[e..q];
    PrefixBehind(src[p..e], src[e..q], Stripped(Tokens(src, e, wide)));
  }

  /** A stretch of text behind a token start is printed verbatim exactly when no comment starts in it. */
  lemma {:induction false} VerbatimExactly(src: string, p: nat, q: nat, wide: set<char>)
    requires p <= q <= |src|
    ensures src[p..q] <= Stripped(Tokens(src, p, wide)) <==> !CommentStarts(src, p, q, wide)
    decreases |src| - p
  {
    if p == q {
      assert src[p..q] == [];
    } else if IsComment(TokenAt(src, p, wide)) {
      RestHead(src, p, wide);
      assert src[p..q][0] == '/';
    } else {
      var e := EndAt(src, p, wide);
      if q <= e {
        VerbatimToEnd(src, p, q, wide, e);
      } else {
        VerbatimStep(src, p, q, wide, e);
        VerbatimExactly(src, e, q, wide);
      }
    }
  }

  /** An identifier character in front of the R, an encoding prefix included, makes it no raw string. */
  lemma PrefixHidesRaw(src: string, i: nat, wide: set<char>)
    requires 0 < i < |src| && IsIdent(src[i - 1], wide)
    ensures KindAt(src, i, wide) != Raw
  {
  }


  predicate IsPrefix(s: string) {
    s == "u8" || s == "u" || s == "U" || s == "L"
  }

  /** A raw string as C++ reads it: an encoding prefix at `p`, the R at `r`, and its end at `q`. */
  predicate IsPrefixedRaw(src: string, p: nat, r: nat, q: nat) {
    && p < r < |src| && IsPrefix(src[p..r]) && At2(src, r, 'R', '"') && IndexOf(src, r + 2, '(') < |src|
    && q == RawEnd(src, IndexOf(src, r + 2, '(') + 1, RawDelim(src, r))
  }

  lemma PrefixIsCode(src: string, p: nat, r: nat, q: nat, wide: set<char>, k: nat)
    requires IsPrefixedRaw(src, p, r, q) && p <= k <= r
    ensures KindAt(src, k, wide) == Code
  {
    if k < r {
      assert src[k] == src[p..r][k - p];
    } else {
      assert src[r - 1] == src[p..r][r - 1 - p];
      PrefixHidesRaw(src, r, wide);
    }
  }

  lemma CodeStep(src: string, k: nat, q: nat, wide: set<char>)
    requires k < q && k < |src| && KindAt(src, k, wide) == Code
    ensures CommentStarts(src, k, q, wide) <==> CommentStarts(src, k + 1, q, wide)
  {
  }

  lemma {:induction false} CodeInFront(src: string, p: nat, r: nat, q: nat, wide: set<char>, k: nat)
    requires IsPrefixedRaw(src, p, r, q) && p <= k <= r
    ensures CommentStarts(src, k, q, wide) <==> CommentStarts(src, r + 1, q, wide)
    decreases r - k
  {
    PrefixIsCode(src, p, r, q, wide, k);
    CodeStep(src, k, q, wide);
    if k < r {
      CodeInFront(src, p, r, q, wide, k + 1);
    }
  }

  /**
   A raw string with an encoding prefix is never recognised. It comes out verbatim exactly
   when no comment starts in it as it is cut into ordinary tokens, from its quote on.
   */
  lemma PrefixedRawVerbatim(src: string, p: nat, r: nat, q: nat, wide: set<char>)
    requires IsPrefixedRaw(src, p, r, q)
    ensures KindAt(src, r, wide) == Code
    ensures src[p..q] <= Stripped(Tokens(src, p, wide)) <==> !CommentStarts(src, r + 1, q, wide)
  {
    PrefixIsCode(src, p, r, q, wide, r);
    CodeInFront(src, p, r, q, wide, p);
    VerbatimExactly(src, p, q, wide);
  }

  lemma PrefixedTokens(src: string, wide: set<char>)
    requires src == "LR\"(\"//)\""
    ensures Lex(src, wide) == [Token(Code, "L"), Token(Code, "R"), Token(Str, "\"(\""), Token(Line, "//)\"")]
  {
    assert src[0] == 'L' && src[1] == 'R' && src[2] == '"' && src[3] == '(' && src[4] == '"' && src[5] == '/' && src[6] == '/';
    assert src[7] == ')' && src[8] == '"' && |src| == 9;
    PrefixHidesRaw(src, 1, wide);
    assert LiteralEnd(src, 4, '"') == 5 && LiteralEnd(src, 3, '"') == 5;
    assert LineEnd(src, 8) == 9 && LineEnd(src, 7) == 9;
    assert src[5..9] == "//)\"" && src[2..5] == "\"(\"" && src[1..2] == "R" && src[0..1] == "L" && Tokens(src, 9, wide) == [];
    TokensStep(src, 5, wide, Token(Line, src[5..9]), 9);
    TokensStep(src, 2, wide, Token(Str, src[2..5]), 5);
    TokensStep(src, 1, wide, Token(Code, src[1..2]), 2);
    TokensStep(src, 0, wide, Token(Code, src[0..1]), 1);
  }


  lemma {:induction false} NoNewlines(s: string)
    requires '\n' !in s
    ensures Newlines(s) == []
  {
    if s == [] {
    } else {
      NoNewlines(s[1..]);
    }
  }


  /** So a raw string LR"("//)" loses its second half: the tool takes it for a string and a comment. */
  lemma PrefixedRawIsCut(src: string, wide: set<char>)
    requires src == "LR\"(\"//)\""
    ensures Strip(src, wide) == "LR\"(\""
  {
    PrefixedTokens(src, wide);
    NoNewlines("//)\"");
    StrippedFour(Token(Code, "L"), Token(Code, "R"), Token(Str, "\"(\""), Token(Line, "//)\""));
  }


  lemma StrippedFour(a: Token, b: Token, c: Token, d: Token)
    ensures Stripped([a, b, c, d]) == Render(a) + (Render(b) + (Render(c) + Render(d)))
  {
    assert [d] + [] == [d] && [c] + [d] == [c, d] && [b] + [c, d] == [b, c, d] && [a] + [b, c, d] == [a, b, c, d];
    StrippedCons(d, []);
    StrippedCons(c, [d]);
    StrippedCons(b, [c, d]);
    StrippedCons(a, [b, c, d]);
  }
}
