/**
 Why a DENTER line is never moved over another one that stands first: its code reads as a
 call, whatever is joined to it, and a call is no declaration.
 */
module DenterCalls {
  import opened DenterLines

  /** Letters up to `m`, blanks up to `n`, then a parenthesis; and not DSTRING_STATIC. */
  ghost predicate CallHead(s: string, m: nat, n: nat) {
    && 6 <= m <= n < |s| && s[n] == '(' && s[0] == 'D' && s[1] == 'E'
    && (forall x | 0 <= x < m :: IsAlpha(s[x]))
    && (forall x | m <= x < n :: IsSpace(s[x]))
  }

  lemma {:induction false} SkipWordTo(s: string, i: nat, m: nat, wide: set<char>)
    requires i <= m < |s| && (forall x | i <= x < m :: IsAlpha(s[x])) && !IsWord(s[m], wide)
    ensures SkipWord(s, i, wide) == m
    decreases m - i
  {
    if i == m {
    } else {
      SkipWordTo(s, i + 1, m, wide);
    }
  }

  lemma CallHeadIsCall(s: string, m: nat, n: nat, wide: set<char>)
    requires CallHead(s, m, n)
    ensures IsCall(s, wide) && !StartsAt(s, 0, "DSTRING_STATIC")
  {
    SkipWordTo(s, 0, m, wide);
    var k := SkipSpace(s, m);
    assert k == n;
    assert |s| >= 14 ==> s[0..14][1] == s[1];
    assert "DSTRING_STATIC"[1] == 'S';
  }

  lemma CallHeadIsNoDeclaration(s: string, m: nat, n: nat, wide: set<char>)
    requires CallHead(s, m, n)
    ensures !IsDeclaration(s, wide)
  {
    assert SkipSpace(s, 0) == 0;
    var b := TrimEnd(s, |s|);
    assert n < b;
    CallHeadIsCall(s[..b], m, n, wide);
    assert Strip(s) == s[..b];
  }

  lemma {:induction false} FirstStatement(texts: seq<string>, current: string, m: nat, n: nat)
    requires CallHead(current, m, n)
    ensures StatementsFrom(texts, current) != [] && CallHead(StatementsFrom(texts, current)[0], m, n)
  {
    if texts == [] {
    } else {
      var text := Strip(texts[0]);
      if text == [] {
        FirstStatement(texts[1..], current, m, n);
      } else {
        var joined := Join(current, text);
        assert CallHead(joined, m, n);
        if !Complete(joined) {
          FirstStatement(texts[1..], joined, m, n);
        }
      }
    }
  }

  // ----- the code of a DENTER line -----

  predicate Plain(c: char) {
    c != '"' && c != '\'' && c != '/'
  }

  lemma {:induction false} PlainPrefix(line: string, i: nat, n: nat)
    requires i <= n <= |line| && forall x | i <= x < n :: Plain(line[x])
    ensures NoiseFree(line, i, false).text == line[i..n] + NoiseFree(line, n, false).text
    ensures NoiseFree(line, i, false).inComment == NoiseFree(line, n, false).inComment
    decreases n - i
  {
    if i == n {
    } else {
      PlainPrefix(line, i + 1, n);
      assert line[i..n] == [line[i]] + line[i + 1..n];
    }
  }

  /** Blanks up to `a`, letters up to `m`, blanks up to `n`, then a parenthesis. */
  ghost predicate OpensCall(line: string, a: nat, m: nat, n: nat) {
    && a == SkipSpace(line, 0) && a + 6 <= m <= n < |line|
    && line[n] == '(' && line[a] == 'D' && line[a + 1] == 'E'
    && (forall x | a <= x < m :: IsAlpha(line[x]))
    && (forall x | m <= x < n :: IsSpace(line[x]))
  }

  lemma DenterWord(line: string, a: nat) returns (m: nat)
    requires StartsAt(line, a, "DENTER")
    ensures m == if StartsAt(line, a + 6, "_MAIN") then a + 11 else if StartsAt(line, a + 6, "_") then a + 7 else a + 6
    ensures m <= |line| && forall x | a <= x < m :: IsAlpha(line[x])
  {
    m := if StartsAt(line, a + 6, "_MAIN") then a + 11 else if StartsAt(line, a + 6, "_") then a + 7 else a + 6;
    SameChars(line, a, "DENTER");
    if StartsAt(line, a + 6, "_MAIN") {
      SameChars(line, a + 6, "_MAIN");
    } else if StartsAt(line, a + 6, "_") {
      SameChars(line, a + 6, "_");
    }
  }

  /** A DENTER line opens with a call head behind its indentation. */
  lemma DenterOpens(line: string) returns (a: nat, m: nat, n: nat)
    requires IsDenter(line)
    ensures OpensCall(line, a, m, n)
  {
    a := SkipSpace(line, 0);
    n := DenterParen(line);
    m := DenterWord(line, a);
    SameChars(line, a, "DENTER");
  }

  lemma SameChars(line: string, i: nat, t: string)
    requires StartsAt(line, i, t)
    ensures forall x | i <= x < i + |t| :: line[x] == t[x - i]
  {
    forall x | i <= x < i + |t|
      ensures line[x] == t[x - i]
    {
      assert line[x] == line[i..i + |t|][x - i];
    }
  }

  lemma DenterIsCode(line: string)
    requires IsDenter(line)
    ensures !Blank(line) && !IsDirective(line)
  {
    var a, m, n := DenterOpens(line);
  }

  lemma DenterCode(line: string) returns (m: nat, n: nat)
    requires IsDenter(line)
    ensures CallHead(Strip(NoiseFree(line, 0, false).text), m, n)
  {
    var a, m', n' := DenterOpens(line);
    m, n := OpenedCode(line, a, m', n');
  }

  lemma OpenedCode(line: string, a: nat, m: nat, n: nat) returns (m': nat, n': nat)
    requires OpensCall(line, a, m, n)
    ensures CallHead(Strip(NoiseFree(line, 0, false).text), m', n')
  {
    var text, rest := PlainStart(line, n + 1);
    SharedHead(line, text, rest, a, m, n);
    m', n' := m - a, n - a;
  }

  lemma PlainStart(line: string, n: nat) returns (text: string, rest: string)
    requires n <= |line| && forall x | 0 <= x < n :: Plain(line[x])
    ensures text == NoiseFree(line, 0, false).text == line[0..n] + rest
  {
    PlainPrefix(line, 0, n);
    text, rest := NoiseFree(line, 0, false).text, NoiseFree(line, n, false).text;
  }

  lemma SharedHead(line: string, text: string, rest: string, a: nat, m: nat, n: nat)
    requires a + 6 <= m <= n < |line| && line[n] == '(' && line[a] == 'D' && line[a + 1] == 'E'
    requires forall x | 0 <= x < a :: IsSpace(line[x])
    requires forall x | a <= x < m :: IsAlpha(line[x])
    requires forall x | m <= x < n :: IsSpace(line[x])
    requires text == line[0..n + 1] + rest
    ensures CallHead(Strip(text), m - a, n - a)
  {
    assert forall x | 0 <= x <= n :: text[x] == line[x];
    var k, b := SkipSpace(text, 0), TrimEnd(text, |text|);
    assert k == a && n < b;
    CallHeadShift(text, a, b, m, n);
  }

  lemma CallHeadShift(text: string, a: nat, b: nat, m: nat, n: nat)
    requires a + 6 <= m <= n < b <= |text| && text[n] == '(' && text[a] == 'D' && text[a + 1] == 'E'
    requires forall x | a <= x < m :: IsAlpha(text[x])
    requires forall x | m <= x < n :: IsSpace(text[x])
    ensures CallHead(text[a..b], m - a, n - a)
  {
  }

  // ----- a block that holds DENTER lines but no other code is never passed -----

  lemma BlankNoise(line: string)
    requires Blank(line)
    ensures !NoiseFree(line, 0, false).inComment && Strip(NoiseFree(line, 0, false).text) == [] && !IsDirective(line)
  {
    PlainPrefix(line, 0, |line|);
    assert line[0..|line|] + [] == line;
  }

  lemma {:induction false} CodeOfAll(block: seq<string>)
    requires forall x | 0 <= x < |block| :: !IsDirective(block[x])
    ensures CodeOf(block) == block
  {
    if block == [] {
    } else {
      CodeOfAll(block[1..]);
    }
  }

  lemma {:induction false} DenterLeads(block: seq<string>) returns (m: nat, n: nat)
    requires forall x | 0 <= x < |block| :: Blank(block[x]) || IsDenter(block[x])
    requires exists x | 0 <= x < |block| :: !Blank(block[x])
    ensures var s := StatementsFrom(NoiseFreeLines(block, false), []); s != [] && CallHead(s[0], m, n)
  {
    var texts := NoiseFreeLines(block, false);
    if Blank(block[0]) {
      BlankNoise(block[0]);
      m, n := DenterLeads(block[1..]);
      assert texts[1..] == NoiseFreeLines(block[1..], false);
    } else {
      m, n := DenterCode(block[0]);
      var head := Strip(texts[0]);
      if !Complete(head) {
        FirstStatement(texts[1..], head, m, n);
      }
    }
  }

  /** If only DENTER lines are in the way, the first of them blocks the move. */
  lemma DenterBlocks(block: seq<string>, wide: set<char>)
    requires forall x | 0 <= x < |block| :: Blank(block[x]) || IsDenter(block[x])
    requires exists x | 0 <= x < |block| :: !Blank(block[x])
    ensures Blockers(Statements(CodeOf(block)), wide) != []
  {
    forall x | 0 <= x < |block|
      ensures !IsDirective(block[x])
    {
      if Blank(block[x]) {
        BlankNoise(block[x]);
      } else {
        DenterIsCode(block[x]);
      }
    }
    CodeOfAll(block);
    var m, n := DenterLeads(block);
    CallHeadIsNoDeclaration(Statements(block)[0], m, n, wide);
  }
}
