/**
 Moving DENTER lines to the top of their function bodies (doc/doxygen/dxm-denter-first.py).
 */
module DenterFirst {
  import opened DenterLines
  import opened DenterCalls

  const SEARCH_LIMIT := 200

  // ----- what is decided about the DENTER line at `i` -----

  datatype Verdict =
    | AlreadyFirst
    | NoBrace
    | InBranch
    | Blocked(statement: string)
    | Movable(brace: nat)

  predicate IsSkip(v: Verdict) {
    v.NoBrace? || v.InBranch? || v.Blocked?
  }

  /** Closing minus opening braces of the lines from `k` up to `i`. */
  function NetSum(out: seq<string>, k: nat, i: nat): int
    requires k <= i <= |out|
    decreases i - k
  {
    if k == i then 0 else Net(out[k]) + NetSum(out, k + 1, i)
  }

  /** Walking back from `j`: the line of the body brace, or a negative number. */
  function BodyBrace(out: seq<string>, i: nat, j: int, depth: int): (r: int)
    requires j < i <= |out|
    ensures r == -1 || 0 <= r <= j
    decreases j + 1
  {
    if j < 0 || i - j > SEARCH_LIMIT then -1
    else
      var d := depth + Net(out[j]);
      if d < 0 then j else BodyBrace(out, i, j - 1, d)
  }

  /** The brace that nothing below it closes again, and the nearest such one. */
  ghost predicate Opens(out: seq<string>, j: int, i: nat)
    requires i <= |out|
  {
    && 0 <= j < i && i - j <= SEARCH_LIMIT
    && NetSum(out, j, i) < 0 && forall k | j < k < i :: NetSum(out, k, i) >= 0
  }

  lemma {:induction false} BodyBraceFrom(out: seq<string>, i: nat, j: int)
    requires -1 <= j < i <= |out| && forall k | j < k < i :: NetSum(out, k, i) >= 0
    ensures var r := BodyBrace(out, i, j, NetSum(out, j + 1, i));
      if 0 <= r then Opens(out, r, i) else forall k: int :: !Opens(out, k, i)
    decreases j + 1
  {
    if j < 0 || i - j > SEARCH_LIMIT || NetSum(out, j, i) < 0 {
      assert BodyBrace(out, i, j, NetSum(out, j + 1, i)) == if 0 <= j && i - j <= SEARCH_LIMIT then j else -1;
    } else {
      BodyBraceFrom(out, i, j - 1);
    }
  }

  /** The walk finds the body brace if there is one in reach, and says so if there is none. */
  lemma BodyBraceIsNearest(out: seq<string>, i: nat)
    requires i <= |out|
    ensures var r := BodyBrace(out, i, i - 1, 0);
      if 0 <= r then Opens(out, r, i) else forall k: int :: !Opens(out, k, i)
  {
    BodyBraceFrom(out, i, i - 1);
  }

  function Shorten(s: string): string {
    if |s| <= 60 then s else s[..60]
  }

  function Judge(out: seq<string>, i: nat, wide: set<char>): (v: Verdict)
    requires i < |out|
    ensures v.Movable? ==> v.brace + 1 < i
  {
    var j := BodyBrace(out, i, i - 1, 0);
    if j < 0 then NoBrace
    else if j == i - 1 then AlreadyFirst
    else JudgeBlock(out[j + 1..i], j, wide)
  }

  /** The verdict on the lines that a move to `j` would pass. */
  function JudgeBlock(block: seq<string>, j: nat, wide: set<char>): (v: Verdict)
    ensures v.Movable? ==> v.brace == j
  {
    if Balance(block, wide) != 0 then InBranch
    else
      var blockers := Blockers(Statements(CodeOf(block)), wide);
      if blockers != [] then Blocked(Shorten(blockers[0])) else Movable(j)
  }

  lemma {:induction false} NoBlockers(statements: seq<string>, wide: set<char>)
    ensures Blockers(statements, wide) == [] <==> forall k | 0 <= k < |statements| :: IsDeclaration(statements[k], wide)
  {
    if statements == [] {
    } else {
      NoBlockers(statements[1..], wide);
      assert forall k | 1 <= k < |statements| :: statements[k] == statements[1..][k - 1];
    }
  }

  ghost predicate OnlyDeclarations(block: seq<string>, wide: set<char>) {
    var statements := Statements(CodeOf(block));
    forall k | 0 <= k < |statements| :: IsDeclaration(statements[k], wide)
  }

  lemma NearestIsUnique(out: seq<string>, i: nat, j: nat)
    requires i <= |out| && Opens(out, j, i)
    ensures BodyBrace(out, i, i - 1, 0) == j
  {
    BodyBraceIsNearest(out, i);
  }

  lemma BraceExactly(out: seq<string>, i: nat, j: nat)
    requires i <= |out|
    ensures BodyBrace(out, i, i - 1, 0) == j <==> Opens(out, j, i)
  {
    if Opens(out, j, i) {
      NearestIsUnique(out, i, j);
    } else {
      BodyBraceIsNearest(out, i);
    }
  }

  lemma JudgeMeans(out: seq<string>, i: nat, j: nat, wide: set<char>)
    requires i < |out|
    ensures Judge(out, i, wide) == Movable(j) <==>
      && BodyBrace(out, i, i - 1, 0) == j && j + 1 < i
      && Balance(out[j + 1..i], wide) == 0 && Blockers(Statements(CodeOf(out[j + 1..i])), wide) == []
  {
    if j + 1 < i {
      JudgeBlockMeans(out[j + 1..i], j, wide);
    }
  }

  lemma JudgeBlockMeans(block: seq<string>, j: nat, wide: set<char>)
    ensures JudgeBlock(block, j, wide).Movable? <==>
      Balance(block, wide) == 0 && Blockers(Statements(CodeOf(block)), wide) == []
  {
  }

  lemma DeclarationsBlockNothing(block: seq<string>, wide: set<char>)
    ensures OnlyDeclarations(block, wide) <==> Blockers(Statements(CodeOf(block)), wide) == []
  {
    NoBlockers(Statements(CodeOf(block)), wide);
  }

  /** A DENTER line may move to `j` exactly when `j` is its body brace and lies further up, no
      conditional is entered or left on the way, and every statement passed is a declaration. */
  lemma MovableExactly(out: seq<string>, i: nat, j: nat, wide: set<char>)
    requires i < |out|
    ensures Judge(out, i, wide) == Movable(j) <==>
      && Opens(out, j, i) && j + 1 < i
      && Balance(out[j + 1..i], wide) == 0 && OnlyDeclarations(out[j + 1..i], wide)
  {
    JudgeMeans(out, i, j, wide);
    BraceExactly(out, i, j);
    if j + 1 < i {
      DeclarationsBlockNothing(out[j + 1..i], wide);
    }
  }

  /** Directly below a line that opens more braces than it closes. */
  predicate IsFirst(out: seq<string>, k: nat)
    requires k <= |out|
  {
    k > 0 && Net(out[k - 1]) < 0
  }

  lemma FirstIsJudged(out: seq<string>, i: nat, wide: set<char>)
    requires i < |out|
    ensures Judge(out, i, wide).AlreadyFirst? <==> IsFirst(out, i)
  {
    if i > 0 && Net(out[i - 1]) >= 0 {
      assert BodyBrace(out, i, i - 2, Net(out[i - 1])) <= i - 2;
    }
  }

  lemma BraceIsOpen(out: seq<string>, i: nat, j: nat, wide: set<char>)
    requires i < |out| && Judge(out, i, wide) == Movable(j)
    ensures Net(out[j]) < 0
  {
    BodyBraceIsNearest(out, i);
    assert NetSum(out, j, i) == Net(out[j]) + NetSum(out, j + 1, i);
  }

  // ----- a verdict looks only at the lines up to its own -----

  lemma {:induction false} SameBrace(a: seq<string>, b: seq<string>, i: nat, j: int, depth: int)
    requires j < i <= |a| && i <= |b| && forall x | 0 <= x < i :: a[x] == b[x]
    ensures BodyBrace(a, i, j, depth) == BodyBrace(b, i, j, depth)
    decreases j + 1
  {
    if j < 0 || i - j > SEARCH_LIMIT {
      assert BodyBrace(a, i, j, depth) == BodyBrace(b, i, j, depth);
    } else {
      SameBrace(a, b, i, j - 1, depth + Net(a[j]));
    }
  }

  lemma SameVerdict(a: seq<string>, b: seq<string>, i: nat, wide: set<char>)
    requires i < |a| && i < |b| && forall x | 0 <= x <= i :: a[x] == b[x]
    ensures Judge(a, i, wide) == Judge(b, i, wide)
  {
    SameBrace(a, b, i, i - 1, 0);
    var j := BodyBrace(a, i, i - 1, 0);
    if 0 <= j {
      assert a[j + 1..i] == b[j + 1..i];
    }
  }

  // ----- the move -----

  /** The line behind the DENTER line and the one blank line that goes with it. */
  function Behind(out: seq<string>, i: nat): (e: nat)
    requires i < |out|
    ensures i < e <= |out|
  {
    if i + 1 < |out| && Blank(out[i + 1]) then i + 2 else i + 1
  }

  function Gap(below: seq<string>): seq<string> {
    if below != [] && !Blank(below[0]) then [[]] else []
  }

  function Moved(out: seq<string>, i: nat, j: nat): seq<string>
    requires j + 1 < i < |out|
  {
    var below := out[j + 1..i] + out[Behind(out, i)..];
    out[..j + 1] + [out[i]] + Gap(below) + below
  }

  // ----- what no move touches -----

  predicate IsKept(line: string) {
    !Blank(line) && !IsDenter(line)
  }

  /** The lines that are neither blank nor DENTER lines, in order. */
  function Kept(lines: seq<string>): seq<string> {
    if lines == [] then [] else KeptOf(lines[0]) + Kept(lines[1..])
  }

  function KeptOf(line: string): seq<string> {
    if IsKept(line) then [line] else []
  }

  function Denters(lines: seq<string>): seq<string> {
    if lines == [] then [] else DentersOf(lines[0]) + Denters(lines[1..])
  }

  function DentersOf(line: string): seq<string> {
    if IsDenter(line) then [line] else []
  }

  lemma ConcatFirst(a: seq<string>, b: seq<string>)
    ensures a == [] ==> a + b == b
    ensures a != [] ==> (a + b)[0] == a[0] && (a + b)[1..] == a[1..] + b
  {
  }

  lemma Associates(a: seq<string>, b: seq<string>, c: seq<string>)
    ensures a + (b + c) == (a + b) + c
  {
  }

  lemma KeptFirst(lines: seq<string>)
    requires lines != []
    ensures IsKept(lines[0]) ==> Kept(lines) == [lines[0]] + Kept(lines[1..])
    ensures !IsKept(lines[0]) ==> Kept(lines) == Kept(lines[1..])
  {
  }

  lemma {:induction false} KeptConcat(a: seq<string>, b: seq<string>)
    ensures Kept(a + b) == Kept(a) + Kept(b)
  {
    ConcatFirst(a, b);
    if a == [] {
    } else {
      KeptConcat(a[1..], b);
      Associates(KeptOf(a[0]), Kept(a[1..]), Kept(b));
    }
  }

  lemma {:induction false} DentersConcat(a: seq<string>, b: seq<string>)
    ensures Denters(a + b) == Denters(a) + Denters(b)
  {
    ConcatFirst(a, b);
    if a == [] {
    } else {
      DentersConcat(a[1..], b);
      Associates(DentersOf(a[0]), Denters(a[1..]), Denters(b));
    }
  }

  lemma BlankIsNoDenter(line: string)
    requires Blank(line)
    ensures !IsDenter(line)
  {
    if IsDenter(line) {
      DenterIsCode(line);
    }
  }

  /** The pieces of the text before and after a move. */
  lemma MovePieces(out: seq<string>, i: nat, j: nat) returns (a: seq<string>, block: seq<string>, tail: seq<string>, c: seq<string>, gap: seq<string>)
    requires j + 1 < i < |out|
    ensures out == a + (block + ([out[i]] + (tail + c))) && Moved(out, i, j) == a + ([out[i]] + (gap + (block + c)))
    ensures a == out[..j + 1] && block == out[j + 1..i] && block != []
    ensures (tail == [] || (|tail| == 1 && Blank(tail[0]))) && (gap == [] || gap == [[]])
    ensures Blank(block[0]) ==> gap == []
  {
    var e := Behind(out, i);
    a, block, tail, c := out[..j + 1], out[j + 1..i], out[i + 1..e], out[e..];
    gap := Gap(block + c);
    assert out == a + (block + ([out[i]] + (tail + c)));
  }

  lemma KeptChain(a: seq<string>, b: seq<string>, c: seq<string>, d: seq<string>, e: seq<string>)
    ensures Kept(a + (b + (c + (d + e)))) == Kept(a) + (Kept(b) + (Kept(c) + (Kept(d) + Kept(e))))
    ensures Denters(a + (b + (c + (d + e)))) == Denters(a) + (Denters(b) + (Denters(c) + (Denters(d) + Denters(e))))
  {
    KeptConcat(a, b + (c + (d + e)));
    KeptConcat(b, c + (d + e));
    KeptConcat(c, d + e);
    KeptConcat(d, e);
    DentersConcat(a, b + (c + (d + e)));
    DentersConcat(b, c + (d + e));
    DentersConcat(c, d + e);
    DentersConcat(d, e);
  }

  lemma Reordered(a: seq<string>, b: seq<string>, x: seq<string>, c: seq<string>)
    ensures a + (b + ([] + ([] + c))) == a + ([] + ([] + (b + c)))
    ensures multiset(a + (b + (x + ([] + c)))) == multiset(a + (x + ([] + (b + c))))
  {
  }

  lemma MoveKeeps(out: seq<string>, i: nat, j: nat)
    requires j + 1 < i < |out| && IsDenter(out[i])
    ensures Kept(Moved(out, i, j)) == Kept(out)
    ensures multiset(Denters(Moved(out, i, j))) == multiset(Denters(out))
  {
    var a, block, tail, c, gap := MovePieces(out, i, j);
    var d := [out[i]];
    KeptChain(a, block, d, tail, c);
    KeptChain(a, d, gap, block, c);
    BlankLines(tail, gap);
    OneDenter(out[i]);
    Reordered(Kept(a), Kept(block), d, Kept(c));
    Reordered(Denters(a), Denters(block), d, Denters(c));
  }

  lemma OneDenter(line: string)
    requires IsDenter(line)
    ensures Kept([line]) == [] && Denters([line]) == [line]
  {
  }

  lemma BlankLines(tail: seq<string>, gap: seq<string>)
    requires (tail == [] || (|tail| == 1 && Blank(tail[0]))) && (gap == [] || gap == [[]])
    ensures Kept(tail) == Denters(tail) == Kept(gap) == Denters(gap) == []
  {
    if tail != [] {
      BlankIsNoDenter(tail[0]);
    }
    BlankIsNoDenter([]);
  }

  // ----- every move makes progress -----

  datatype Class = DenterLine | CodeLine | BlankLine

  function ClassOf(line: string): Class {
    if IsDenter(line) then DenterLine else if Blank(line) then BlankLine else CodeLine
  }

  function Classes(lines: seq<string>): (cs: seq<Class>)
    ensures |cs| == |lines|
  {
    if lines == [] then [] else [ClassOf(lines[0])] + Classes(lines[1..])
  }

  lemma {:induction false} ClassAt(lines: seq<string>, x: nat)
    requires x < |lines|
    ensures Classes(lines)[x] == ClassOf(lines[x])
  {
    if x == 0 {
    } else {
      ClassAt(lines[1..], x - 1);
    }
  }

  lemma {:induction false} ClassesConcat(a: seq<string>, b: seq<string>)
    ensures Classes(a + b) == Classes(a) + Classes(b)
  {
    ConcatFirst(a, b);
    if a == [] {
    } else {
      ClassesConcat(a[1..], b);
    }
  }

  function Number(cs: seq<Class>, c: Class): nat {
    if cs == [] then 0 else (if cs[0] == c then 1 else 0) + Number(cs[1..], c)
  }

  /** Summed over the DENTER lines: how many lines of class `c` stand above, `n` of them before `cs`. */
  function Pairs(cs: seq<Class>, n: nat, c: Class): nat {
    if cs == [] then 0
    else if cs[0] == DenterLine then n + Pairs(cs[1..], n, c)
    else Pairs(cs[1..], if cs[0] == c then n + 1 else n, c)
  }

  lemma {:induction false} PairsConcat(a: seq<Class>, b: seq<Class>, n: nat, c: Class)
    requires c != DenterLine
    ensures Pairs(a + b, n, c) == Pairs(a, n, c) + Pairs(b, n + Number(a, c), c)
  {
    if a == [] {
      assert a + b == b;
    } else {
      assert (a + b)[1..] == a[1..] + b;
      PairsConcat(a[1..], b, if a[0] == c then n + 1 else n, c);
    }
  }

  lemma {:induction false} PairsMonotone(a: seq<Class>, n: nat, m: nat, c: Class)
    requires n <= m
    ensures Pairs(a, n, c) <= Pairs(a, m, c)
  {
    if a == [] {
    } else {
      if a[0] == c && c != DenterLine {
        PairsMonotone(a[1..], n + 1, m + 1, c);
      } else {
        PairsMonotone(a[1..], n, m, c);
      }
    }
  }

  lemma DenterInFront(cs: seq<Class>, n: nat, c: Class)
    requires c != DenterLine
    ensures Pairs([DenterLine] + cs, n, c) == n + Pairs(cs, n, c)
  {
    assert ([DenterLine] + cs)[1..] == cs;
  }

  lemma GapInFront(gap: seq<Class>, cs: seq<Class>, n: nat, c: Class)
    requires c != DenterLine && (gap == [] || gap == [BlankLine])
    ensures Pairs(gap + cs, n, c) == Pairs(cs, if gap == [c] then n + 1 else n, c)
  {
    if gap == [] {
      assert gap + cs == cs;
    } else {
      assert (gap + cs)[1..] == cs;
    }
  }

  lemma ChainBefore(a: seq<Class>, block: seq<Class>, tail: seq<Class>, e: seq<Class>, n: nat, c: Class)
    requires c != DenterLine && (tail == [] || tail == [BlankLine]) && n == Number(a, c) + Number(block, c)
    ensures Pairs(a + (block + ([DenterLine] + (tail + e))), 0, c)
         == Pairs(a, 0, c) + Pairs(block, Number(a, c), c) + n + Pairs(e, if tail == [c] then n + 1 else n, c)
  {
    PairsConcat(a, block + ([DenterLine] + (tail + e)), 0, c);
    PairsConcat(block, [DenterLine] + (tail + e), Number(a, c), c);
    DenterInFront(tail + e, n, c);
    GapInFront(tail, e, n, c);
  }

  lemma ChainAfter(a: seq<Class>, gap: seq<Class>, block: seq<Class>, e: seq<Class>, n: nat, c: Class)
    requires c != DenterLine && (gap == [] || gap == [BlankLine]) && gap != [c] && n == Number(a, c)
    ensures Pairs(a + ([DenterLine] + (gap + (block + e))), 0, c)
         == Pairs(a, 0, c) + n + Pairs(block, n, c) + Pairs(e, n + Number(block, c), c)
  {
    PairsConcat(a, [DenterLine] + (gap + (block + e)), 0, c);
    DenterInFront(gap + (block + e), n, c);
    GapInFront(gap, block + e, n, c);
    PairsConcat(block, e, n, c);
  }

  /** Moving one DENTER line up over `block` lowers the sum by the lines passed. */
  lemma MovedPairs(a: seq<Class>, block: seq<Class>, tail: seq<Class>, e: seq<Class>, gap: seq<Class>, c: Class)
    requires c != DenterLine && (tail == [] || tail == [BlankLine]) && (gap == [] || gap == [BlankLine])
    requires c == BlankLine ==> gap == []
    ensures Pairs(a + ([DenterLine] + (gap + (block + e))), 0, c) + Number(block, c)
         <= Pairs(a + (block + ([DenterLine] + (tail + e))), 0, c)
  {
    var n := Number(a, c) + Number(block, c);
    ChainBefore(a, block, tail, e, n, c);
    ChainAfter(a, gap, block, e, Number(a, c), c);
    PairsMonotone(e, n, if tail == [c] then n + 1 else n, c);
  }

  lemma {:induction false} NumberIsZero(cs: seq<Class>, c: Class)
    ensures Number(cs, c) == 0 <==> c !in cs
  {
    if cs == [] {
    } else {
      NumberIsZero(cs[1..], c);
    }
  }

  /** A block that may be passed holds code, or else nothing but blank lines. */
  lemma PassedBlock(block: seq<string>, wide: set<char>)
    requires block != [] && Blockers(Statements(CodeOf(block)), wide) == []
    ensures CodeLine in Classes(block) || Classes(block)[0] == BlankLine
  {
    if CodeLine !in Classes(block) {
      forall x | 0 <= x < |block|
        ensures Blank(block[x]) || IsDenter(block[x])
      {
        ClassAt(block, x);
      }
      if exists x | 0 <= x < |block| :: !Blank(block[x]) {
        DenterBlocks(block, wide);
      }
      assert Blank(block[0]);
      BlankIsNoDenter(block[0]);
      ClassAt(block, 0);
    }
  }

  function CodeAbove(out: seq<string>): nat {
    Pairs(Classes(out), 0, CodeLine)
  }

  function BlankAbove(out: seq<string>): nat {
    Pairs(Classes(out), 0, BlankLine)
  }

  lemma ClassesChain(a: seq<string>, b: seq<string>, c: seq<string>, d: seq<string>, e: seq<string>)
    ensures Classes(a + (b + (c + (d + e)))) == Classes(a) + (Classes(b) + (Classes(c) + (Classes(d) + Classes(e))))
  {
    ClassesConcat(a, b + (c + (d + e)));
    ClassesConcat(b, c + (d + e));
    ClassesConcat(c, d + e);
    ClassesConcat(d, e);
  }

  lemma ClassesOfBlank(lines: seq<string>)
    requires lines == [] || (|lines| == 1 && Blank(lines[0]))
    ensures Classes(lines) == [] || Classes(lines) == [BlankLine]
  {
    if lines != [] {
      BlankIsNoDenter(lines[0]);
    }
  }

  lemma MoveClasses(out: seq<string>, i: nat, j: nat)
    returns (a: seq<Class>, block: seq<Class>, tail: seq<Class>, e: seq<Class>, gap: seq<Class>)
    requires j + 1 < i < |out| && IsDenter(out[i])
    ensures Classes(out) == a + (block + ([DenterLine] + (tail + e)))
    ensures Classes(Moved(out, i, j)) == a + ([DenterLine] + (gap + (block + e)))
    ensures (tail == [] || tail == [BlankLine]) && (gap == [] || gap == [BlankLine])
    ensures block == Classes(out[j + 1..i]) && (block[0] == BlankLine ==> gap == [])
  {
    var a', block', tail', e', gap' := MovePieces(out, i, j);
    a, block, tail, e, gap := Classes(a'), Classes(block'), Classes(tail'), Classes(e'), Classes(gap');
    ClassesChain(a', block', [out[i]], tail', e');
    ClassesChain(a', [out[i]], gap', block', e');
    ClassesOfBlank(tail');
    ClassesOfBlank(gap');
    assert Classes([out[i]]) == [DenterLine];
  }

  ghost predicate IsLess(out': seq<string>, out: seq<string>) {
    || CodeAbove(out') < CodeAbove(out)
    || (CodeAbove(out') == CodeAbove(out) && BlankAbove(out') < BlankAbove(out))
  }

  lemma MoveLowers(out: seq<string>, i: nat, j: nat)
    requires j + 1 < i < |out| && IsDenter(out[i])
    requires var cs := Classes(out[j + 1..i]); CodeLine in cs || cs[0] == BlankLine
    ensures IsLess(Moved(out, i, j), out)
  {
    var a, block, tail, e, gap := MoveClasses(out, i, j);
    ClassProgress(a, block, tail, e, gap);
  }

  lemma MovableBlock(out: seq<string>, i: nat, j: nat, wide: set<char>)
    requires i < |out| && Judge(out, i, wide) == Movable(j)
    ensures var cs := Classes(out[j + 1..i]); CodeLine in cs || cs[0] == BlankLine
  {
    JudgeMeans(out, i, j, wide);
    PassedBlock(out[j + 1..i], wide);
  }

  lemma MoveProgress(out: seq<string>, i: nat, j: nat, wide: set<char>)
    requires i < |out| && IsDenter(out[i]) && Judge(out, i, wide) == Movable(j)
    ensures IsLess(Moved(out, i, j), out)
  {
    MovableBlock(out, i, j, wide);
    MoveLowers(out, i, j);
  }

  lemma ClassProgress(a: seq<Class>, block: seq<Class>, tail: seq<Class>, e: seq<Class>, gap: seq<Class>)
    requires (tail == [] || tail == [BlankLine]) && (gap == [] || gap == [BlankLine])
    requires block != [] && (CodeLine in block || (block[0] == BlankLine && gap == []))
    ensures var before, after := a + (block + ([DenterLine] + (tail + e))), a + ([DenterLine] + (gap + (block + e)));
      || Pairs(after, 0, CodeLine) < Pairs(before, 0, CodeLine)
      || (Pairs(after, 0, CodeLine) == Pairs(before, 0, CodeLine) && Pairs(after, 0, BlankLine) < Pairs(before, 0, BlankLine))
  {
    NumberIsZero(block, CodeLine);
    NumberIsZero(block, BlankLine);
    MovedPairs(a, block, tail, e, gap, CodeLine);
    if CodeLine !in block {
      MovedPairs(a, block, tail, e, gap, BlankLine);
    }
  }

  // ----- the end of a run -----

  /** No DENTER line before index `n` can be moved any more. */
  predicate Settled(out: seq<string>, n: nat, wide: set<char>)
    requires n <= |out|
  {
    forall k | 0 <= k < n && IsDenter(out[k]) :: !Judge(out, k, wide).Movable?
  }

  datatype Skip = Skip(lineno: nat, why: Verdict)

  /** What a run reports about the lines before `n` if it moves nothing. */
  function Reports(out: seq<string>, n: nat, wide: set<char>): seq<Skip>
    requires n <= |out|
    decreases n, 1
  {
    if n == 0 then [] else ReportsEnd(out, n, wide)
  }

  function ReportsEnd(out: seq<string>, n: nat, wide: set<char>): seq<Skip>
    requires 0 < n <= |out|
    decreases n, 0
  {
    Reports(out, n - 1, wide) + ReportAt(out, n - 1, wide)
  }

  /** How many DENTER lines before `n` are not first in their bodies. */
  function NotFirst(out: seq<string>, n: nat): nat
    requires n <= |out|
  {
    if n == 0 then 0
    else NotFirst(out, n - 1) + NotFirstAt(out, n - 1)
  }

  function NotFirstAt(out: seq<string>, k: nat): nat
    requires k < |out|
  {
    if IsDenter(out[k]) && !IsFirst(out, k) then 1 else 0
  }

  lemma SameReport(a: seq<string>, b: seq<string>, k: nat, wide: set<char>)
    requires k < |a| && k < |b| && forall x | 0 <= x <= k :: a[x] == b[x]
    ensures ReportAt(a, k, wide) == ReportAt(b, k, wide)
  {
    SameVerdict(a, b, k, wide);
  }

  lemma ReportsNext(out: seq<string>, n: nat, wide: set<char>)
    requires n < |out|
    ensures Reports(out, n + 1, wide) == Reports(out, n, wide) + ReportAt(out, n, wide)
  {
    assert Reports(out, n + 1, wide) == ReportsEnd(out, n + 1, wide);
  }

  lemma ReportsStep(a: seq<string>, b: seq<string>, n: nat, wide: set<char>)
    requires n < |a| && n < |b| && (forall x | 0 <= x <= n :: a[x] == b[x]) && Reports(b, n, wide) == Reports(a, n, wide)
    ensures Reports(b, n + 1, wide) == Reports(a, n + 1, wide)
  {
    SameReport(a, b, n, wide);
    ReportsNext(a, n, wide);
    ReportsNext(b, n, wide);
  }

  /** What is reported about the lines before `n` depends on these lines only. */
  lemma {:induction false} ReportsPrefix(a: seq<string>, b: seq<string>, n: nat, wide: set<char>)
    requires n <= |a| && n <= |b| && forall x | 0 <= x < n :: a[x] == b[x]
    ensures Reports(b, n, wide) == Reports(a, n, wide)
  {
    if n == 0 {
      assert Reports(a, 0, wide) == [] == Reports(b, 0, wide);
    } else {
      ReportsPrefix(a, b, n - 1, wide);
      ReportsStep(a, b, n - 1, wide);
    }
  }

  lemma {:induction false} ReportsGrow(a: seq<string>, n: nat, m: nat, wide: set<char>)
    requires n <= m <= |a|
    ensures multiset(Reports(a, n, wide)) <= multiset(Reports(a, m, wide))
    decreases m
  {
    if n == m {
      assert Reports(a, n, wide) == Reports(a, m, wide);
    } else {
      ReportsGrow(a, n, m - 1, wide);
      ReportsNext(a, m - 1, wide);
    }
  }

  lemma ReportSize(out: seq<string>, k: nat, wide: set<char>)
    requires k < |out| && (IsDenter(out[k]) ==> !Judge(out, k, wide).Movable?)
    ensures |ReportAt(out, k, wide)| == NotFirstAt(out, k)
  {
    FirstIsJudged(out, k, wide);
  }

  /** How many DENTER lines are not first: as many as are reported, once nothing can be moved. */
  lemma {:induction false} ReportsCount(out: seq<string>, n: nat, wide: set<char>)
    requires n <= |out| && Settled(out, n, wide)
    ensures NotFirst(out, n) == |Reports(out, n, wide)|
  {
    if n == 0 {
      assert Reports(out, 0, wide) == [];
    } else {
      ReportsCount(out, n - 1, wide);
      ReportSize(out, n - 1, wide);
      ReportsNext(out, n - 1, wide);
    }
  }

  lemma StragglerReport(out: seq<string>, k: nat, wide: set<char>)
    requires k < |out| && IsDenter(out[k]) && !IsFirst(out, k) && !Judge(out, k, wide).Movable?
    ensures ReportAt(out, k, wide) == [Skip(k + 1, Judge(out, k, wide))]
  {
    FirstIsJudged(out, k, wide);
  }

  lemma ReportedOnwards(out: seq<string>, n: nat, m: nat, s: Skip, wide: set<char>)
    requires n <= m <= |out| && s in Reports(out, n, wide)
    ensures s in Reports(out, m, wide)
  {
    ReportsGrow(out, n, m, wide);
    assert multiset(Reports(out, n, wide))[s] > 0;
  }

  lemma StragglerAt(out: seq<string>, k: nat, wide: set<char>)
    requires k < |out| && IsDenter(out[k]) && !IsFirst(out, k) && !Judge(out, k, wide).Movable?
    ensures Skip(k + 1, Judge(out, k, wide)) in Reports(out, k + 1, wide)
  {
    StragglerReport(out, k, wide);
    ReportsNext(out, k, wide);
  }

  /** Each DENTER line that is not first is reported with its line number. */
  lemma StragglerIsReported(out: seq<string>, n: nat, k: nat, wide: set<char>)
    requires k < n <= |out| && Settled(out, n, wide) && IsDenter(out[k]) && !IsFirst(out, k)
    ensures Skip(k + 1, Judge(out, k, wide)) in Reports(out, n, wide)
  {
    StragglerAt(out, k, wide);
    ReportedOnwards(out, k + 1, n, Skip(k + 1, Judge(out, k, wide)), wide);
  }

  lemma SubmultisetIsSmaller(a: multiset<Skip>, b: multiset<Skip>)
    requires a <= b
    ensures |a| <= |b|
  {
    assert b == a + (b - a);
  }

  lemma SettledPrefix(a: seq<string>, b: seq<string>, n: nat, wide: set<char>)
    requires n <= |a| && n <= |b| && (forall x | 0 <= x < n :: a[x] == b[x]) && Settled(a, n, wide)
    ensures Settled(b, n, wide)
  {
    forall k | 0 <= k < n && IsDenter(b[k])
      ensures !Judge(b, k, wide).Movable?
    {
      SameVerdict(a, b, k, wide);
    }
  }

  lemma MovedPrefix(out: seq<string>, i: nat, j: nat)
    requires j + 1 < i < |out|
    ensures var out' := Moved(out, i, j);
      j + 2 <= |out'| && out'[j + 1] == out[i] && forall x | 0 <= x <= j :: out[x] == out'[x]
  {
  }

  lemma FirstIsQuiet(out: seq<string>, n: nat, wide: set<char>)
    requires n < |out| && IsFirst(out, n)
    ensures !Judge(out, n, wide).Movable? && ReportAt(out, n, wide) == []
  {
    FirstIsJudged(out, n, wide);
  }

  lemma FirstNext(out: seq<string>, n: nat, wide: set<char>)
    requires n < |out| && IsFirst(out, n) && Settled(out, n, wide)
    ensures Settled(out, n + 1, wide) && Reports(out, n + 1, wide) == Reports(out, n, wide)
  {
    FirstIsQuiet(out, n, wide);
    SettledNext(out, n, wide);
    ReportsNext(out, n, wide);
    assert Reports(out, n, wide) + [] == Reports(out, n, wide);
  }

  lemma PrefixSettles(out: seq<string>, out': seq<string>, i: nat, j: nat, wide: set<char>)
    requires j + 1 < i <= |out| && j + 2 <= |out'| && (forall x | 0 <= x <= j :: out[x] == out'[x])
    requires Settled(out, i, wide) && IsFirst(out', j + 1)
    ensures Settled(out', j + 2, wide) && multiset(Reports(out', j + 2, wide)) <= multiset(Reports(out, i, wide))
  {
    SettledPrefix(out, out', j + 1, wide);
    ReportsPrefix(out, out', j + 1, wide);
    ReportsGrow(out, j + 1, i, wide);
    FirstNext(out', j + 1, wide);
  }

  lemma MovedIsFirst(out: seq<string>, i: nat, j: nat, wide: set<char>)
    requires i < |out| && IsDenter(out[i]) && Judge(out, i, wide) == Movable(j)
    ensures var out' := Moved(out, i, j);
      j + 2 <= |out'| && (forall x | 0 <= x <= j :: out[x] == out'[x]) && IsFirst(out', j + 1)
  {
    BraceIsOpen(out, i, j, wide);
    MovedPrefix(out, i, j);
  }

  /** After a move, everything up to and including the moved line is settled. */
  lemma MoveSettles(out: seq<string>, i: nat, j: nat, wide: set<char>)
    requires i < |out| && IsDenter(out[i]) && Judge(out, i, wide) == Movable(j) && Settled(out, i, wide)
    ensures var out' := Moved(out, i, j);
      j + 2 <= |out'| && Settled(out', j + 2, wide) && multiset(Reports(out', j + 2, wide)) <= multiset(Reports(out, i, wide))
  {
    MovedIsFirst(out, i, j, wide);
    PrefixSettles(out, Moved(out, i, j), i, j, wide);
  }

  // ----- the loops -----

  method ScanLiteral(line: string, i: nat, quote: char) returns (j: nat)
    ensures j == LiteralEnd(line, i, quote)
  {
    j := i;
    while j < |line| && line[j] != quote
      invariant LiteralEnd(line, j, quote) == LiteralEnd(line, i, quote)
      decreases |line| - j
    {
      j := j + if line[j] == '\\' then 2 else 1;
    }
  }

  /** What has been written and what the rest of the line will give make up the result. */
  ghost predicate IsStripping(all: Noise, line: string, buf: string, i: nat, inComment: bool) {
    var rest := NoiseFree(line, i, inComment);
    all.text == buf + rest.text && all.inComment == rest.inComment
  }

  lemma StripPut(all: Noise, line: string, buf: string, i: nat, c: char, j: nat)
    requires IsStripping(all, line, buf, i, false)
    requires var rest := NoiseFree(line, j, false); NoiseFree(line, i, false) == Noise([c] + rest.text, rest.inComment)
    ensures IsStripping(all, line, buf + [c], j, false)
  {
    var rest := NoiseFree(line, j, false).text;
    assert buf + ([c] + rest) == (buf + [c]) + rest;
  }

  lemma StripComment(all: Noise, line: string, buf: string, i: nat, end: nat)
    requires i < |line| && end == FindClose(line, i) && IsStripping(all, line, buf, i, true)
    ensures if end == |line| then all == Noise(buf, true) else IsStripping(all, line, buf, end + 2, false)
  {
    assert buf + [] == buf;
  }

  lemma StripLiteral(all: Noise, line: string, buf: string, i: nat, j: nat)
    requires i < |line| && (line[i] == '"' || line[i] == '\'') && j == LiteralEnd(line, i + 1, line[i])
    requires IsStripping(all, line, buf, i, false)
    ensures IsStripping(all, line, buf + ['@'], j + 1, false)
  {
    StripPut(all, line, buf, i, '@', j + 1);
  }

  predicate OpensComment(line: string, i: nat, c: char) {
    i + 1 < |line| && line[i] == '/' && line[i + 1] == c
  }

  lemma StripSlash(all: Noise, line: string, buf: string, i: nat)
    requires i < |line| && IsStripping(all, line, buf, i, false)
    ensures OpensComment(line, i, '/') ==> all == Noise(buf, false)
    ensures OpensComment(line, i, '*') ==> IsStripping(all, line, buf, i + 2, true)
  {
    assert buf + [] == buf;
  }

  lemma StripPlain(all: Noise, line: string, buf: string, i: nat)
    requires i < |line| && IsStripping(all, line, buf, i, false)
    requires line[i] != '"' && line[i] != '\'' && !OpensComment(line, i, '/') && !OpensComment(line, i, '*')
    ensures IsStripping(all, line, buf + [line[i]], i + 1, false)
  {
    StripPut(all, line, buf, i, line[i], i + 1);
  }

  method StripLine(line: string, comment: bool) returns (buf: string, inComment: bool)
    ensures NoiseFree(line, 0, comment) == Noise(buf, inComment)
  {
    buf, inComment := [], comment;
    ghost var all := NoiseFree(line, 0, comment);
    var i := 0;
    while i < |line|
      invariant IsStripping(all, line, buf, i, inComment)
      decreases |line| - i, inComment
    {
      if inComment {
        var end := FindClose(line, i);
        StripComment(all, line, buf, i, end);
        if end == |line| {
          return;
        }
        inComment, i := false, end + 2;
        continue;
      }
      var ch := line[i];
      if ch == '"' || ch == '\'' {
        var j := ScanLiteral(line, i + 1, ch);
        StripLiteral(all, line, buf, i, j);
        buf, i := buf + ['@'], j + 1;
        continue;
      }
      StripSlash(all, line, buf, i);
      if i + 1 < |line| && ch == '/' && line[i + 1] == '/' {
        return;
      }
      if i + 1 < |line| && ch == '/' && line[i + 1] == '*' {
        inComment, i := true, i + 2;
        continue;
      }
      StripPlain(all, line, buf, i);
      buf, i := buf + [ch], i + 1;
    }
  }

  method StripNoise(block: seq<string>) returns (out: seq<string>)
    ensures out == NoiseFreeLines(block, false)
  {
    out := [];
    var inComment := false;
    assert block[0..] == block;
    for k := 0 to |block|
      invariant out + NoiseFreeLines(block[k..], inComment) == NoiseFreeLines(block, false)
    {
      assert block[k..][1..] == block[k + 1..];
      var buf;
      buf, inComment := StripLine(block[k], inComment);
      out := out + [buf];
    }
  }

  method SplitStatements(block: seq<string>) returns (found: seq<string>)
    ensures found == Statements(block)
  {
    found := [];
    var current := [];
    var texts := StripNoise(block);
    assert texts[0..] == texts;
    for k := 0 to |texts|
      invariant found + StatementsFrom(texts[k..], current) == Statements(block)
    {
      assert texts[k..][1..] == texts[k + 1..];
      var text := Strip(texts[k]);
      if text != [] {
        var joined := Join(current, text);
        if Complete(joined) {
          found, current := found + [joined], [];
        } else {
          current := joined;
        }
      }
    }
    if current != [] {
      found := found + [current];
    }
  }

  method WalkBack(out: seq<string>, i: nat) returns (j: int)
    requires i < |out|
    ensures j == BodyBrace(out, i, i - 1, 0)
  {
    j := i - 1;
    var depth := 0;
    while j >= 0 && i - j <= SEARCH_LIMIT
      invariant -1 <= j < i
      invariant BodyBrace(out, i, j, depth) == BodyBrace(out, i, i - 1, 0)
    {
      var code := StripNoise([out[j]]);
      depth := depth + Count(code[0], '}') - Count(code[0], '{');
      if depth < 0 {
        return;
      }
      j := j - 1;
    }
    j := -1;
  }

  method CountBranches(block: seq<string>, wide: set<char>) returns (depth: int)
    ensures depth == Balance(block, wide)
  {
    depth := 0;
    for k := 0 to |block|
      invariant depth == Balance(block[..k], wide)
    {
      assert block[..k + 1][..k] == block[..k];
      if IsNamedDirective(block[k], "if", wide) || IsNamedDirective(block[k], "ifdef", wide) || IsNamedDirective(block[k], "ifndef", wide) {
        depth := depth + 1;
      } else if IsNamedDirective(block[k], "endif", wide) {
        depth := depth - 1;
      }
    }
    assert block[..|block|] == block;
  }

  /** The checks on one DENTER line. */
  method JudgeLine(out: seq<string>, i: nat, wide: set<char>) returns (v: Verdict)
    requires i < |out|
    ensures v == Judge(out, i, wide)
  {
    var j := WalkBack(out, i);
    if j < 0 {
      return NoBrace;
    }
    if j == i - 1 {
      return AlreadyFirst;
    }
    var block := out[j + 1..i];
    var depth := CountBranches(block, wide);
    if depth != 0 {
      return InBranch;
    }
    var statements := SplitStatements(CodeOf(block));
    var blockers := Blockers(statements, wide);
    if blockers != [] {
      return Blocked(Shorten(blockers[0]));
    }
    return Movable(j);
  }

  method MoveLine(out: seq<string>, i: nat, j: nat) returns (out': seq<string>)
    requires j + 1 < i < |out|
    ensures out' == Moved(out, i, j)
  {
    var e := i + 1;
    if e < |out| && Blank(out[e]) {
      e := e + 1;
    }
    out' := out[..i] + out[e..];
    ghost var below := out[j + 1..i] + out[e..];
    assert out'[..j + 1] == out[..j + 1] && out'[j + 1..] == below;
    out' := out'[..j + 1] + [out[i]] + out'[j + 1..];
    assert out'[..j + 2] == out[..j + 1] + [out[i]] && out'[j + 2..] == below;
    if j + 2 < |out'| && !Blank(out'[j + 2]) {
      out' := out'[..j + 2] + [[]] + out'[j + 2..];
    }
  }

  /** Lines as `split` gives them: at least one, and no newline inside. */
  predicate AreLines(lines: seq<string>) {
    lines != [] && forall k | 0 <= k < |lines| :: '\n' !in lines[k]
  }

  lemma MoveKeepsLines(out: seq<string>, i: nat, j: nat)
    requires j + 1 < i < |out| && AreLines(out)
    ensures AreLines(Moved(out, i, j))
  {
    var a, block, tail, c, gap := MovePieces(out, i, j);
  }

  /** What holds whenever the cursor is at `i`. */
  ghost predicate Inv(lines: seq<string>, wide: set<char>, out: seq<string>, i: nat, moved: nat, skipped: seq<Skip>) {
    && i <= |out|
    && Kept(out) == Kept(lines) && multiset(Denters(out)) == multiset(Denters(lines))
    && (AreLines(lines) ==> AreLines(out))
    && Settled(out, i, wide) && multiset(Reports(out, i, wide)) <= multiset(skipped)
    && (moved == 0 ==> out == lines && skipped == Reports(lines, i, wide))
    && (moved > 0 ==> !Settled(lines, |lines|, wide))
  }

  lemma AfterMove(lines: seq<string>, wide: set<char>, out: seq<string>, i: nat, moved: nat, skipped: seq<Skip>, j: nat)
    requires Inv(lines, wide, out, i, moved, skipped) && i < |out| && IsDenter(out[i]) && Judge(out, i, wide) == Movable(j)
    ensures Inv(lines, wide, Moved(out, i, j), j + 2, moved + 1, skipped)
  {
    MoveSettles(out, i, j, wide);
    MoveKeeps(out, i, j);
    if AreLines(lines) {
      MoveKeepsLines(out, i, j);
    }
    assert moved == 0 ==> !Settled(lines, |lines|, wide);
  }

  lemma SettledNext(out: seq<string>, i: nat, wide: set<char>)
    requires i < |out| && Settled(out, i, wide) && (IsDenter(out[i]) ==> !Judge(out, i, wide).Movable?)
    ensures Settled(out, i + 1, wide)
  {
  }

  /** What is reported when the cursor passes line `i`. */
  function ReportAt(out: seq<string>, i: nat, wide: set<char>): seq<Skip>
    requires i < |out|
  {
    if IsDenter(out[i]) && IsSkip(Judge(out, i, wide)) then [Skip(i + 1, Judge(out, i, wide))] else []
  }

  lemma AfterSkip(lines: seq<string>, wide: set<char>, out: seq<string>, i: nat, moved: nat, skipped: seq<Skip>)
    requires Inv(lines, wide, out, i, moved, skipped) && i < |out|
    requires IsDenter(out[i]) ==> !Judge(out, i, wide).Movable?
    ensures Inv(lines, wide, out, i + 1, moved, skipped + ReportAt(out, i, wide))
  {
    SettledNext(out, i, wide);
    ReportsNext(out, i, wide);
  }

  /**
   The whole pass. It ends although its cursor goes back; it keeps every other line; nothing
   is left to move afterwards, and every DENTER line that is not first has been reported with
   its reason and the line number it ends up with.
   */
  method Process(lines: seq<string>, wide: set<char>) returns (out: seq<string>, moved: nat, skipped: seq<Skip>)
    ensures Kept(out) == Kept(lines) && multiset(Denters(out)) == multiset(Denters(lines))
    ensures AreLines(lines) ==> AreLines(out)
    ensures Settled(out, |out|, wide)
    ensures multiset(Reports(out, |out|, wide)) <= multiset(skipped)
    ensures NotFirst(out, |out|) == |Reports(out, |out|, wide)| <= |skipped|
    ensures forall k | 0 <= k < |out| && IsDenter(out[k]) && !IsFirst(out, k) :: Skip(k + 1, Judge(out, k, wide)) in skipped
    ensures moved == 0 <==> Settled(lines, |lines|, wide)
    ensures moved == 0 ==> out == lines && skipped == Reports(lines, |lines|, wide)
  {
    out, moved, skipped := lines, 0, [];
    var i: nat := 0;
    while i < |out|
      invariant Inv(lines, wide, out, i, moved, skipped)
      decreases CodeAbove(out), BlankAbove(out), |out| - i
    {
      out, i, moved, skipped := TakeTurn(lines, wide, out, i, moved, skipped);
    }
    AtTheEnd(lines, wide, out, moved, skipped);
  }

  lemma AtTheEnd(lines: seq<string>, wide: set<char>, out: seq<string>, moved: nat, skipped: seq<Skip>)
    requires Inv(lines, wide, out, |out|, moved, skipped)
    ensures NotFirst(out, |out|) == |Reports(out, |out|, wide)| <= |skipped|
    ensures forall k | 0 <= k < |out| && IsDenter(out[k]) && !IsFirst(out, k) :: Skip(k + 1, Judge(out, k, wide)) in skipped
    ensures moved == 0 <==> Settled(lines, |lines|, wide)
  {
    AllAreReported(out, wide, skipped);
  }

  lemma AllAreReported(out: seq<string>, wide: set<char>, skipped: seq<Skip>)
    requires Settled(out, |out|, wide) && multiset(Reports(out, |out|, wide)) <= multiset(skipped)
    ensures NotFirst(out, |out|) == |Reports(out, |out|, wide)| <= |skipped|
    ensures forall k | 0 <= k < |out| && IsDenter(out[k]) && !IsFirst(out, k) :: Skip(k + 1, Judge(out, k, wide)) in skipped
  {
    var reports := Reports(out, |out|, wide);
    ReportsCount(out, |out|, wide);
    SubmultisetIsSmaller(multiset(reports), multiset(skipped));
    forall k | 0 <= k < |out| && IsDenter(out[k]) && !IsFirst(out, k)
      ensures Skip(k + 1, Judge(out, k, wide)) in skipped
    {
      StragglerIsReported(out, |out|, k, wide);
      assert multiset(reports)[Skip(k + 1, Judge(out, k, wide))] > 0;
    }
  }

  /** The measure of the loop: a move takes code or blanks from above a DENTER line, all else moves the cursor on. */
  ghost predicate IsProgress(out: seq<string>, i: nat, out': seq<string>, i': nat) {
    IsLess(out', out) || (out' == out && i < i')
  }

  /** One turn of the loop: leave the line, report it, or move it and go back behind it. */
  method TakeTurn(ghost lines: seq<string>, wide: set<char>, out: seq<string>, i: nat, moved: nat, skipped: seq<Skip>)
    returns (out': seq<string>, i': nat, moved': nat, skipped': seq<Skip>)
    requires Inv(lines, wide, out, i, moved, skipped) && i < |out|
    ensures Inv(lines, wide, out', i', moved', skipped') && i' <= |out'| && IsProgress(out, i, out', i')
  {
    out', i', moved', skipped' := out, i + 1, moved, skipped;
    if !IsDenter(out[i]) {
      AfterSkip(lines, wide, out, i, moved, skipped);
      assert ReportAt(out, i, wide) == [] && skipped + [] == skipped;
      return;
    }
    var v := JudgeLine(out, i, wide);
    if v.Movable? {
      out', i' := MoveTurn(lines, wide, out, i, moved, skipped, v.brace);
      moved' := moved + 1;
    } else {
      AfterSkip(lines, wide, out, i, moved, skipped);
      skipped' := ReportLine(out, i, wide, v, skipped);
    }
  }

  method ReportLine(out: seq<string>, i: nat, ghost wide: set<char>, v: Verdict, skipped: seq<Skip>)
    returns (skipped': seq<Skip>)
    requires i < |out| && IsDenter(out[i]) && v == Judge(out, i, wide)
    ensures skipped' == skipped + ReportAt(out, i, wide)
  {
    skipped' := skipped + if IsSkip(v) then [Skip(i + 1, v)] else [];
  }

  lemma MoveIsTurn(lines: seq<string>, wide: set<char>, out: seq<string>, i: nat, moved: nat, skipped: seq<Skip>, j: nat,
                   out': seq<string>)
    requires Inv(lines, wide, out, i, moved, skipped) && i < |out| && IsDenter(out[i]) && Judge(out, i, wide) == Movable(j)
    requires out' == Moved(out, i, j)
    ensures Inv(lines, wide, out', j + 2, moved + 1, skipped) && IsLess(out', out)
  {
    AfterMove(lines, wide, out, i, moved, skipped, j);
    MoveProgress(out, i, j, wide);
  }

  method MoveTurn(ghost lines: seq<string>, ghost wide: set<char>, out: seq<string>, i: nat, ghost moved: nat,
                  ghost skipped: seq<Skip>, j: nat)
    returns (out': seq<string>, i': nat)
    requires Inv(lines, wide, out, i, moved, skipped) && i < |out| && IsDenter(out[i]) && Judge(out, i, wide) == Movable(j)
    ensures Inv(lines, wide, out', i', moved + 1, skipped) && i' <= |out'| && IsLess(out', out)
  {
    out' := MoveLine(out, i, j);
    MoveIsTurn(lines, wide, out, i, moved, skipped, j, out');
    i' := j + 2;
  }
}
