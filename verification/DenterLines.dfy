/**
 Reading C++ lines as doc/doxygen/dxm-denter-first.py does: which lines are DENTER calls,
 what is left of a line without comments and literals, how a block falls into statements
 and which statements are plain declarations.

 `wide` is the set of characters outside ASCII that count as word characters.
 */
module DenterLines {

  // ----- characters -----

  /** Python's whitespace, which the patterns and `strip` share. */
  predicate IsSpace(c: char) {
    || '\U{0009}' <= c <= '\U{000D}' || '\U{001C}' <= c <= '\U{0020}' || c == '\U{0085}' || c == '\U{00A0}'
    || c == '\U{1680}' || '\U{2000}' <= c <= '\U{200A}' || c == '\U{2028}' || c == '\U{2029}'
    || c == '\U{202F}' || c == '\U{205F}' || c == '\U{3000}'
  }

  predicate IsAlpha(c: char) {
    'a' <= c <= 'z' || 'A' <= c <= 'Z' || c == '_'
  }

  predicate IsWord(c: char, wide: set<char>) {
    IsAlpha(c) || '0' <= c <= '9' || (c > '\U{007F}' && c in wide && !IsSpace(c))
  }

  predicate StartsAt(s: string, i: nat, t: string) {
    i + |t| <= |s| && s[i..i + |t|] == t
  }

  /** The first index at or after `i` that holds no whitespace. */
  function SkipSpace(s: string, i: nat): (k: nat)
    requires i <= |s|
    ensures i <= k <= |s| && (forall x | i <= x < k :: IsSpace(s[x])) && (k < |s| ==> !IsSpace(s[k]))
    decreases |s| - i
  {
    if i < |s| && IsSpace(s[i]) then SkipSpace(s, i + 1) else i
  }

  /** The index behind the last character before `i` that is no whitespace. */
  function TrimEnd(s: string, i: nat): (k: nat)
    requires i <= |s|
    ensures k <= i && (forall x | k <= x < i :: IsSpace(s[x])) && (k > 0 ==> !IsSpace(s[k - 1]))
  {
    if i > 0 && IsSpace(s[i - 1]) then TrimEnd(s, i - 1) else i
  }

  function SkipWord(s: string, i: nat, wide: set<char>): (k: nat)
    requires i <= |s|
    ensures i <= k <= |s|
    decreases |s| - i
  {
    if i < |s| && IsWord(s[i], wide) then SkipWord(s, i + 1, wide) else i
  }

  predicate Blank(line: string) {
    SkipSpace(line, 0) == |line|
  }

  function Strip(s: string): (t: string)
    ensures t != [] ==> !IsSpace(t[0])
    ensures t == [] <==> Blank(s)
  {
    var a, b := SkipSpace(s, 0), TrimEnd(s, |s|);
    if a < b then s[a..b] else []
  }

  function Count(s: string, c: char): nat {
    if s == [] then 0 else (if s[0] == c then 1 else 0) + Count(s[1..], c)
  }

  // ----- the DENTER pattern -----

  /** The index of the parenthesis of a line that opens like a DENTER call, or the length of the line. */
  function DenterParen(line: string): (k: nat)
    ensures k <= |line|
  {
    var a := SkipSpace(line, 0);
    if !StartsAt(line, a, "DENTER") then |line|
    else
      var b := if StartsAt(line, a + 6, "_MAIN") then a + 11 else if StartsAt(line, a + 6, "_") then a + 7 else a + 6;
      var c := SkipSpace(line, b);
      if c < |line| && line[c] == '(' then c else |line|
  }

  /** The whole line is one DENTER, DENTER_ or DENTER_MAIN call with its semicolon. */
  predicate IsDenter(line: string) {
    var open := DenterParen(line);
    var semi := TrimEnd(line, |line|);
    && open < |line| && semi > 0 && line[semi - 1] == ';'
    && var close := TrimEnd(line, semi - 1);
    close > 0 && line[close - 1] == ')' && open < close - 1
  }

  // ----- comments and literals dropped -----

  function FindClose(line: string, i: nat): (k: nat)
    requires i <= |line|
    ensures i <= k <= |line|
    decreases |line| - i
  {
    if i == |line| then i
    else if i + 1 < |line| && line[i] == '*' && line[i + 1] == '/' then i
    else FindClose(line, i + 1)
  }

  /** Where a literal opened before `i` ends; an escape at the very end runs past the line. */
  function LiteralEnd(line: string, i: nat, quote: char): (k: nat)
    ensures i <= k
    decreases |line| - i
  {
    if i >= |line| || line[i] == quote then i
    else LiteralEnd(line, i + (if line[i] == '\\' then 2 else 1), quote)
  }

  datatype Noise = Noise(text: string, inComment: bool)

  /** The code of one line from index `i` on; literals become a placeholder. */
  function NoiseFree(line: string, i: nat, inComment: bool): (n: Noise)
    decreases |line| - i, inComment
  {
    if i >= |line| then Noise([], inComment)
    else if inComment then
      var end := FindClose(line, i);
      if end == |line| then Noise([], true) else NoiseFree(line, end + 2, false)
    else if line[i] == '"' || line[i] == '\'' then
      var rest := NoiseFree(line, LiteralEnd(line, i + 1, line[i]) + 1, false);
      Noise(['@'] + rest.text, rest.inComment)
    else if i + 1 < |line| && line[i] == '/' && line[i + 1] == '/' then Noise([], false)
    else if i + 1 < |line| && line[i] == '/' && line[i + 1] == '*' then NoiseFree(line, i + 2, true)
    else
      var rest := NoiseFree(line, i + 1, false);
      Noise([line[i]] + rest.text, rest.inComment)
  }

  function NoiseFreeLines(block: seq<string>, inComment: bool): (texts: seq<string>)
    ensures |texts| == |block|
  {
    if block == [] then []
    else
      var n := NoiseFree(block[0], 0, inComment);
      [n.text] + NoiseFreeLines(block[1..], n.inComment)
  }

  /** Closing minus opening braces of a line on its own. */
  function Net(line: string): int {
    var code := NoiseFree(line, 0, false).text;
    Count(code, '}') - Count(code, '{')
  }

  // ----- statements -----

  predicate Complete(joined: string) {
    && joined != [] && joined[|joined| - 1] == ';'
    && Count(joined, '(') == Count(joined, ')')
    && Count(joined, '{') == Count(joined, '}')
    && Count(joined, '[') == Count(joined, ']')
  }

  function Join(current: string, text: string): string {
    if current == [] then text else current + [' '] + text
  }

  /** The statements of the given code lines, `current` being the unfinished one. */
  function StatementsFrom(texts: seq<string>, current: string): seq<string> {
    if texts == [] then (if current == [] then [] else [current])
    else
      var text := Strip(texts[0]);
      if text == [] then StatementsFrom(texts[1..], current)
      else
        var joined := Join(current, text);
        if Complete(joined) then [joined] + StatementsFrom(texts[1..], [])
        else StatementsFrom(texts[1..], joined)
  }

  function Statements(block: seq<string>): seq<string> {
    StatementsFrom(NoiseFreeLines(block, false), [])
  }

  // ----- declarations -----

  const CONTROL: seq<string> :=
    ["if", "for", "while", "switch", "do", "else", "case", "default", "return", "goto", "try", "catch"]

  predicate IsControl(s: string, wide: set<char>) {
    exists k | 0 <= k < |CONTROL| ::
      StartsAt(s, 0, CONTROL[k]) && (|s| == |CONTROL[k]| || !IsWord(s[|CONTROL[k]|], wide))
  }

  function SkipScopes(s: string, i: nat, wide: set<char>): (k: nat)
    requires i <= |s|
    ensures i <= k <= |s|
    decreases |s| - i
  {
    if i + 1 < |s| && s[i] == ':' && s[i + 1] == ':' then SkipScopes(s, SkipWord(s, i + 2, wide), wide) else i
  }

  /** `name(` or `scope::name (`: a call rather than a declaration. */
  predicate IsCall(s: string, wide: set<char>) {
    && s != [] && IsAlpha(s[0])
    && var k := SkipSpace(s, SkipScopes(s, SkipWord(s, 0, wide), wide));
    k < |s| && s[k] == '('
  }

  /** How many identifiers stand before the first `=`. */
  function CountNames(s: string, i: nat, wide: set<char>): nat
    requires i <= |s|
    decreases |s| - i
  {
    if i == |s| || s[i] == '=' then 0
    else if IsAlpha(s[i]) then 1 + CountNames(s, SkipWord(s, i + 1, wide), wide)
    else CountNames(s, i + 1, wide)
  }

  predicate IsDeclaration(statement: string, wide: set<char>) {
    var s := Strip(statement);
    s == [] ||
    (&& s[0] != '#'
     && !IsControl(s, wide)
     && s[|s| - 1] == ';'
     && s[0] != '}' && s[0] != '{' && s[0] != '('
     && Count(s, '{') == Count(s, '}')
     && !(IsCall(s, wide) && !StartsAt(s, 0, "DSTRING_STATIC"))
     && CountNames(s, 0, wide) >= 2)
  }

  // ----- directives -----

  predicate IsDirective(line: string) {
    var a := SkipSpace(line, 0);
    a < |line| && line[a] == '#'
  }

  predicate IsNamedDirective(line: string, name: string, wide: set<char>) {
    var a := SkipSpace(line, 0);
    && a < |line| && line[a] == '#'
    && var b := SkipSpace(line, a + 1);
    StartsAt(line, b, name) && (b + |name| == |line| || !IsWord(line[b + |name|], wide))
  }

  /** Opened minus closed conditional directives of a block. */
  function Balance(block: seq<string>, wide: set<char>): int {
    if block == [] then 0
    else
      var line := block[|block| - 1];
      Balance(block[..|block| - 1], wide) +
      (if IsNamedDirective(line, "if", wide) || IsNamedDirective(line, "ifdef", wide) || IsNamedDirective(line, "ifndef", wide)
       then 1 else if IsNamedDirective(line, "endif", wide) then -1 else 0)
  }

  function CodeOf(block: seq<string>): (code: seq<string>) {
    if block == [] then []
    else if IsDirective(block[0]) then CodeOf(block[1..])
    else [block[0]] + CodeOf(block[1..])
  }

  /** The statements of a block that are no declarations, in order. */
  function Blockers(statements: seq<string>, wide: set<char>): seq<string> {
    if statements == [] then []
    else (if IsDeclaration(statements[0], wide) then [] else [statements[0]]) + Blockers(statements[1..], wide)
  }
}
