/**
 Parameters of infotext (source/utilbin/infotext.cc): for each argument the first %s of the
 text is replaced, and the text with the argument in it is searched again.
 */
module Placeholders {

  predicate IsPlaceholder(s: string, i: nat) {
    i + 1 < |s| && s[i] == '%' && s[i + 1] == 's'
  }

  /** The first placeholder at or behind `i`, or the length of the text. */
  function FirstFrom(s: string, i: nat): (k: nat)
    requires i <= |s|
    ensures i <= k <= |s| && (k < |s| ==> IsPlaceholder(s, k)) && forall x | i <= x < k :: !IsPlaceholder(s, x)
    decreases |s| - i
  {
    if i == |s| || IsPlaceholder(s, i) then i else FirstFrom(s, i + 1)
  }

  function Replaced(s: string, with: string): string {
    var k := FirstFrom(s, 0);
    if k == |s| then s else s[..k] + with + s[k + 2..]
  }

  /** One replacement after the other. */
  function Filled(s: string, args: seq<string>): string
    decreases |args|
  {
    if args == [] then s else Filled(Replaced(s, args[0]), args[1..])
  }

  /** All at once: the k-th placeholder of the original text becomes the k-th argument. */
  function Substituted(s: string, args: seq<string>): string {
    if args == [] then s
    else
      var k := FirstFrom(s, 0);
      if k == |s| then s else s[..k] + args[0] + Substituted(s[k + 2..], args[1..])
  }

  method Replace(s: string, with: string) returns (r: string)
    ensures r == Replaced(s, with)
  {
    var k := 0;
    while k < |s| && !IsPlaceholder(s, k)
      invariant 0 <= k <= |s| && FirstFrom(s, 0) == FirstFrom(s, k)
    {
      k := k + 1;
    }
    if k == |s| {
      return s;
    }
    r := s[..k] + with + s[k + 2..];
  }

  method Fill(format: string, args: seq<string>) returns (r: string)
    ensures r == Filled(format, args)
  {
    r := format;
    var i := 0;
    while i < |args|
      invariant 0 <= i <= |args| && Filled(r, args[i..]) == Filled(format, args)
    {
      assert args[i..][1..] == args[i + 1..];
      r := Replace(r, args[i]);
      i := i + 1;
    }
  }

  // ----- when the two agree -----

  lemma FirstUnique(s: string, k: nat)
    requires k <= |s| && (k < |s| ==> IsPlaceholder(s, k)) && forall x | 0 <= x < k :: !IsPlaceholder(s, x)
    ensures FirstFrom(s, 0) == k
  {
    var f := FirstFrom(s, 0);
    if f < k {
      assert false;
    }
  }

  predicate HasNone(u: string) {
    forall k | 0 <= k < |u| :: !IsPlaceholder(u, k)
  }

  /** The text with `args` put in, up to the first placeholder of the original that is left. */
  function Front(s: string, args: seq<string>): string
    decreases |args|
  {
    var k := FirstFrom(s, 0);
    if args == [] || k == |s| then s[..k] else s[..k] + args[0] + Front(s[k + 2..], args[1..])
  }

  /** The original text from its placeholder number `n` on; nothing if there are fewer. */
  function Back(s: string, n: nat): (b: string)
    ensures b == [] || IsPlaceholder(b, 0)
    decreases n
  {
    var k := FirstFrom(s, 0);
    if k == |s| then [] else if n == 0 then s[k..] else Back(s[k + 2..], n - 1)
  }

  /** What is behind the front once `b` has been put in for one more placeholder. */
  function Taken(back: string, b: string): string {
    if |back| < 2 then back else b + back[2..]
  }

  lemma {:induction false} SubstitutedParts(s: string, args: seq<string>)
    ensures Substituted(s, args) == Front(s, args) + Back(s, |args|)
    decreases |args|
  {
    var k := FirstFrom(s, 0);
    if args == [] || k == |s| {
      assert s[..k] + s[k..] == s;
    } else {
      SubstitutedParts(s[k + 2..], args[1..]);
    }
  }

  lemma {:induction false} SubstitutedLast(s: string, args: seq<string>, b: string)
    ensures Substituted(s, args + [b]) == Front(s, args) + Taken(Back(s, |args|), b)
    decreases |args|
  {
    var k := FirstFrom(s, 0);
    if k == |s| {
      assert s[..k] == s && Front(s, args) == s && Taken([], b) == [];
    } else if args == [] {
      assert (args + [b])[1..] == [] && s[k..][2..] == s[k + 2..];
      assert Back(s, 0) == s[k..] && Substituted(s[k + 2..], []) == s[k + 2..];
    } else {
      assert (args + [b])[1..] == args[1..] + [b] && (args + [b])[0] == args[0];
      SubstitutedLast(s[k + 2..], args[1..], b);
      var u, f, r := s[..k] + args[0], Front(s[k + 2..], args[1..]), Taken(Back(s, |args|), b);
      assert u + (f + r) == (u + f) + r;
    }
  }

  lemma {:induction false} FrontGrows(s: string, args: seq<string>, b: string)
    ensures Front(s, args) <= Front(s, args + [b])
    decreases |args|
  {
    var k := FirstFrom(s, 0);
    if args == [] || k == |s| {
    } else {
      assert (args + [b])[1..] == args[1..] + [b] && (args + [b])[0] == args[0];
      FrontGrows(s[k + 2..], args[1..], b);
    }
  }

  lemma {:induction false} FilledLast(s: string, args: seq<string>, b: string)
    ensures Filled(s, args + [b]) == Replaced(Filled(s, args), b)
    decreases |args|
  {
    if args == [] {
      assert (args + [b])[1..] == [];
    } else {
      assert (args + [b])[1..] == args[1..] + [b] && (args + [b])[0] == args[0];
      FilledLast(Replaced(s, args[0]), args[1..], b);
    }
  }

  lemma NonePrefix(u: string, v: string)
    requires u <= v && HasNone(v)
    ensures HasNone(u)
  {
    forall k | 0 <= k < |u|
      ensures !IsPlaceholder(u, k)
    {
      assert !IsPlaceholder(v, k);
    }
  }

  lemma ReplacedBehind(front: string, back: string, b: string)
    requires HasNone(front) && (back == [] || IsPlaceholder(back, 0))
    ensures Replaced(front + back, b) == front + Taken(back, b)
  {
    var s := front + back;
    forall x | 0 <= x < |front|
      ensures !IsPlaceholder(s, x)
    {
      assert !IsPlaceholder(front, x);
    }
    FirstUnique(s, |front|);
    if back != [] {
      assert s[|front| + 2..] == back[2..];
    }
  }

  /** Nothing formed in front: the search finds the placeholder it should. */
  lemma {:induction false} FilledInTurn(s: string, args: seq<string>, b: string)
    requires HasNone(Front(s, args))
    ensures Filled(s, args + [b]) == Substituted(s, args + [b])
    decreases |args|
  {
    var n := |args| - 1;
    if args == [] {
      assert Filled(s, args) == s == Substituted(s, args);
    } else {
      assert args == args[..n] + [args[n]];
      FrontGrows(s, args[..n], args[n]);
      NonePrefix(Front(s, args[..n]), Front(s, args));
      FilledInTurn(s, args[..n], args[n]);
    }
    SubstitutedParts(s, args);
    FilledLast(s, args, b);
    ReplacedBehind(Front(s, args), Back(s, |args|), b);
    SubstitutedLast(s, args, b);
  }

  /** Something formed in front: some text replaces a placeholder that it should not. */
  lemma ReplacedTooEarly(p: string, front: string, back: string)
    requires !HasNone(front) && (back == [] || IsPlaceholder(back, 0))
    ensures exists b :: Replaced(p, b) != front + Taken(back, b)
  {
    var r :| 0 <= r < |front| && IsPlaceholder(front, r);
    var q := front + Taken(back, "%s");
    if Replaced(p, "%s") == q {
      var k := FirstFrom(p, 0);
      assert p == q && IsPlaceholder(q, r) && k <= r;
      assert Replaced(p, "x")[k] == 'x' && (front + Taken(back, "x"))[k] == '%';
    }
  }

  /**
   Replacing the first placeholder once per argument is substituting all at once, whatever the
   last argument is, if and only if no placeholder has formed in the text in front of the one
   that the last argument is for.
   */
  lemma FilledExactly(s: string, args: seq<string>)
    ensures (forall b :: Filled(s, args + [b]) == Substituted(s, args + [b])) <==> HasNone(Front(s, args))
  {
    if HasNone(Front(s, args)) {
      forall b
        ensures Filled(s, args + [b]) == Substituted(s, args + [b])
      {
        FilledInTurn(s, args, b);
      }
    } else {
      ReplacedTooEarly(Filled(s, args), Front(s, args), Back(s, |args|));
      var b :| Replaced(Filled(s, args), b) != Front(s, args) + Taken(Back(s, |args|), b);
      FilledLast(s, args, b);
      SubstitutedLast(s, args, b);
    }
  }

  // ----- a condition on format and arguments alone -----

  /** No percent sign stands directly in front of a placeholder. */
  predicate HasNoDouble(s: string) {
    forall k | 0 < k < |s| :: IsPlaceholder(s, k) ==> s[k - 1] != '%'
  }

  lemma FrontIsClosed(s: string, a: string)
    requires HasNoDouble(s) && '%' !in a && FirstFrom(s, 0) < |s|
    ensures var u := s[..FirstFrom(s, 0)] + a; HasNone(u) && (u == [] || u[|u| - 1] != '%')
  {
    var k := FirstFrom(s, 0);
    var u := s[..k] + a;
    forall x | 0 <= x < |u|
      ensures !IsPlaceholder(u, x)
    {
      if x < k {
        assert u[x] == s[x] && !IsPlaceholder(s, x);
        if x + 1 == k {
          assert s[k - 1] != '%';
        }
      } else {
        assert u[x] == a[x - k];
      }
    }
    if u != [] && a != [] {
      assert u[|u| - 1] == a[|a| - 1];
    }
  }

  lemma TailHasNoDouble(s: string, k: nat)
    requires k <= |s| && HasNoDouble(s)
    ensures HasNoDouble(s[k..])
  {
    var t := s[k..];
    forall x | 0 < x < |t| && IsPlaceholder(t, x)
      ensures t[x - 1] != '%'
    {
      assert IsPlaceholder(s, k + x);
    }
  }

  lemma NoneConcat(u: string, v: string)
    requires HasNone(u) && HasNone(v) && (u == [] || u[|u| - 1] != '%')
    ensures HasNone(u + v)
  {
    var w := u + v;
    forall x | 0 <= x < |w|
      ensures !IsPlaceholder(w, x)
    {
      if x < |u| {
        assert !IsPlaceholder(u, x);
      } else {
        assert !IsPlaceholder(v, x - |u|);
      }
    }
  }

  lemma {:induction false} SimpleFront(s: string, args: seq<string>)
    requires HasNoDouble(s) && forall k | 0 <= k < |args| :: '%' !in args[k]
    ensures HasNone(Front(s, args))
    decreases |args|
  {
    var k := FirstFrom(s, 0);
    if args == [] || k == |s| {
      FirstHasNone(s);
    } else {
      assert '%' !in args[0];
      FrontIsClosed(s, args[0]);
      TailHasNoDouble(s, k + 2);
      SimpleFront(s[k + 2..], args[1..]);
      NoneConcat(s[..k] + args[0], Front(s[k + 2..], args[1..]));
    }
  }

  lemma FirstHasNone(s: string)
    ensures HasNone(s[..FirstFrom(s, 0)])
  {
    var u := s[..FirstFrom(s, 0)];
    forall x | 0 <= x < |u|
      ensures !IsPlaceholder(u, x)
    {
      assert !IsPlaceholder(s, x);
    }
  }

  /** Enough for that: no %%s in the format, and no percent sign in any argument but the last. */
  lemma FilledIsSubstituted(s: string, args: seq<string>)
    requires HasNoDouble(s) && forall k | 0 <= k < |args| - 1 :: '%' !in args[k]
    ensures Filled(s, args) == Substituted(s, args)
  {
    var n := |args| - 1;
    if args == [] {
    } else {
      assert args == args[..n] + [args[n]];
      SimpleFront(s, args[..n]);
      FilledInTurn(s, args[..n], args[n]);
    }
  }

  // ----- and when they do not -----

  lemma PercentInArgument()
    ensures Filled("%s%s", ["%s", "x"]) == "x%s" && Substituted("%s%s", ["%s", "x"]) == "%sx"
  {
    var s, args := "%s%s", ["%s", "x"];
    assert IsPlaceholder(s, 0);
    FirstUnique(s, 0);
    assert s[..0] + "%s" + s[2..] == s;
    assert args[1..] == ["x"] && ["x"][1..] == [];
    assert Replaced(s, "x") == "x%s";
    FirstUnique(s[2..], 0);
    assert Substituted(s[2..], ["x"]) == "x";
  }

  lemma DoubledPercent()
    ensures Filled("%%s%s", ["s", "x"]) == "x%s" && Substituted("%%s%s", ["s", "x"]) == "%sx"
  {
    var s, args := "%%s%s", ["s", "x"];
    assert !IsPlaceholder(s, 0) && IsPlaceholder(s, 1);
    FirstUnique(s, 1);
    assert args[1..] == ["x"] && ["x"][1..] == [];
    var t := "%s%s";
    assert Replaced(s, "s") == t;
    assert IsPlaceholder(t, 0);
    FirstUnique(t, 0);
    assert Replaced(t, "x") == "x%s";
    assert s[3..] == "%s";
    FirstUnique(s[3..], 0);
    assert Substituted(s[3..], ["x"]) == "x";
  }
}
