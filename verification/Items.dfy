/**
 Lists of named items (host and path, variable and value, resource and amount), and the two
 ways in which the option pipeline combines them: by merging a new list into an old one
 (`cull_merge_definition_list`) and by dropping all but the last item of a name
 (`cull_compress_definition_list`, both in source/libs/sgeobj/cull_parse_util.cc).
 */
module Items {
  import opened Options

  /** The last item of a name. */
  function LastNamed(s: seq<Item>, x: Option<string>): Option<Item> {
    if s == [] then None
    else if s[|s| - 1].name == x then Some(s[|s| - 1])
    else LastNamed(s[..|s| - 1], x)
  }

  /** The first item of a name, or the length of the list. */
  function FindName(s: seq<Item>, x: Option<string>): (k: nat)
    ensures k <= |s| && (k < |s| ==> s[k].name == x) && forall i | 0 <= i < k :: s[i].name != x
  {
    if s == [] then 0
    else
      var n := |s| - 1;
      var k := FindName(s[..n], x);
      if k < n || s[n].name == x then k else n + 1
  }

  function FirstNamed(s: seq<Item>, x: Option<string>): Option<Item> {
    var k := FindName(s, x);
    if k < |s| then Some(s[k]) else None
  }

  /** No name twice; items without a name may repeat. */
  predicate AreDistinct(s: seq<Item>) {
    forall i, k | 0 <= i < k < |s| :: s[i].name.Some? ==> s[i].name != s[k].name
  }

  lemma FindUnique(s: seq<Item>, x: Option<string>, k: nat)
    requires k <= |s| && (k < |s| ==> s[k].name == x) && forall i | 0 <= i < k :: s[i].name != x
    ensures FindName(s, x) == k
  {
    var f := FindName(s, x);
    if f != k {
      assert false;
    }
  }

  // ----- all but the last item of a name are dropped -----

  function WithoutName(s: seq<Item>, x: Option<string>): seq<Item> {
    if s == [] then []
    else
      var n := |s| - 1;
      WithoutName(s[..n], x) + if x.Some? && s[n].name == x then [] else [s[n]]
  }

  /** Each item in turn removes the items of its name in front of it. */
  function Compressed(s: seq<Item>): seq<Item> {
    if s == [] then []
    else
      var n := |s| - 1;
      WithoutName(Compressed(s[..n]), s[n].name) + [s[n]]
  }

  lemma {:induction false} WithoutNameNamed(s: seq<Item>, x: Option<string>, y: Option<string>)
    requires x.Some?
    ensures LastNamed(WithoutName(s, x), y) == if x == y then None else LastNamed(s, y)
  {
    if s == [] {
    } else {
      var n := |s| - 1;
      var t := WithoutName(s[..n], x);
      WithoutNameNamed(s[..n], x, y);
      if s[n].name == x {
        assert WithoutName(s, x) == t;
      } else {
        assert WithoutName(s, x)[..|t|] == t;
      }
    }
  }

  lemma {:induction false} WithoutNameIn(s: seq<Item>, x: Option<string>, k: nat)
    requires k < |WithoutName(s, x)|
    ensures WithoutName(s, x)[k] in s && (x.Some? ==> WithoutName(s, x)[k].name != x)
  {
    var n := |s| - 1;
    if k == |WithoutName(s[..n], x)| {
      assert WithoutName(s, x)[k] == s[n];
    } else {
      WithoutNameIn(s[..n], x, k);
    }
  }

  lemma {:induction false} WithoutNameDistinct(s: seq<Item>, x: Option<string>)
    requires AreDistinct(s)
    ensures AreDistinct(WithoutName(s, x))
  {
    if s == [] {
    } else {
      var n := |s| - 1;
      assert AreDistinct(s[..n]);
      WithoutNameDistinct(s[..n], x);
      var t := WithoutName(s[..n], x);
      forall k | 0 <= k < |t| && t[k].name.Some?
        ensures t[k].name != s[n].name
      {
        WithoutNameIn(s[..n], x, k);
      }
    }
  }

  /** Every name has the value of its last item. */
  lemma {:induction false} CompressedNamed(s: seq<Item>, x: Option<string>)
    requires x.Some?
    ensures LastNamed(Compressed(s), x) == LastNamed(s, x)
  {
    if s == [] {
    } else {
      var n := |s| - 1;
      var t := WithoutName(Compressed(s[..n]), s[n].name);
      CompressedNamed(s[..n], x);
      assert Compressed(s)[..|t|] == t;
      if s[n].name.Some? {
        WithoutNameNamed(Compressed(s[..n]), s[n].name, x);
      } else {
        WithoutNone(Compressed(s[..n]));
      }
    }
  }

  lemma {:induction false} WithoutNone(s: seq<Item>)
    ensures WithoutName(s, None) == s
  {
    if s == [] {
    } else {
      WithoutNone(s[..|s| - 1]);
    }
  }

  /** And occurs once. */
  lemma {:induction false} CompressedDistinct(s: seq<Item>)
    ensures AreDistinct(Compressed(s))
  {
    if s == [] {
    } else {
      var n := |s| - 1;
      CompressedDistinct(s[..n]);
      WithoutNameDistinct(Compressed(s[..n]), s[n].name);
      var t := WithoutName(Compressed(s[..n]), s[n].name);
      forall k | 0 <= k < |t| && t[k].name.Some?
        ensures t[k].name != s[n].name
      {
        WithoutNameIn(Compressed(s[..n]), s[n].name, k);
      }
    }
  }

  // ----- a list is merged into another -----

  /** An item replaces the value of the first item of its name, or is appended. */
  function MergedOne(dest: seq<Item>, item: Item): seq<Item> {
    var k := FindName(dest, item.name);
    if k < |dest| then dest[k := item] else dest + [item]
  }

  function MergedAll(dest: seq<Item>, items: seq<Item>): seq<Item> {
    if items == [] then dest else MergedOne(MergedAll(dest, items[..|items| - 1]), items[|items| - 1])
  }

  /** The first list is taken as it is. */
  function MergedInto(dest: seq<Item>, items: seq<Item>): seq<Item> {
    if dest == [] then items else MergedAll(dest, items)
  }

  lemma MergedOneNamed(dest: seq<Item>, item: Item, x: Option<string>)
    ensures FirstNamed(MergedOne(dest, item), x) == if item.name == x then Some(item) else FirstNamed(dest, x)
    ensures MergedOne(dest, item) != []
  {
    var k := FindName(dest, item.name);
    var r := MergedOne(dest, item);
    if item.name == x {
      FindUnique(r, x, k);
    } else {
      var f := FindName(dest, x);
      if k < |dest| || f < |dest| {
        FindUnique(r, x, f);
      } else {
        FindUnique(r, x, |r|);
      }
    }
  }

  /** A name has the value of the last item merged in, or else the one it had. */
  lemma {:induction false} MergedAllNamed(dest: seq<Item>, items: seq<Item>, x: Option<string>)
    ensures FirstNamed(MergedAll(dest, items), x)
         == if LastNamed(items, x).Some? then LastNamed(items, x) else FirstNamed(dest, x)
  {
    if items == [] {
    } else {
      var n := |items| - 1;
      MergedAllNamed(dest, items[..n], x);
      MergedOneNamed(MergedAll(dest, items[..n]), items[n], x);
    }
  }

  lemma MergedOneDistinct(dest: seq<Item>, item: Item)
    requires AreDistinct(dest)
    ensures AreDistinct(MergedOne(dest, item))
  {
    var k := FindName(dest, item.name);
    var r := MergedOne(dest, item);
    forall i, j | 0 <= i < j < |r| && r[i].name.Some?
      ensures r[i].name != r[j].name
    {
      if k < |dest| {
        assert r[i].name == dest[i].name && r[j].name == dest[j].name;
      }
    }
  }

  lemma {:induction false} MergedAllDistinct(dest: seq<Item>, items: seq<Item>)
    requires AreDistinct(dest)
    ensures AreDistinct(MergedAll(dest, items))
  {
    if items == [] {
    } else {
      var n := |items| - 1;
      MergedAllDistinct(dest, items[..n]);
      MergedOneDistinct(MergedAll(dest, items[..n]), items[n]);
    }
  }

  lemma {:induction false} MergedAllConcat(dest: seq<Item>, a: seq<Item>, b: seq<Item>)
    ensures MergedAll(dest, a + b) == MergedAll(MergedAll(dest, a), b)
  {
    if b == [] {
      assert a + b == a;
    } else {
      assert (a + b)[..|a + b| - 1] == a + b[..|b| - 1];
      MergedAllConcat(dest, a, b[..|b| - 1]);
    }
  }

  lemma {:induction false} MergedAllGrows(dest: seq<Item>, items: seq<Item>)
    requires dest != []
    ensures MergedAll(dest, items) != []
  {
    if items == [] {
    } else {
      MergedAllGrows(dest, items[..|items| - 1]);
    }
  }

  /** In a list without repeated names the first item of a name is the last. */
  lemma {:induction false} DistinctNamed(s: seq<Item>, x: Option<string>)
    requires AreDistinct(s) && x.Some?
    ensures FirstNamed(s, x) == LastNamed(s, x)
  {
    if s == [] {
    } else {
      var n := |s| - 1;
      DistinctNamed(s[..n], x);
      var k := FindName(s[..n], x);
      if k < n {
        assert s[k].name == x;
      }
    }
  }
}
