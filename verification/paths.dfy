/** Lexical slash-separated paths as Go's `path` package treats them (`path.Clean`,
    `path.Join`) and, on Unix, `path/filepath` (`filepath.Dir`, `filepath.Ext`).
    A path is read as a root flag plus the sequence of its elements; cleaning drops
    empty and `.` elements and lets `..` cancel the element before it. */
module Paths {
  import opened Strs

  predicate Rooted(p: string) {
    |p| > 0 && p[0] == '/'
  }

  /** An element that cleaning keeps as it is. */
  predicate Plain(e: string) {
    |e| > 0 && '/' !in e && e != "." && e != ".."
  }

  /** The shape of a cleaned element list: no empty or `.` element, no slash inside an
      element, and `..` only as a leading run of an unrooted path. */
  ghost predicate Normal(rooted: bool, kept: seq<string>) {
    forall i :: 0 <= i < |kept| ==>
      && kept[i] != "" && kept[i] != "." && '/' !in kept[i]
      && (kept[i] == ".." ==> !rooted && forall j :: 0 <= j < i ==> kept[j] == "..")
  }

  /** Folds one element into the elements kept so far. */
  function Step(rooted: bool, kept: seq<string>, e: string): seq<string> {
    if e == "" || e == "." then kept
    else if e == ".." then
      if |kept| > 0 && kept[|kept| - 1] != ".." then kept[..|kept| - 1]
      else if rooted then kept
      else kept + [".."]
    else kept + [e]
  }

  /** Lexical resolution of a list of elements, left to right. */
  function Resolve(rooted: bool, elems: seq<string>): seq<string>
    decreases |elems|
  {
    if |elems| == 0 then []
    else Step(rooted, Resolve(rooted, elems[..|elems| - 1]), elems[|elems| - 1])
  }

  function Render(rooted: bool, kept: seq<string>): string {
    if rooted then "/" + JoinWith(kept, '/')
    else if |kept| == 0 then "."
    else JoinWith(kept, '/')
  }

  /** The elements a path denotes once resolved. */
  function Elements(p: string): seq<string> {
    Resolve(Rooted(p), Split(p, '/'))
  }

  /** `path.Clean`. */
  function Clean(p: string): string {
    Render(Rooted(p), Elements(p))
  }

  /** The elements `path.Join` concatenates: everything from the first non-empty element on. */
  function DropLeadingEmpty(elems: seq<string>): seq<string>
    decreases |elems|
  {
    if |elems| == 0 then []
    else if elems[0] == "" then DropLeadingEmpty(elems[1..])
    else elems
  }

  /** `path.Join`: "" when every element is empty, otherwise the cleaned slash-join. */
  function Join(elems: seq<string>): string {
    var tail := DropLeadingEmpty(elems);
    if |tail| == 0 then "" else Clean(JoinWith(tail, '/'))
  }

  /** Index of the last slash, or -1. */
  function LastSlash(p: string): (i: int)
    ensures -1 <= i < |p|
    ensures i >= 0 ==> p[i] == '/'
    ensures forall j :: i < j < |p| ==> p[j] != '/'
    decreases |p|
  {
    if |p| == 0 then -1
    else if p[|p| - 1] == '/' then |p| - 1
    else LastSlash(p[..|p| - 1])
  }

  /** `filepath.Dir` on Unix: everything up to the last slash, cleaned. */
  function Dir(p: string): string {
    Clean(p[..LastSlash(p) + 1])
  }

  /** `filepath.Ext`: the suffix from the last dot of the final element, or "". */
  function Ext(p: string): (e: string)
    ensures e == "" || (e[0] == '.' && HasSuffix(p, e) && '/' !in e)
    decreases |p|
  {
    if |p| == 0 then ""
    else
      var c := p[|p| - 1];
      if c == '/' then ""
      else if c == '.' then "."
      else
        var e := Ext(p[..|p| - 1]);
        if e == "" then "" else e + [c]
  }

  // ---------------------------------------------------------------------------------------
  // Cleaning produces normal element lists, and normal element lists survive a render.

  lemma StepNormal(rooted: bool, kept: seq<string>, e: string)
    requires Normal(rooted, kept) && '/' !in e
    ensures Normal(rooted, Step(rooted, kept, e))
  {
    if e == ".." && !(|kept| > 0 && kept[|kept| - 1] != "..") && !rooted {
      var r := kept + [".."];
      forall i | 0 <= i < |r| && r[i] == ".." ensures forall j :: 0 <= j < i ==> r[j] == ".." {
        if i == |kept| && |kept| > 0 {
          assert kept[|kept| - 1] == "..";
        }
      }
    }
  }

  lemma {:induction false} ResolveNormal(rooted: bool, elems: seq<string>)
    requires forall i :: 0 <= i < |elems| ==> '/' !in elems[i]
    ensures Normal(rooted, Resolve(rooted, elems))
    decreases |elems|
  {
    if |elems| > 0 {
      ResolveNormal(rooted, elems[..|elems| - 1]);
      StepNormal(rooted, Resolve(rooted, elems[..|elems| - 1]), elems[|elems| - 1]);
    }
  }

  lemma ElementsNormal(p: string)
    ensures Normal(Rooted(p), Elements(p))
  {
    SplitPartsAreFree(p, '/');
    ResolveNormal(Rooted(p), Split(p, '/'));
  }

  lemma NormalPrefix(rooted: bool, kept: seq<string>)
    requires Normal(rooted, kept) && |kept| > 0
    ensures Normal(rooted, kept[..|kept| - 1])
  {
    var init := kept[..|kept| - 1];
    forall i | 0 <= i < |init| ensures init[i] == kept[i] {
    }
  }

  /** The last element of a normal list is kept by a step over the ones before it. */
  lemma StepOfNormalLast(rooted: bool, kept: seq<string>)
    requires Normal(rooted, kept) && |kept| > 0
    ensures Step(rooted, kept[..|kept| - 1], kept[|kept| - 1]) == kept[..|kept| - 1] + [kept[|kept| - 1]]
  {
    var init := kept[..|kept| - 1];
    var last := kept[|kept| - 1];
    if last == ".." && |init| > 0 {
      assert kept[|init| - 1] == "..";
      assert init[|init| - 1] == "..";
    }
  }

  /** Resolving a list that is already normal changes nothing. */
  lemma {:induction false} ResolveOfNormal(rooted: bool, kept: seq<string>)
    requires Normal(rooted, kept)
    ensures Resolve(rooted, kept) == kept
    decreases |kept|
  {
    if |kept| > 0 {
      var init := kept[..|kept| - 1];
      var last := kept[|kept| - 1];
      NormalPrefix(rooted, kept);
      ResolveOfNormal(rooted, init);
      assert Resolve(rooted, kept) == Step(rooted, init, last);
      StepOfNormalLast(rooted, kept);
      assert init + [last] == kept;
    }
  }

  /** A leading empty element (the one before a leading slash) is ignored. */
  lemma {:induction false} ResolveLeadingEmpty(rooted: bool, elems: seq<string>)
    ensures Resolve(rooted, [""] + elems) == Resolve(rooted, elems)
    decreases |elems|
  {
    if |elems| > 0 {
      var init := elems[..|elems| - 1];
      assert ([""] + elems)[..|elems|] == [""] + init;
      ResolveLeadingEmpty(rooted, init);
    }
  }

  /** Appending plain elements appends them to the resolution. */
  lemma {:induction false} ResolveAppendPlain(rooted: bool, elems: seq<string>, plain: seq<string>)
    requires forall i :: 0 <= i < |plain| ==> Plain(plain[i])
    ensures Resolve(rooted, elems + plain) == Resolve(rooted, elems) + plain
    decreases |plain|
  {
    if |plain| > 0 {
      var init := plain[..|plain| - 1];
      assert (elems + plain)[..|elems + plain| - 1] == elems + init;
      ResolveAppendPlain(rooted, elems, init);
      var last := plain[|plain| - 1];
      assert Plain(last);
      assert Step(rooted, Resolve(rooted, elems) + init, last) == Resolve(rooted, elems) + init + [last];
      assert (elems + plain)[|elems + plain| - 1] == last;
      assert init + [last] == plain;
      assert Resolve(rooted, elems + plain) == Step(rooted, Resolve(rooted, elems + init), last);
    } else {
      assert elems + plain == elems;
    }
  }

  lemma NormalPartsFree(rooted: bool, kept: seq<string>)
    requires Normal(rooted, kept)
    ensures forall i :: 0 <= i < |kept| ==> '/' !in kept[i]
  {
  }

  /** Rendering a normal list and reading it back gives the same root flag and elements. */
  lemma RenderRoundTrip(rooted: bool, kept: seq<string>)
    requires Normal(rooted, kept)
    ensures Rooted(Render(rooted, kept)) == rooted
    ensures Elements(Render(rooted, kept)) == kept
  {
    var r := Render(rooted, kept);
    if rooted {
      if |kept| == 0 {
        assert r == "/";
        assert Split(r, '/') == ["", ""];
      } else {
        NormalPartsFree(rooted, kept);
        SplitJoin(kept, '/');
        SplitConcat("", JoinWith(kept, '/'), '/');
        assert r == "" + ['/'] + JoinWith(kept, '/');
        assert Split(r, '/') == [""] + kept;
        ResolveLeadingEmpty(rooted, kept);
        ResolveOfNormal(rooted, kept);
      }
    } else if |kept| == 0 {
      assert r == ".";
      assert r[1..] == "";
      assert Split(r[1..], '/') == [""];
      assert r[0] == '.' && r[0] != '/';
      assert Split(r, '/') == [[r[0]] + ""] + [""][1..];
      assert [r[0]] + "" == ".";
      assert Split(r, '/') == ["."];
    } else {
      NormalPartsFree(rooted, kept);
      SplitJoin(kept, '/');
      ResolveOfNormal(rooted, kept);
      JoinWithHead(kept);
    }
  }

  /** The first character of a slash-join of non-empty slash-free elements is not a slash. */
  lemma JoinWithHead(kept: seq<string>)
    requires |kept| > 0 && |kept[0]| > 0 && '/' !in kept[0]
    ensures |JoinWith(kept, '/')| > 0 && JoinWith(kept, '/')[0] == kept[0][0]
  {
  }

  /** `path.Clean` keeps the root flag and the resolved elements of its input. */
  lemma CleanKeepsElements(p: string)
    ensures Rooted(Clean(p)) == Rooted(p)
    ensures Elements(Clean(p)) == Elements(p)
  {
    ElementsNormal(p);
    RenderRoundTrip(Rooted(p), Elements(p));
  }

  /** `path.Clean` is idempotent. */
  lemma CleanIdempotent(p: string)
    ensures Clean(Clean(p)) == Clean(p)
  {
    CleanKeepsElements(p);
  }

  /** Joining plain elements onto a non-empty base appends exactly those elements to the
      base's resolved elements, and keeps the base's root flag. */
  lemma JoinPlain(base: string, plain: seq<string>)
    requires base != "" && |plain| > 0
    requires forall i :: 0 <= i < |plain| ==> Plain(plain[i])
    ensures Rooted(Join([base] + plain)) == Rooted(base)
    ensures Elements(Join([base] + plain)) == Elements(base) + plain
  {
    var all := [base] + plain;
    assert DropLeadingEmpty(all) == all;
    assert all[1..] == plain;
    var joined := JoinWith(all, '/');
    assert joined == base + ['/'] + JoinWith(plain, '/');
    SplitConcat(base, JoinWith(plain, '/'), '/');
    assert forall i :: 0 <= i < |plain| ==> '/' !in plain[i];
    SplitJoin(plain, '/');
    assert Rooted(joined) == Rooted(base);
    ResolveAppendPlain(Rooted(base), Split(base, '/'), plain);
    CleanKeepsElements(joined);
  }

  /** `filepath.Dir` of a bare file name is ".". */
  lemma DirOfFileName(f: string)
    requires '/' !in f
    ensures Dir(f) == "."
  {
    assert LastSlash(f) == -1;
    assert f[..0] == "";
    assert Split("", '/') == [""];
  }

  /** `filepath.Dir` of `d/f`, with `f` a file name, is `d` cleaned. */
  lemma DirOfChild(d: string, f: string)
    requires d != "" && '/' !in f
    ensures Dir(d + "/" + f) == Clean(d)
  {
    var p := d + "/" + f;
    assert LastSlash(p) == |d| by {
      assert p[|d|] == '/';
      forall j | |d| < j < |p| ensures p[j] != '/' {
        assert p[j] == f[j - |d| - 1];
      }
    }
    assert p[..|d| + 1] == d + ['/'] + "";
    SplitConcat(d, "", '/');
    assert Split(d + ['/'] + "", '/') == Split(d, '/') + [""];
    assert Rooted(d + ['/'] + "") == Rooted(d);
  }

  /** `filepath.Ext(p) == ".tf"` exactly when `p` ends in ".tf". */
  lemma ExtIsTf(p: string)
    ensures Ext(p) == ".tf" <==> HasSuffix(p, ".tf")
  {
    if HasSuffix(p, ".tf") {
      var n := |p|;
      assert p[n - 1] == 'f' && p[n - 2] == 't' && p[n - 3] == '.';
      var p1 := p[..n - 1];
      var p2 := p1[..n - 2];
      assert p2[n - 3] == '.';
      assert Ext(p2) == ".";
      assert Ext(p1) == ".t";
    }
  }
}
