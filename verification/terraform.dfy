/** tfcommons/terraform.go: `FindTerraformModules`, which walks a directory tree and reports,
    sorted and without duplicates, every directory holding a `.tf` file whose path relative to
    the root matches none of the exclude patterns. Regex compilation and matching, the walk's
    visiting order and `filepath.Rel` are parameters: the walk is the sequence of entries it
    visits. */
module Terraform {
  import opened Wrappers
  import opened Strs
  import Paths

  /** An entry the walk hands to its callback. */
  datatype Entry = Entry(name: string, isDir: bool)

  /** A compiled exclude pattern, as `Regexp.MatchString`. */
  type Matcher = string -> bool

  /** `patterns[i]` is the first pattern that does not compile, with error `msg`. */
  predicate FirstCompileErrorAt(patterns: seq<string>, compile: string -> Result<Matcher>, i: int, msg: string) {
    && 0 <= i < |patterns|
    && (forall j :: 0 <= j < i ==> compile(patterns[j]).Ok?)
    && compile(patterns[i]) == Err(msg)
  }

  /** The exclude-pattern loop: every pattern compiled in order, or the first compile error. */
  function CompileAll(patterns: seq<string>, compile: string -> Result<Matcher>): (r: Result<seq<Matcher>>)
    ensures r.Ok? <==> forall i :: 0 <= i < |patterns| ==> compile(patterns[i]).Ok?
    ensures r.Ok? ==> (|r.value| == |patterns|
      && forall i :: 0 <= i < |patterns| ==> r.value[i] == compile(patterns[i]).value)
    ensures r.Err? ==> exists i :: FirstCompileErrorAt(patterns, compile, i, r.msg)
    decreases |patterns|
  {
    if |patterns| == 0 then Ok([])
    else
      match compile(patterns[0])
      case Err(e) =>
        assert FirstCompileErrorAt(patterns, compile, 0, e);
        Err(e)
      case Ok(re) =>
        match CompileAll(patterns[1..], compile)
        case Err(e) =>
          FirstCompileErrorShift(patterns, compile, e);
          Err(e)
        case Ok(res) =>
          assert forall i :: 1 <= i < |patterns| ==> patterns[i] == patterns[1..][i - 1];
          Ok([re] + res)
  }

  /** Past a first pattern that compiles, the first compile error moves one position along. */
  lemma FirstCompileErrorShift(patterns: seq<string>, compile: string -> Result<Matcher>, msg: string)
    requires |patterns| > 0 && compile(patterns[0]).Ok?
    requires exists i :: FirstCompileErrorAt(patterns[1..], compile, i, msg)
    ensures exists i :: FirstCompileErrorAt(patterns, compile, i, msg)
  {
    var i :| FirstCompileErrorAt(patterns[1..], compile, i, msg);
    forall j | 0 <= j < i + 1 ensures compile(patterns[j]).Ok? {
      if j > 0 { assert patterns[j] == patterns[1..][j - 1]; }
    }
    assert FirstCompileErrorAt(patterns, compile, i + 1, msg);
  }

  predicate Excluded(rel: string, ms: seq<Matcher>) {
    exists i :: 0 <= i < |ms| && ms[i](rel)
  }

  /** The file entry `e` makes `d` a module directory: its relative path is known, matches no
      exclude pattern, has extension ".tf", and its directory is `d`. */
  predicate Contributes(e: Entry, ms: seq<Matcher>, rel: string -> Result<string>, d: string) {
    && !e.isDir
    && rel(e.name).Ok?
    && !Excluded(rel(e.name).value, ms)
    && Paths.Ext(rel(e.name).value) == ".tf"
    && Paths.Dir(rel(e.name).value) == d
  }

  /** The walk callback folded over the visited entries: the module directories recorded and the
      error that stopped the walk, if any. */
  function Walk(entries: seq<Entry>, ms: seq<Matcher>, rel: string -> Result<string>): (r: (set<string>, Option<string>))
    ensures r.1.Some? ==> exists i :: (
      && 0 <= i < |entries| && !entries[i].isDir
      && rel(entries[i].name) == Err(r.1.value)
      && forall j :: 0 <= j < i && !entries[j].isDir ==> rel(entries[j].name).Ok?)
    ensures r.1.None? ==> forall i :: 0 <= i < |entries| && !entries[i].isDir ==> rel(entries[i].name).Ok?
    decreases |entries|
  {
    if |entries| == 0 then ({}, None)
    else
      var prev := Walk(entries[..|entries| - 1], ms, rel);
      var e := entries[|entries| - 1];
      if prev.1.Some? || e.isDir then prev
      else
        match rel(e.name)
        case Err(m) => (prev.0, Some(m))
        case Ok(r) =>
          if Excluded(r, ms) || Paths.Ext(r) != ".tf" then prev else (prev.0 + {Paths.Dir(r)}, None)
  }

  /** Once the walk has failed, later entries change nothing. */
  lemma {:induction false} WalkErrorSticky(entries: seq<Entry>, k: nat, ms: seq<Matcher>, rel: string -> Result<string>)
    requires k <= |entries|
    requires Walk(entries[..k], ms, rel).1.Some?
    ensures Walk(entries, ms, rel) == Walk(entries[..k], ms, rel)
    decreases |entries| - k
  {
    if k < |entries| {
      var n := |entries|;
      assert entries[..n - 1][..k] == entries[..k];
      WalkErrorSticky(entries[..n - 1], k, ms, rel);
    } else {
      assert entries[..k] == entries;
    }
  }

  /** Every reported directory comes from some visited file that contributes it; when the walk
      finishes without error, every contributing file's directory is reported. */
  lemma {:induction false} WalkCharacterized(entries: seq<Entry>, ms: seq<Matcher>, rel: string -> Result<string>)
    ensures forall d :: d in Walk(entries, ms, rel).0 ==>
      exists i :: 0 <= i < |entries| && Contributes(entries[i], ms, rel, d)
    ensures Walk(entries, ms, rel).1.None? ==>
      forall i, d :: 0 <= i < |entries| && Contributes(entries[i], ms, rel, d) ==> d in Walk(entries, ms, rel).0
    decreases |entries|
  {
    if |entries| > 0 {
      var n := |entries|;
      var init := entries[..n - 1];
      WalkCharacterized(init, ms, rel);
      forall i | 0 <= i < n - 1 ensures entries[i] == init[i] { }
      var w := Walk(entries, ms, rel);
      if w.1.None? {
        forall i, d | 0 <= i < n && Contributes(entries[i], ms, rel, d) ensures d in w.0 {
          if i < n - 1 {
            assert Contributes(init[i], ms, rel, d);
          }
        }
      }
      forall d | d in w.0 ensures exists i :: 0 <= i < n && Contributes(entries[i], ms, rel, d) {
        if d in Walk(init, ms, rel).0 {
          var i :| 0 <= i < n - 1 && Contributes(init[i], ms, rel, d);
          assert Contributes(entries[i], ms, rel, d);
        } else {
          assert Contributes(entries[n - 1], ms, rel, d);
        }
      }
    }
  }

  /** When every visited file's relative path is excluded, no module is reported. */
  lemma ExcludeEverything(entries: seq<Entry>, ms: seq<Matcher>, rel: string -> Result<string>)
    requires forall i :: 0 <= i < |entries| && !entries[i].isDir && rel(entries[i].name).Ok? ==>
      Excluded(rel(entries[i].name).value, ms)
    ensures Walk(entries, ms, rel).0 == {}
  {
    WalkCharacterized(entries, ms, rel);
  }

  /** A file under a prefix that some exclude pattern covers contributes nothing. */
  lemma ContributorOutsidePrefix(e: Entry, ms: seq<Matcher>, rel: string -> Result<string>, d: string,
                                 k: nat, prefix: string)
    requires k < |ms| && forall s :: prefix <= s ==> ms[k](s)
    requires Contributes(e, ms, rel, d)
    ensures !(prefix <= rel(e.name).value)
  {
    assert !ms[k](rel(e.name).value);
  }

  /** An exclude pattern that matches every path under a prefix (such as `^examples`) keeps
      every file under that prefix out: each reported directory comes from a file outside it. */
  lemma ExcludedPrefixIsSkipped(entries: seq<Entry>, ms: seq<Matcher>, rel: string -> Result<string>,
                                k: nat, prefix: string)
    requires k < |ms| && forall s :: prefix <= s ==> ms[k](s)
    ensures forall d :: d in Walk(entries, ms, rel).0 ==>
      exists i :: 0 <= i < |entries| && Contributes(entries[i], ms, rel, d) && !(prefix <= rel(entries[i].name).value)
  {
    WalkCharacterized(entries, ms, rel);
    forall d | d in Walk(entries, ms, rel).0
      ensures exists i :: 0 <= i < |entries| && Contributes(entries[i], ms, rel, d) && !(prefix <= rel(entries[i].name).value)
    {
      var i :| 0 <= i < |entries| && Contributes(entries[i], ms, rel, d);
      ContributorOutsidePrefix(entries[i], ms, rel, d, k, prefix);
    }
  }

  // --- sorting and de-duplication ---------------------------------------------------------

  /** Ascending in `sort.Strings` order, with no repeats. */
  predicate StrictlySorted(s: seq<string>) {
    forall i, j :: 0 <= i < j < |s| ==> Less(s[i], s[j])
  }

  /** Adds `x` to a strictly sorted sequence, keeping it strictly sorted; a present `x` is not repeated. */
  function Insert(s: seq<string>, x: string): (r: seq<string>)
    requires StrictlySorted(s)
    ensures StrictlySorted(r)
    ensures forall y :: y in r <==> y in s || y == x
    decreases |s|
  {
    if |s| == 0 then [x]
    else if x == s[0] then s
    else if Less(x, s[0]) then
      assert forall j :: 0 <= j < |s| ==> Less(x, s[j]) by {
        forall j | 0 <= j < |s| ensures Less(x, s[j]) {
          if j > 0 { LessTransitive(x, s[0], s[j]); }
        }
      }
      [x] + s
    else
      LessTotal(x, s[0]);
      var rest := Insert(s[1..], x);
      var r := [s[0]] + rest;
      assert forall y :: y in rest ==> Less(s[0], y) by {
        forall y | y in rest ensures Less(s[0], y) {
          if y != x {
            var j :| 0 <= j < |s[1..]| && s[1..][j] == y;
            assert s[j + 1] == y;
          }
        }
      }
      assert forall i, j :: 0 <= i < j < |r| ==> Less(r[i], r[j]) by {
        forall i, j | 0 <= i < j < |r| ensures Less(r[i], r[j]) {
          assert r[j] == rest[j - 1];
          if i > 0 { assert r[i] == rest[i - 1]; }
        }
      }
      assert forall y :: y in r <==> y in s || y == x by {
        assert s == [s[0]] + s[1..];
      }
      r
  }

  lemma HeadIsMember(s: seq<string>)
    ensures |s| > 0 ==> s[0] in s
  {
  }

  /** A strictly sorted sequence is determined by its elements, so the map-then-`sort.Strings`
      of the source and the insertion above produce the same list. */
  lemma {:induction false} SortedUnique(a: seq<string>, b: seq<string>)
    requires StrictlySorted(a) && StrictlySorted(b)
    requires forall y :: y in a <==> y in b
    ensures a == b
    decreases |a|
  {
    if |a| > 0 && |b| > 0 {
      assert a[0] in a && b[0] in b;
      if a[0] != b[0] {
        var i :| 0 <= i < |b| && b[i] == a[0];
        var j :| 0 <= j < |a| && a[j] == b[0];
        assert i > 0 && j > 0;
        LessAsymmetric(a[0], a[j]);
        assert false;
      }
      forall y ensures y in a[1..] <==> y in b[1..] {
        if y in a[1..] {
          var i :| 0 <= i < |a[1..]| && a[1..][i] == y;
          assert Less(a[0], a[i + 1]);
          LessIrreflexive(y);
          assert y in b && y != b[0];
          var k :| 0 <= k < |b| && b[k] == y;
          assert k > 0 && b[1..][k - 1] == y;
        }
        if y in b[1..] {
          var i :| 0 <= i < |b[1..]| && b[1..][i] == y;
          assert Less(b[0], b[i + 1]);
          LessIrreflexive(y);
          assert y in a && y != a[0];
          var k :| 0 <= k < |a| && a[k] == y;
          assert k > 0 && a[1..][k - 1] == y;
        }
      }
      SortedUnique(a[1..], b[1..]);
      assert a == [a[0]] + a[1..] && b == [b[0]] + b[1..];
    } else {
      HeadIsMember(a);
      HeadIsMember(b);
    }
  }

  // --- FindTerraformModules ---------------------------------------------------------------

  /** `FindTerraformModules`: `None` paths model the nil slice returned on a bad exclude pattern. */
  method FindTerraformModules(excludePaths: seq<string>, compile: string -> Result<Matcher>,
                              entries: seq<Entry>, rel: string -> Result<string>)
    returns (paths: Option<seq<string>>, err: Option<string>)
    ensures CompileAll(excludePaths, compile).Err? ==>
      paths.None? && err == Some(CompileAll(excludePaths, compile).msg)
    ensures CompileAll(excludePaths, compile).Ok? ==>
      var w := Walk(entries, CompileAll(excludePaths, compile).value, rel);
      && paths.Some?
      && StrictlySorted(paths.value)
      && (forall d :: d in paths.value <==> d in w.0)
      && err == w.1
  {
    var compiled := CompileAll(excludePaths, compile);
    if compiled.Err? {
      return None, Some(compiled.msg);
    }
    var ms := compiled.value;
    var found: seq<string> := [];
    var walkErr: Option<string> := None;
    var i := 0;
    while i < |entries| && walkErr.None?
      invariant 0 <= i <= |entries|
      invariant StrictlySorted(found)
      invariant (forall d :: d in found <==> d in Walk(entries[..i], ms, rel).0)
      invariant walkErr == Walk(entries[..i], ms, rel).1
    {
      assert entries[..i + 1][..i] == entries[..i];
      var e := entries[i];
      if !e.isDir {
        match rel(e.name) {
          case Err(m) =>
            walkErr := Some(m);
          case Ok(r) =>
            if !Excluded(r, ms) && Paths.Ext(r) == ".tf" {
              found := Insert(found, Paths.Dir(r));
            }
        }
      }
      i := i + 1;
    }
    if walkErr.Some? {
      WalkErrorSticky(entries, i, ms, rel);
    } else {
      assert entries[..i] == entries;
    }
    return Some(found), walkErr;
  }

  /** Excluding the paths of every visited file yields an empty, not a nil, list and no error
      unless the walk fails. */
  method FindNothingWhenAllExcluded(excludePaths: seq<string>, compile: string -> Result<Matcher>,
                                    entries: seq<Entry>, rel: string -> Result<string>)
    returns (paths: Option<seq<string>>, err: Option<string>)
    requires CompileAll(excludePaths, compile).Ok?
    requires forall i :: 0 <= i < |entries| && !entries[i].isDir && rel(entries[i].name).Ok? ==>
      Excluded(rel(entries[i].name).value, CompileAll(excludePaths, compile).value)
    ensures paths == Some([])
  {
    paths, err := FindTerraformModules(excludePaths, compile, entries, rel);
    ExcludeEverything(entries, CompileAll(excludePaths, compile).value, rel);
    HeadIsMember(paths.value);
  }
}
