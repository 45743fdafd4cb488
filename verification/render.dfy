/** webstd/render/html_renderer.go: building one template set per component and page, each
    holding every layout and component, and rendering by path. Globbing the embedded file
    system, reading and parsing a template and executing it are parameters. */
module Render {
  import opened Wrappers

  /** The template functions, by name; `F` stands for a Go function value. */
  type FuncMap<F> = map<string, F>

  /** A parsed template set: its root name, the names parsed into it in order (root first)
      with their parse trees, and the functions available to it. */
  datatype TemplateSet<T, F> = TemplateSet(root: string, names: seq<string>, trees: seq<T>, funcs: FuncMap<F>)

  /** `RendererOpts` with the file system folded into `glob` and `load`. */
  datatype Options<F> = Options(layoutGlob: string, componentGlob: string, pageGlob: string,
                                customFunctions: FuncMap<F>)

  datatype Renderer<T, F> = Renderer(templateMap: map<string, TemplateSet<T, F>>)

  /** sprig's functions overridden by the custom ones. */
  function Functions<F>(sprig: FuncMap<F>, custom: FuncMap<F>): (fm: FuncMap<F>)
    ensures fm.Keys == sprig.Keys + custom.Keys
    ensures forall k :: k in custom ==> fm[k] == custom[k]
    ensures forall k :: k in sprig && k !in custom ==> fm[k] == sprig[k]
  {
    sprig + custom
  }

  /** `paths` without `p`, in order. */
  function Without(paths: seq<string>, p: string): (r: seq<string>)
    ensures forall q :: q in r <==> q in paths && q != p
    ensures |r| <= |paths|
  {
    if |paths| == 0 then []
    else if paths[0] == p then Without(paths[1..], p)
    else [paths[0]] + Without(paths[1..], p)
  }

  /** The `for` loop of `loadAllEmbeddedTemplates` after the root: each path parsed into the
      set in turn, stopping at the first failure. */
  function AddAll<T, F>(set0: TemplateSet<T, F>, paths: seq<string>, load: string -> Result<T>)
    : (r: Result<TemplateSet<T, F>>)
    ensures r.Ok? <==> forall i :: 0 <= i < |paths| ==> load(paths[i]).Ok?
    ensures r.Ok? ==> r.value.root == set0.root && r.value.funcs == set0.funcs
    ensures r.Ok? ==> r.value.names == set0.names + paths
    ensures r.Ok? ==> |r.value.trees| == |set0.trees| + |paths|
    ensures r.Err? ==> exists i :: FirstFailureAt(paths, load, i, r.msg)
    decreases |paths|
  {
    if |paths| == 0 then Ok(set0)
    else
      match load(paths[0])
      case Err(e) =>
        assert FirstFailureAt(paths, load, 0, e);
        Err(e)
      case Ok(t) =>
        var r := AddAll(set0.(names := set0.names + [paths[0]], trees := set0.trees + [t]), paths[1..], load);
        AddAllShift(set0.names, paths, load, r.Ok?, if r.Ok? then r.value.names else []);
        FirstFailureShift(paths, load, r.Err?, if r.Err? then r.msg else "");
        r
  }

  /** `paths[i]` is the first path that fails to load, with error `msg`. */
  predicate FirstFailureAt<T>(paths: seq<string>, load: string -> Result<T>, i: int, msg: string) {
    && 0 <= i < |paths|
    && (forall j :: 0 <= j < i ==> load(paths[j]).Ok?)
    && load(paths[i]) == Err(msg)
  }

  /** Past a first path that loads, the first failure moves one position along. */
  lemma FirstFailureShift<T>(paths: seq<string>, load: string -> Result<T>, failed: bool, msg: string)
    requires |paths| > 0 && load(paths[0]).Ok?
    requires failed ==> exists i :: FirstFailureAt(paths[1..], load, i, msg)
    ensures failed ==> exists i :: FirstFailureAt(paths, load, i, msg)
  {
    if failed {
      var i :| FirstFailureAt(paths[1..], load, i, msg);
      forall j | 0 <= j < i + 1 ensures load(paths[j]).Ok? {
        if j > 0 { assert paths[j] == paths[1..][j - 1]; }
      }
      assert FirstFailureAt(paths, load, i + 1, msg);
    }
  }

  lemma AddAllShift<T>(names: seq<string>, paths: seq<string>, load: string -> Result<T>, ok: bool, out: seq<string>)
    requires |paths| > 0 && load(paths[0]).Ok?
    requires ok <==> forall i :: 0 <= i < |paths[1..]| ==> load(paths[1..][i]).Ok?
    requires ok ==> out == names + [paths[0]] + paths[1..]
    ensures ok <==> forall i :: 0 <= i < |paths| ==> load(paths[i]).Ok?
    ensures ok ==> out == names + paths
  {
    if ok {
      forall i | 0 <= i < |paths| ensures load(paths[i]).Ok? {
        if i > 0 { assert paths[i] == paths[1..][i - 1]; }
      }
      assert [paths[0]] + paths[1..] == paths;
    }
  }

  /** `loadAllEmbeddedTemplates`: the root, then every included path other than the root. */
  function LoadAll<T, F>(fm: FuncMap<F>, root: string, included: seq<string>, load: string -> Result<T>)
    : (r: Result<TemplateSet<T, F>>)
    ensures r.Ok? <==> load(root).Ok? && forall q :: q in included && q != root ==> load(q).Ok?
    ensures r.Ok? ==> r.value.root == root && r.value.funcs == fm
    ensures r.Ok? ==> r.value.names == [root] + Without(included, root)
    ensures r.Ok? ==> forall q :: q in r.value.names <==> q == root || q in included
  {
    match load(root)
    case Err(e) => Err(e)
    case Ok(t) =>
      var rest := Without(included, root);
      var r := AddAll(TemplateSet(root, [root], [t], fm), rest, load);
      assert (forall i :: 0 <= i < |rest| ==> load(rest[i]).Ok?) <==> forall q :: q in included && q != root ==> load(q).Ok?;
      r
  }

  /** The loop of `NewRenderer` over components then pages: each path keyed to its template
      set, stopping at the first failure. */
  function BuildMap<T, F>(fm: FuncMap<F>, keys: seq<string>, included: seq<string>, load: string -> Result<T>)
    : (r: Result<map<string, TemplateSet<T, F>>>)
    ensures r.Ok? <==> forall k :: k in keys ==> LoadAll(fm, k, included, load).Ok?
    ensures r.Ok? ==> r.value.Keys == set k | k in keys
    ensures r.Ok? ==> forall p :: p in r.value ==> LoadAll(fm, p, included, load) == Ok(r.value[p])
    ensures r.Err? ==> exists i :: FirstSetFailureAt(fm, keys, included, load, i, r.msg)
    decreases |keys|
  {
    if |keys| == 0 then Ok(map[])
    else
      var init := keys[..|keys| - 1];
      var last := keys[|keys| - 1];
      assert keys == init + [last];
      match BuildMap(fm, init, included, load)
      case Err(e) =>
        FirstSetFailureExtends(fm, init, last, included, load, e);
        Err(e)
      case Ok(m) =>
        match LoadAll(fm, last, included, load)
        case Err(e) =>
          assert forall j :: 0 <= j < |init| ==> init[j] in init;
          assert FirstSetFailureAt(fm, keys, included, load, |keys| - 1, e);
          Err(e)
        case Ok(t) => Ok(m[last := t])
  }

  /** `keys[i]` is the first key whose template set fails to load, with error `msg`. */
  predicate FirstSetFailureAt<T, F>(fm: FuncMap<F>, keys: seq<string>, included: seq<string>,
                                    load: string -> Result<T>, i: int, msg: string) {
    && 0 <= i < |keys|
    && (forall j :: 0 <= j < i ==> LoadAll(fm, keys[j], included, load).Ok?)
    && LoadAll(fm, keys[i], included, load) == Err(msg)
  }

  /** A first failure among some keys stays the first failure when a key is appended. */
  lemma FirstSetFailureExtends<T, F>(fm: FuncMap<F>, init: seq<string>, last: string, included: seq<string>,
                                     load: string -> Result<T>, msg: string)
    requires exists i :: FirstSetFailureAt(fm, init, included, load, i, msg)
    ensures exists i :: FirstSetFailureAt(fm, init + [last], included, load, i, msg)
  {
    var i :| FirstSetFailureAt(fm, init, included, load, i, msg);
    var keys := init + [last];
    forall j | 0 <= j <= i ensures keys[j] == init[j] {
    }
    assert FirstSetFailureAt(fm, keys, included, load, i, msg);
  }

  /** `NewRenderer`: `glob` stands for `fs.Glob` on the embedded file system and `load` for
      reading and parsing one template file. */
  function NewRenderer<T, F>(opts: Options<F>, sprig: FuncMap<F>, glob: string -> Result<seq<string>>,
                             load: string -> Result<T>): (r: Result<Renderer<T, F>>)
    ensures r.Ok? ==> glob(opts.layoutGlob).Ok? && glob(opts.componentGlob).Ok? && glob(opts.pageGlob).Ok?
    ensures glob(opts.layoutGlob).Err? ==> r == Err(glob(opts.layoutGlob).msg)
    ensures glob(opts.layoutGlob).Ok? && glob(opts.componentGlob).Err? ==> r == Err(glob(opts.componentGlob).msg)
    ensures glob(opts.layoutGlob).Ok? && glob(opts.componentGlob).Ok? && glob(opts.pageGlob).Err? ==>
      r == Err(glob(opts.pageGlob).msg)
    ensures glob(opts.layoutGlob).Ok? && glob(opts.componentGlob).Ok? && glob(opts.pageGlob).Ok? ==>
      var layouts := glob(opts.layoutGlob).value;
      var components := glob(opts.componentGlob).value;
      var pages := glob(opts.pageGlob).value;
      var fm := Functions(sprig, opts.customFunctions);
      && (r.Ok? <==> forall k :: k in components + pages ==> LoadAll(fm, k, layouts + components, load).Ok?)
      && (r.Err? ==> exists i :: FirstSetFailureAt(fm, components + pages, layouts + components, load, i, r.msg))
    ensures r.Ok? ==>
      var layouts := glob(opts.layoutGlob).value;
      var components := glob(opts.componentGlob).value;
      var pages := glob(opts.pageGlob).value;
      && r.value.templateMap.Keys == (set k | k in components + pages)
      && forall p :: p in r.value.templateMap ==>
           LoadAll(Functions(sprig, opts.customFunctions), p, layouts + components, load) == Ok(r.value.templateMap[p])
  {
    var fm := Functions(sprig, opts.customFunctions);
    match glob(opts.layoutGlob)
    case Err(e) => Err(e)
    case Ok(layouts) =>
      match glob(opts.componentGlob)
      case Err(e) => Err(e)
      case Ok(components) =>
        var included := layouts + components;
        match glob(opts.pageGlob)
        case Err(e) => Err(e)
        case Ok(pages) =>
          match BuildMap(fm, components + pages, included, load)
          case Err(e) => Err(e)
          case Ok(tm) => Ok(Renderer(tm))
  }

  /** Every template set of a built renderer holds every layout and every component; a page
      that is neither never appears in another page's set; custom functions win over sprig's. */
  lemma TemplateSetsShareLayoutsNotPages<T, F>(opts: Options<F>, sprig: FuncMap<F>,
                                               glob: string -> Result<seq<string>>, load: string -> Result<T>,
                                               p: string, q: string)
    requires NewRenderer(opts, sprig, glob, load).Ok?
    requires p in NewRenderer(opts, sprig, glob, load).value.templateMap
    ensures var s := NewRenderer(opts, sprig, glob, load).value.templateMap[p];
      && s.root == p
      && (forall x :: x in glob(opts.layoutGlob).value || x in glob(opts.componentGlob).value ==> x in s.names)
      && (forall k :: k in opts.customFunctions ==> k in s.funcs && s.funcs[k] == opts.customFunctions[k])
    ensures q != p && q !in glob(opts.layoutGlob).value && q !in glob(opts.componentGlob).value ==>
      q !in NewRenderer(opts, sprig, glob, load).value.templateMap[p].names
  {
  }

  /** `RenderHTML`: an unknown path renders "" with an error; otherwise `execute` runs the set. */
  function RenderHTML<T, F, D>(r: Renderer<T, F>, path: string, data: D,
                               execute: (TemplateSet<T, F>, D) -> (string, Option<string>)): (out: (string, Option<string>))
    ensures path !in r.templateMap ==> out == ("", Some("No template " + path + " in embedded filesystem"))
    ensures path in r.templateMap ==> out == execute(r.templateMap[path], data)
  {
    if path !in r.templateMap then ("", Some("No template " + path + " in embedded filesystem"))
    else execute(r.templateMap[path], data)
  }

  /** A layout that is not also a component or a page is never a key. */
  lemma LayoutsAreNotKeys<T, F>(opts: Options<F>, sprig: FuncMap<F>, glob: string -> Result<seq<string>>,
                                load: string -> Result<T>, l: string)
    requires NewRenderer(opts, sprig, glob, load).Ok?
    requires l !in glob(opts.componentGlob).value && l !in glob(opts.pageGlob).value
    ensures l !in NewRenderer(opts, sprig, glob, load).value.templateMap
  {
  }
}
