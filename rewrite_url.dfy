/**
 * The URL-rewriting file stage: a file whose extension names a stylesheet
 * or a page is handed to the matching rewriter together with a
 * configuration built from its project; any other file passes unchanged.
 */
module RewriteUrl {
  import opened Js
  import opened Paths
  import opened Records
  import opened FileTransform

  datatype Rewriter = CssRewrite | HtmlRewrite

  /** `path.extname(file.path)`, compared exactly: `.css`, or `.html` and `.htm`. */
  function RewriterFor(path: Path): (r: Option<Rewriter>)
    ensures r == Some(CssRewrite) <==> Extname(Basename(path)) == ".css"
    ensures r == Some(HtmlRewrite) <==> Extname(Basename(path)) in {".html", ".htm"}
    ensures r.None? <==> Extname(Basename(path)) !in {".css", ".html", ".htm"}
  {
    var ext := Extname(Basename(path));
    if ext == ".css" then Some(CssRewrite)
    else if ext == ".html" || ext == ".htm" then Some(HtmlRewrite)
    else None
  }

  /**
   * The options as `createConfig` sees them: a function becomes an object
   * carrying it as `transformUrl` (the function's own properties, which
   * `Object.assign` would copy too, are not tracked).
   */
  function OptionsObject(options: Value): (r: Value)
    ensures options.Fn? ==> OwnEnumerable(r) == map["transformUrl" := options]
    ensures !options.Fn? ==> OwnEnumerable(r) == OwnEnumerable(options)
  {
    if options.Fn? then Obj(map["transformUrl" := options]) else options
  }

  /** `createConfig(file, options)`: the project's prefix and base folder, overlaid by the options' own keys. */
  function CreateConfig(project: map<string, Value>, options: Value): (r: map<string, Value>)
    ensures r.Keys == {"prefix", "baseDir"} + OwnEnumerable(OptionsObject(options)).Keys
    ensures forall k :: k in OwnEnumerable(OptionsObject(options)) ==> r[k] == OwnEnumerable(OptionsObject(options))[k]
    ensures "prefix" !in OwnEnumerable(OptionsObject(options)) ==> r["prefix"] == Get(project, "prefix")
    ensures "baseDir" !in OwnEnumerable(OptionsObject(options)) ==> r["baseDir"] == Get(project, "baseDir")
  {
    map["prefix" := Get(project, "prefix"), "baseDir" := Get(project, "baseDir")] + OwnEnumerable(OptionsObject(options))
  }

  /** `htmlTransform(file, config)` and `cssTransform(file, config)`: the rewritten file, or the rejection. */
  type Rewrite = (Rewriter, FileRecord, map<string, Value>) -> Result<FileRecord>

  /** `transform(file)`: rewrite a stylesheet or a page, forward anything else. */
  function RewriteFile(file: FileRecord, options: Value, rewrite: Rewrite): (r: Result<seq<FileRecord>>)
    ensures r.Ok? ==> |r.value| == 1
    ensures RewriterFor(file.path).None? ==> r == Ok([file])
    ensures RewriterFor(file.path).Some? ==>
      var out := rewrite(RewriterFor(file.path).value, file, CreateConfig(file.project, options));
      (r.Ok? <==> out.Ok?) && (r.Ok? ==> r.value[0] == out.value) && (r.Err? ==> r.error == out.error)
  {
    match RewriterFor(file.path)
    case None => Ok([file])
    case Some(t) =>
      match rewrite(t, file, CreateConfig(file.project, options))
      case Ok(f) => Ok([f])
      case Err(e) => Err(e)
  }

  /** The stage the rewriter adds to a file pipeline. */
  function RewriteStage(options: Value, rewrite: Rewrite): Stage
  {
    file => RewriteFile(file, options, rewrite)
  }

  // ---------------------------------------------------------------------
  // Choosing the rewriter.

  /** A name ending in `.css` after a non-empty stem is a stylesheet, wherever it lives. */
  lemma CssByExtension(dir: Path, stem: string)
    requires stem != ""
    ensures RewriterFor(dir + [stem + ".css"]) == Some(CssRewrite)
  {
    ExtnameOfSuffix(stem, ".css");
  }

  /** Names ending in `.html` or `.htm` after a non-empty stem are pages. */
  lemma HtmlByExtension(dir: Path, stem: string)
    requires stem != ""
    ensures RewriterFor(dir + [stem + ".html"]) == Some(HtmlRewrite)
    ensures RewriterFor(dir + [stem + ".htm"]) == Some(HtmlRewrite)
  {
    ExtnameOfSuffix(stem, ".html");
    ExtnameOfSuffix(stem, ".htm");
  }

  /** The rewriter is chosen by the extension alone: the same name in any folder gets the same one. */
  lemma ChoiceIgnoresFolder(a: Path, b: Path, name: string)
    ensures RewriterFor(a + [name]) == RewriterFor(b + [name])
  {
  }

  /** The comparison is exact: upper-case extensions are left alone. */
  lemma UpperCaseIgnored()
    ensures RewriterFor(["style.CSS"]) == None
    ensures RewriterFor(["index.HTML"]) == None
  {
    ExtnameOfSuffix("style", ".CSS");
    assert "style" + ".CSS" == "style.CSS";
    ExtnameOfSuffix("index", ".HTML");
    assert "index" + ".HTML" == "index.HTML";
  }

  /** A later extension decides: a backup of a page is not a page. */
  lemma LastExtensionDecides()
    ensures RewriterFor(["page.html.bak"]) == None
  {
    ExtnameOfSuffix("page.html", ".bak");
    assert "page.html" + ".bak" == "page.html.bak";
  }

  /** A hidden file named like an extension has none, and a folder named `css` does not count. */
  lemma HiddenAndBareNamesIgnored()
    ensures RewriterFor([".css"]) == None
    ensures RewriterFor(["styles", "css"]) == None
  {
    assert LastIndex(".css", '.') == 0 by {
      assert ".css"[0] == '.';
    }
    assert LastIndex("css", '.') == -1;
  }

  // ---------------------------------------------------------------------
  // The stage.

  /** A file the rewriters do not handle is forwarded as it is. */
  lemma OthersForwarded(file: FileRecord, options: Value, rewrite: Rewrite)
    requires RewriterFor(file.path).None?
    ensures RewriteFile(file, options, rewrite) == Ok([file])
  {
  }

  /** A handled file is replaced by what its rewriter resolves to; a rejection becomes the stage's error. */
  lemma RewrittenForwarded(file: FileRecord, options: Value, rewrite: Rewrite)
    requires RewriterFor(file.path).Some?
    ensures rewrite(RewriterFor(file.path).value, file, CreateConfig(file.project, options)).Ok? ==>
      RewriteFile(file, options, rewrite) == Ok([rewrite(RewriterFor(file.path).value, file, CreateConfig(file.project, options)).value])
    ensures rewrite(RewriterFor(file.path).value, file, CreateConfig(file.project, options)).Err? ==>
      RewriteFile(file, options, rewrite) == Err(rewrite(RewriterFor(file.path).value, file, CreateConfig(file.project, options)).error)
  {
  }

  /** A batch holding neither stylesheets nor pages passes through the stage unchanged and in order. */
  lemma {:induction false} BatchWithoutPagesUnchanged(fs: seq<FileRecord>, options: Value, rewrite: Rewrite)
    requires forall i :: 0 <= i < |fs| ==> RewriterFor(fs[i].path).None?
    ensures ApplyStage(RewriteStage(options, rewrite), fs) == Ok(fs)
    decreases |fs|
  {
    if fs != [] {
      assert forall i :: 1 <= i < |fs| ==> fs[1..][i - 1] == fs[i];
      BatchWithoutPagesUnchanged(fs[1..], options, rewrite);
      assert [fs[0]] + fs[1..] == fs;
    }
  }

  /** The stage never drops or duplicates a file: each one it accepts yields exactly one file. */
  lemma {:induction false} OneForOne(fs: seq<FileRecord>, options: Value, rewrite: Rewrite)
    ensures ApplyStage(RewriteStage(options, rewrite), fs).Ok? ==> |ApplyStage(RewriteStage(options, rewrite), fs).value| == |fs|
    decreases |fs|
  {
    if fs != [] {
      OneForOne(fs[1..], options, rewrite);
    }
  }

  // ---------------------------------------------------------------------
  // The configuration.

  /** A function as the options reaches the rewriter as `transformUrl`, beside the project's prefix and base folder. */
  lemma FunctionOptions(project: map<string, Value>, fn: nat)
    ensures CreateConfig(project, Fn(fn)) ==
      map["prefix" := Get(project, "prefix"), "baseDir" := Get(project, "baseDir"), "transformUrl" := Fn(fn)]
  {
  }

  /** Without options the rewriter sees just the project's prefix and base folder. */
  lemma NoOptions(project: map<string, Value>, options: Value)
    requires options.Undefined? || options.Null?
    ensures CreateConfig(project, options) == map["prefix" := Get(project, "prefix"), "baseDir" := Get(project, "baseDir")]
  {
  }

  /** Options given as an object override the project's values key by key and add their own. */
  lemma ObjectOptionsOverride(project: map<string, Value>, fields: map<string, Value>)
    ensures forall k :: k in fields ==> CreateConfig(project, Obj(fields))[k] == fields[k]
    ensures "prefix" in fields || CreateConfig(project, Obj(fields))["prefix"] == Get(project, "prefix")
    ensures CreateConfig(project, Obj(fields)).Keys == fields.Keys + {"prefix", "baseDir"}
  {
  }
}
