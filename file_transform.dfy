/**
 * The per-file stage of a project export: it stamps each file with the
 * project prefix and its public URLs, and runs the file through a fresh
 * pipeline of the transforms that match it, collecting whatever comes out.
 */
module FileTransform {
  import opened Js
  import opened Paths
  import opened Records
  import opened Errors

  /** `\w`: a letter, a digit or `_`. */
  predicate IsWordChar(c: char)
  {
    ('a' <= c <= 'z') || ('A' <= c <= 'Z') || ('0' <= c <= '9') || c == '_'
  }

  /** `/^index\.\w+$/.test(name)` */
  predicate IsIndexName(name: string)
  {
    |name| > 6 && name[..6] == "index." && forall j :: 6 <= j < |name| ==> IsWordChar(name[j])
  }

  /** The path with a leading separator added when it has none. */
  function Rooted(file: string): (f: string)
    ensures |f| > 0 && f[0] == '/'
  {
    if |file| > 0 && file[0] == '/' then file else "/" + file
  }

  /**
   * `makeUrl(file)`: the path made absolute, and an index file replaced by
   * its folder, written with one trailing separator.
   */
  function MakeUrl(file: string): (url: string)
    ensures |url| > 0 && url[0] == '/'
    ensures !IsIndexName(BasenameText(Rooted(file))) ==> url == Rooted(file)
    ensures IsIndexName(BasenameText(Rooted(file))) ==> url[|url| - 1] == '/'
  {
    var f := Rooted(file);
    if IsIndexName(BasenameText(f)) then
      var d := DirnameText(f);
      DirnameRooted(f);
      if d[|d| - 1] == '/' then d else d + "/"
    else f
  }

  lemma DirnameRooted(f: string)
    requires |f| > 0 && f[0] == '/'
    ensures |DirnameText(f)| > 0 && DirnameText(f)[0] == '/'
  {
    var t := StripTrailingSlashes(f);
    if t != "" {
      assert t[0] == f[0] == '/';
    }
  }

  /** The URL of a normalised path: the path itself, or the folder of an index file. */
  function PathUrl(p: Path): string
  {
    if p != [] && IsIndexName(Basename(p)) then
      (if |p| == 1 then "/" else AbsText(Dirname(p)) + "/")
    else AbsText(p)
  }

  /** An absolute path text is its folder's text, a separator, and its last segment. */
  lemma AbsTextSnoc(p: Path)
    requires Clean(p) && p != []
    ensures AbsText(p) == (if |p| == 1 then "" else AbsText(Dirname(p))) + "/" + Basename(p)
  {
    if |p| > 1 {
      TextSnoc(Dirname(p), Basename(p));
      assert Dirname(p) + [Basename(p)] == p;
    }
  }

  /** `makeUrl` of a rooted path text that ends in a segment. */
  lemma MakeUrlOfSegments(u: string, x: string)
    requires IsSegment(x)
    requires u == "" || (|u| >= 2 && u[0] == '/' && u[|u| - 1] != '/')
    ensures MakeUrl(u + "/" + x) == if !IsIndexName(x) then u + "/" + x else if u == "" then "/" else u + "/"
  {
    var f := u + "/" + x;
    assert f[0] == '/' by { if u != "" { assert f[0] == u[0]; } }
    assert Rooted(f) == f;
    BasenameOfLast(u, x);
    if IsIndexName(x) {
      LastSegment(u, x);
      if u == "" {
        assert DirnameText(f) == "/";
      } else {
        assert DirnameText(f) == u;
      }
    }
  }

  /** The folder part of a non-empty normalised path, as `MakeUrlOfSegments` takes it. */
  function FolderText(p: Path): string
    requires p != []
  {
    if |p| == 1 then "" else AbsText(Dirname(p))
  }

  lemma FolderTextShape(p: Path)
    requires Clean(p) && p != []
    ensures AbsText(p) == FolderText(p) + "/" + Basename(p)
    ensures IsSegment(Basename(p))
    ensures FolderText(p) == "" || (|FolderText(p)| >= 2 && FolderText(p)[0] == '/' && FolderText(p)[|FolderText(p)| - 1] != '/')
  {
    AbsTextSnoc(p);
    if |p| > 1 {
      var q := Dirname(p);
      assert Clean(q) by {
        forall i | 0 <= i < |q| ensures IsSegment(q[i]) { assert q[i] == p[i]; }
      }
      TextNonEmpty(q);
      TextLast(q);
      var u := AbsText(q);
      assert u[|u| - 1] == Text(q)[|Text(q)| - 1];
    }
  }

  /** `makeUrl` of a normalised path, given with or without its leading separator, is `PathUrl`. */
  lemma MakeUrlOfPath(p: Path)
    requires Clean(p)
    ensures MakeUrl(AbsText(p)) == PathUrl(p)
    ensures MakeUrl(Text(p)) == PathUrl(p)
  {
    if p == [] {
      assert AbsText(p) == "/";
      assert StripTrailingSlashes("/") == "";
      assert BasenameText("/") == "";
    } else {
      TextHead(p);
      assert Rooted(Text(p)) == AbsText(p);
      FolderTextShape(p);
      MakeUrlOfSegments(FolderText(p), Basename(p));
    }
  }

  /** An index page is served as its folder. */
  lemma IndexUrls()
    ensures PathUrl(["index.html"]) == "/"
    ensures PathUrl(["about", "index.html"]) == "/about/"
  {
    assert IsIndexName("index.html") by { assert "index.html"[..6] == "index."; }
    assert ["about", "index.html"][..1] == ["about"];
  }

  /** A name like an index but with two extensions is no index: its URL is its path. */
  lemma TwoExtensionsUrl()
    ensures PathUrl(["index.min.js"]) == "/index.min.js"
  {
    assert !IsIndexName("index.min.js") by { assert "index.min.js"[9] == '.'; }
  }

  /** A page with another name keeps its path as its URL. */
  lemma PageUrl()
    ensures PathUrl(["about", "page.html"]) == "/about/page.html"
  {
    assert !IsIndexName("page.html") by { assert "page.html"[..6][0] != "index."[0]; }
    assert ["about", "page.html"][..1] == ["about"];
    assert Text(["about", "page.html"]) == "about/page.html";
  }

  /**
   * The metadata `_transform` adds to a file: the project prefix, the URL of
   * the file inside the project's URL space, and its URL without the prefix.
   */
  function Stamp(file: FileRecord, prefix: string): (f: FileRecord)
    ensures f.(prefix := file.prefix, url := file.url, originalUrl := file.originalUrl) == file
    ensures f.prefix == Str(prefix)
  {
    file.(prefix := Str(prefix),
          url := Str(MakeUrl(JoinText(prefix, Text(file.relative)))),
          originalUrl := Str(MakeUrl(Text(file.relative))))
  }

  /** For an absolute normalised prefix, the URL is that of the prefixed path, and the original URL that of the relative path. */
  lemma StampedUrls(file: FileRecord, pp: Path)
    requires Clean(pp) && Clean(file.relative) && file.relative != []
    ensures Stamp(file, AbsText(pp)).url == Str(PathUrl(pp + file.relative))
    ensures Stamp(file, AbsText(pp)).originalUrl == Str(PathUrl(file.relative))
  {
    JoinAbsolute(pp, file.relative);
    assert Clean(pp + file.relative) by {
      var q := pp + file.relative;
      forall i | 0 <= i < |q| ensures IsSegment(q[i]) {
        if i < |pp| { assert q[i] == pp[i]; } else { assert q[i] == file.relative[i - |pp|]; }
      }
    }
    MakeUrlOfPath(pp + file.relative);
    MakeUrlOfPath(file.relative);
  }

  /**
   * For a relative normalised prefix, the form the project locator produces,
   * the URL is likewise that of the prefixed path.
   */
  lemma StampedUrlsRelative(file: FileRecord, pp: Path)
    requires Clean(pp) && pp != [] && Clean(file.relative) && file.relative != []
    ensures Stamp(file, Text(pp)).url == Str(PathUrl(pp + file.relative))
    ensures Stamp(file, Text(pp)).originalUrl == Str(PathUrl(file.relative))
  {
    JoinRelative(pp, file.relative);
    CleanConcat(pp, file.relative);
    MakeUrlOfPath(pp + file.relative);
    MakeUrlOfPath(file.relative);
  }

  /** A transform stage: for one file, the files it emits, or the error it reports. */
  type Stage = FileRecord -> Result<seq<FileRecord>>

  /** What `item.stream()` did for one matched transform item. */
  datatype Made = Made(stage: Stage) | FactoryThrew(error: JsError)

  /** `transforms.map(item => item.stream())`: one stage per item, in order, or the first exception. */
  function MakeStages(items: seq<Made>): (r: Result<seq<Stage>>)
    ensures r.Ok? <==> forall i :: 0 <= i < |items| ==> items[i].Made?
    ensures r.Ok? ==> |r.value| == |items| && forall i :: 0 <= i < |items| ==> r.value[i] == items[i].stage
    ensures r.Err? ==> exists i :: 0 <= i < |items| && items[i].FactoryThrew? && items[i].error == r.error
                        && forall j :: 0 <= j < i ==> items[j].Made?
    decreases |items|
  {
    if items == [] then Ok([])
    else
      var rest := MakeStages(items[1..]);
      assert forall i :: 1 <= i < |items| ==> items[i] == items[1..][i - 1];
      match items[0]
      case FactoryThrew(e) => Err(e)
      case Made(s) => if rest.Err? then rest else Ok([s] + rest.value)
  }

  /** The factories before the `i`th ran; the `i`th threw: that exception is the result. */
  lemma FirstThrow(items: seq<Made>, i: nat)
    requires i < |items| && items[i].FactoryThrew?
    requires forall j :: 0 <= j < i ==> items[j].Made?
    ensures MakeStages(items).Err? && MakeStages(items).error == items[i].error
  {
    var r := MakeStages(items);
    assert !items[i].Made?;
    var k :| 0 <= k < |items| && items[k].FactoryThrew? && items[k].error == r.error
      && forall j :: 0 <= j < k ==> items[j].Made?;
    assert !(k < i) && !(i < k);
  }

  /** Every factory ran: the stages are exactly theirs. */
  lemma AllMade(items: seq<Made>, pipeline: seq<Stage>)
    requires |pipeline| == |items|
    requires forall j :: 0 <= j < |items| ==> items[j].Made? && pipeline[j] == items[j].stage
    ensures MakeStages(items) == Ok(pipeline)
  {
    var r := MakeStages(items);
    assert r.Ok?;
    assert r.value == pipeline;
  }

  /** One file pushed through the stages, depth first, the last one being the collector. */
  function RunFile(stages: seq<Stage>, f: FileRecord): Step
    decreases |stages|, 0
  {
    if stages == [] then Step([f], None)
    else match stages[0](f)
      case Err(e) => Step([], Some(e))
      case Ok(outs) => RunFiles(stages[1..], outs)
  }

  /** Several files pushed through the stages in order; the first error ends the run. */
  function RunFiles(stages: seq<Stage>, fs: seq<FileRecord>): (r: Step)
    ensures stages == [] ==> r == Step(fs, None)
    decreases |stages|, 1, |fs|
  {
    if fs == [] then Step([], None)
    else
      var a := RunFile(stages, fs[0]);
      assert stages == [] ==> a == Step([fs[0]], None) && fs == [fs[0]] + fs[1..];
      if a.err.Some? then a
      else
        var b := RunFiles(stages, fs[1..]);
        Step(a.pushed + b.pushed, b.err)
  }

  /** The reference semantics: one stage applied to every file. */
  function ApplyStage(s: Stage, fs: seq<FileRecord>): Result<seq<FileRecord>>
    decreases |fs|
  {
    if fs == [] then Ok([])
    else match s(fs[0])
      case Err(e) => Err(e)
      case Ok(a) =>
        var r := ApplyStage(s, fs[1..]);
        if r.Err? then r else Ok(a + r.value)
  }

  /** The reference semantics: the stages composed one after the other. */
  function Compose(stages: seq<Stage>, fs: seq<FileRecord>): Result<seq<FileRecord>>
    decreases |stages|
  {
    if stages == [] then Ok(fs)
    else match ApplyStage(stages[0], fs)
      case Err(e) => Err(e)
      case Ok(mid) => Compose(stages[1..], mid)
  }

  lemma {:induction false} ApplyAppend(s: Stage, a: seq<FileRecord>, b: seq<FileRecord>)
    ensures ApplyStage(s, a + b).Ok? <==> ApplyStage(s, a).Ok? && ApplyStage(s, b).Ok?
    ensures ApplyStage(s, a + b).Ok? ==> ApplyStage(s, a + b).value == ApplyStage(s, a).value + ApplyStage(s, b).value
    decreases |a|
  {
    if a == [] {
      assert a + b == b;
    } else {
      assert (a + b)[0] == a[0];
      assert (a + b)[1..] == a[1..] + b;
      ApplyAppend(s, a[1..], b);
    }
  }

  lemma {:induction false} ComposeEmpty(stages: seq<Stage>)
    ensures Compose(stages, []) == Ok([])
    decreases |stages|
  {
    if stages != [] { ComposeEmpty(stages[1..]); }
  }

  lemma {:induction false} ComposeAppend(stages: seq<Stage>, a: seq<FileRecord>, b: seq<FileRecord>)
    ensures Compose(stages, a + b).Ok? <==> Compose(stages, a).Ok? && Compose(stages, b).Ok?
    ensures Compose(stages, a + b).Ok? ==> Compose(stages, a + b).value == Compose(stages, a).value + Compose(stages, b).value
    decreases |stages|
  {
    if stages != [] {
      ApplyAppend(stages[0], a, b);
      var ra, rb := ApplyStage(stages[0], a), ApplyStage(stages[0], b);
      if ra.Ok? && rb.Ok? {
        ComposeAppend(stages[1..], ra.value, rb.value);
      }
    }
  }

  /**
   * The depth-first run ends without error exactly when the stage-by-stage
   * composition succeeds, and then it has pushed exactly the composition's files.
   */
  lemma {:induction false} RunAgreesWithCompose(stages: seq<Stage>, fs: seq<FileRecord>)
    ensures RunFiles(stages, fs).err.None? <==> Compose(stages, fs).Ok?
    ensures RunFiles(stages, fs).err.None? ==> RunFiles(stages, fs).pushed == Compose(stages, fs).value
    decreases |stages|, |fs|
  {
    if fs == [] {
      ComposeEmpty(stages);
    } else if stages == [] {
      RunAgreesWithCompose(stages, fs[1..]);
      assert [fs[0]] + fs[1..] == fs;
    } else {
      var f, rest := fs[0], fs[1..];
      assert fs == [f] + rest;
      RunAgreesWithCompose(stages, rest);
      ApplyAppend(stages[0], [f], rest);
      assert ApplyStage(stages[0], [f]) == (match stages[0](f) case Err(e) => Err(e) case Ok(a) => Ok(a + [])) by {
        assert [f][1..] == [];
      }
      match stages[0](f)
      case Err(e) => {}
      case Ok(outs) => {
        RunAgreesWithCompose(stages[1..], outs);
        assert outs + [] == outs;
        var rr := ApplyStage(stages[0], rest);
        if rr.Ok? {
          ComposeAppend(stages[1..], outs, rr.value);
        }
      }
    }
  }

  /**
   * `_transform(file)`: with no matched transform the stamped file is
   * forwarded; a factory that throws, or an error in the pipeline, is reported
   * as a `FileImportError` for the file; otherwise every file the pipeline
   * emits is pushed.
   */
  function FileStep(prefix: string, file: FileRecord, items: seq<Made>): (s: Step)
    ensures items == [] ==> s == Forward(Stamp(file, prefix))
    ensures items != [] && MakeStages(items).Err? ==>
      s == Fail(FileImportError(Stamp(file, prefix), MakeStages(items).error))
    ensures items != [] && MakeStages(items).Ok? ==>
      (s.err.None? <==> Compose(MakeStages(items).value, [Stamp(file, prefix)]).Ok?)
      && (s.err.None? ==> s.pushed == Compose(MakeStages(items).value, [Stamp(file, prefix)]).value)
    ensures s.err.Some? ==> exists e :: s.err.value == FileImportError(Stamp(file, prefix), e)
  {
    var f := Stamp(file, prefix);
    if items == [] then Forward(f)
    else match MakeStages(items)
      case Err(e) => Fail(FileImportError(f, e))
      case Ok(stages) =>
        var r := RunFiles(stages, [f]);
        RunAgreesWithCompose(stages, [f]);
        Step(r.pushed, if r.err.Some? then Some(FileImportError(f, r.err.value)) else None)
  }

  /** One more stage made: the pipeline still holds the stages of the items so far. */
  lemma PipelineSnoc(items: seq<Made>, pipeline: seq<Stage>, i: nat)
    requires i < |items| && items[i].Made? && |pipeline| == i
    requires forall j :: 0 <= j < i ==> items[j].Made? && pipeline[j] == items[j].stage
    ensures forall j :: 0 <= j < i + 1 ==> items[j].Made? && (pipeline + [items[i].stage])[j] == items[j].stage
  {
    var q := pipeline + [items[i].stage];
    forall j | 0 <= j < i + 1 ensures items[j].Made? && q[j] == items[j].stage {
      if j < i { assert q[j] == pipeline[j]; }
    }
  }

  /** The step of a file with at least one matched transform, in terms of the pipeline built for it. */
  lemma FileStepOfPipeline(prefix: string, file: FileRecord, items: seq<Made>)
    requires items != []
    ensures MakeStages(items).Err? ==>
      FileStep(prefix, file, items) == Fail(FileImportError(Stamp(file, prefix), MakeStages(items).error))
    ensures MakeStages(items).Ok? ==>
      var r := RunFiles(MakeStages(items).value, [Stamp(file, prefix)]);
      FileStep(prefix, file, items) ==
        Step(r.pushed, if r.err.Some? then Some(FileImportError(Stamp(file, prefix), r.err.value)) else None)
  {
  }

  /** The loop behind `transforms.map(item => item.stream())`: it stops at the first factory that throws. */
  method BuildPipeline(items: seq<Made>) returns (r: Result<seq<Stage>>)
    ensures r == MakeStages(items)
  {
    var pipeline: seq<Stage> := [];
    var i := 0;
    while i < |items|
      invariant 0 <= i <= |items|
      invariant |pipeline| == i
      invariant forall j :: 0 <= j < i ==> items[j].Made? && pipeline[j] == items[j].stage
    {
      if items[i].FactoryThrew? {
        FirstThrow(items, i);
        return Err(items[i].error);
      }
      PipelineSnoc(items, pipeline, i);
      pipeline := pipeline + [items[i].stage];
      i := i + 1;
    }
    AllMade(items, pipeline);
    return Ok(pipeline);
  }

  /** What `_transform` does for one file, computed the way the stream does it: build the pipeline, then run the file through it. */
  method RunFileStep(prefix: string, file: FileRecord, items: seq<Made>) returns (s: Step)
    ensures s == FileStep(prefix, file, items)
  {
    var f := Stamp(file, prefix);
    if |items| == 0 {
      return Forward(f);
    }
    var made := BuildPipeline(items);
    FileStepOfPipeline(prefix, file, items);
    if made.Err? {
      return Fail(FileImportError(f, made.error));
    }
    var r := RunFiles(made.value, [f]);
    return Step(r.pushed, if r.err.Some? then Some(FileImportError(f, r.err.value)) else None);
  }

  /** The transform stream of one project; `output` is what it has pushed so far. */
  class FileTransformStream {
    const prefix: string
    var output: seq<FileRecord>

    constructor (prefix: string)
      ensures this.prefix == prefix && output == []
    {
      this.prefix := prefix;
      output := [];
    }

    /** `_transform(file, enc, next)`; the result is the error given to `next`. */
    method Transform(file: FileRecord, items: seq<Made>) returns (err: Option<JsError>)
      modifies this
      ensures output == old(output) + FileStep(prefix, file, items).pushed
      ensures err == FileStep(prefix, file, items).err
    {
      var s := RunFileStep(prefix, file, items);
      output := output + s.pushed;
      err := s.err;
    }
  }
}
