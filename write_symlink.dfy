/**
 * The symlink writer: a grep stream whose callback, for every selected
 * file, works out where the file would be written, makes sure the folder
 * exists (once per folder and stream), and creates there a relative
 * symbolic link back to the file's original location. Selected files are
 * never passed on, so a later `dest()` does not write them again.
 */
module WriteSymlink {
  import opened Js
  import opened Paths
  import opened Records
  import opened Grep

  /** Calling a function-valued option with the file: what it returns, or what it throws. */
  type Call = (nat, FileRecord) -> Completion

  /** `stringOrFunc(v, file)` */
  function StringOrFunc(v: Value, file: FileRecord, call: Call): (r: Completion)
    ensures v.Str? ==> r == Normal(v)
    ensures v.Fn? ==> r == call(v.id, file)
    ensures !v.Str? && !v.Fn? ==> r == Normal(Null)
  {
    if v.Str? then Normal(v)
    else if v.Fn? then call(v.id, file)
    else Normal(Null)
  }

  /** The three defaults. */
  const DefaultKeys: set<string> := {"cwd", "dest", "dirMode"}

  /** `Object.assign({cwd: process.cwd(), dest: '', dirMode: null}, options)` */
  function Settings(options: Value, processCwd: Path): (s: map<string, Value>)
    ensures s.Keys == DefaultKeys + OwnEnumerable(options).Keys
    ensures forall k :: k in OwnEnumerable(options) ==> s[k] == OwnEnumerable(options)[k]
    ensures "cwd" !in OwnEnumerable(options) ==> s["cwd"] == Str(AbsText(processCwd))
    ensures "dest" !in OwnEnumerable(options) ==> s["dest"] == Str("")
    ensures "dirMode" !in OwnEnumerable(options) ==> s["dirMode"] == Null
  {
    map["cwd" := Str(AbsText(processCwd)), "dest" := Str(""), "dirMode" := Null] + OwnEnumerable(options)
  }

  /**
   * The folder the file is written below: the `base` option when it is
   * truthy (a relative one is taken from the process's working directory),
   * else the output folder taken from `cwd`. `path.resolve` throws a
   * TypeError for anything but a string.
   */
  function BasePath(base: Value, out: Value, cwd: Path, processCwd: Path, file: FileRecord, call: Call): (r: Result<Path>)
    ensures !Truthy(base) && out.Str? ==> r == Ok(ResolveText(cwd, out.s))
    ensures !Truthy(base) && !out.Str? ==> r == Err(TypeErr)
    ensures Truthy(base) && !base.Str? && !base.Fn? ==> r == Err(NewError("Invalid base option"))
    ensures base.Str? && base.s != "" ==> r == Ok(ResolveText(processCwd, base.s))
    ensures var b := StringOrFunc(base, file, call);
      Truthy(base) && b.Throw? ==> r == Err(b.error)
    ensures var b := StringOrFunc(base, file, call);
      Truthy(base) && b.Normal? && !Truthy(b.value) ==> r == Err(NewError("Invalid base option"))
    ensures var b := StringOrFunc(base, file, call);
      Truthy(base) && b.Normal? && b.value.Str? && b.value.s != "" ==> r == Ok(ResolveText(processCwd, b.value.s))
  {
    if Truthy(base) then
      match StringOrFunc(base, file, call)
      case Throw(e) => Err(e)
      case Normal(b) =>
        if !Truthy(b) then Err(NewError("Invalid base option"))
        else if !b.Str? then Err(TypeErr)
        else Ok(ResolveText(processCwd, b.s))
    else if !out.Str? then Err(TypeErr)
    else Ok(ResolveText(cwd, out.s))
  }

  /** The options check and the write path of `prepareWrite`, before any folder is made. */
  function WritePath(file: FileRecord, options: Value, processCwd: Path, call: Call): (r: Result<Path>)
    ensures !Settings(options, processCwd)["cwd"].Str? ==> r == Err(TypeErr)
    ensures var s := Settings(options, processCwd);
      s["cwd"].Str? && !s["dest"].Fn? && !Truthy(s["dest"]) ==> r == Err(NewError("Invalid output folder"))
    ensures var s := Settings(options, processCwd); var out := StringOrFunc(s["dest"], file, call);
      s["cwd"].Str? && out.Normal? && !Truthy(out.value) ==> r == Err(NewError("Invalid output folder"))
    ensures var s := Settings(options, processCwd); var out := StringOrFunc(s["dest"], file, call);
      s["cwd"].Str? && out.Throw? ==> r == Err(out.error)
  {
    var s := Settings(options, processCwd);
    if !s["cwd"].Str? then Err(TypeErr)
    else
      var cwd := ResolveText(processCwd, s["cwd"].s);
      match StringOrFunc(s["dest"], file, call)
      case Throw(e) => Err(e)
      case Normal(out) =>
        if !Truthy(out) then Err(NewError("Invalid output folder"))
        else
          match BasePath(Get(s, "base"), out, cwd, processCwd, file, call)
          case Err(e) => Err(e)
          case Ok(b) => Ok(ResolveText(b, Text(file.relative)))
  }

  /** Without a `dest` option the default empty one is always refused. */
  lemma DefaultDestRejects(file: FileRecord, options: Value, processCwd: Path, call: Call)
    requires "dest" !in OwnEnumerable(options)
    requires "cwd" in OwnEnumerable(options) ==> OwnEnumerable(options)["cwd"].Str?
    ensures WritePath(file, options, processCwd, call) == Err(NewError("Invalid output folder"))
  {
  }

  /**
   * With a string `dest` and no `base`, a file lands at its relative path
   * below the output folder, which is itself below `cwd`.
   */
  lemma WritePathUnderDest(file: FileRecord, options: Value, processCwd: Path, call: Call, cp: Path, dp: Path)
    requires Clean(cp) && Clean(dp) && dp != [] && Clean(file.relative) && file.relative != []
    requires Settings(options, processCwd)["cwd"] == Str(AbsText(cp))
    requires Settings(options, processCwd)["dest"] == Str(Text(dp))
    requires !Truthy(Get(Settings(options, processCwd), "base"))
    ensures WritePath(file, options, processCwd, call) == Ok(cp + dp + file.relative)
  {
    ResolveTextAbsolute(processCwd, cp);
    TextNonEmpty(dp);
    ResolveTextRelative(cp, dp);
    ResolveTextRelative(cp + dp, file.relative);
  }

  /** With an absolute string `base`, a file lands at its relative path below it, whatever `cwd` says. */
  lemma WritePathUnderBase(file: FileRecord, options: Value, processCwd: Path, call: Call, bp: Path)
    requires Clean(bp) && Clean(file.relative) && file.relative != []
    requires Settings(options, processCwd)["cwd"].Str?
    requires Settings(options, processCwd)["dest"].Str? && Settings(options, processCwd)["dest"].s != ""
    requires Get(Settings(options, processCwd), "base") == Str(AbsText(bp))
    ensures WritePath(file, options, processCwd, call) == Ok(bp + file.relative)
  {
    ResolveTextAbsolute(processCwd, bp);
    ResolveTextRelative(bp, file.relative);
  }

  /** Two files in the same relative folder are written to the same folder: the second needs no new one. */
  lemma SiblingsShareFolder(f1: FileRecord, f2: FileRecord, options: Value, processCwd: Path, call: Call, cp: Path, dp: Path)
    requires Clean(cp) && Clean(dp) && dp != []
    requires Clean(f1.relative) && f1.relative != [] && Clean(f2.relative) && f2.relative != []
    requires Dirname(f1.relative) == Dirname(f2.relative)
    requires Settings(options, processCwd)["cwd"] == Str(AbsText(cp))
    requires Settings(options, processCwd)["dest"] == Str(Text(dp))
    requires !Truthy(Get(Settings(options, processCwd), "base"))
    ensures WritePath(f1, options, processCwd, call).Ok? && WritePath(f2, options, processCwd, call).Ok?
    ensures Dirname(WritePath(f1, options, processCwd, call).value) == Dirname(WritePath(f2, options, processCwd, call).value)
  {
    WritePathUnderDest(f1, options, processCwd, call, cp, dp);
    WritePathUnderDest(f2, options, processCwd, call, cp, dp);
    DirnameUnder(cp + dp, f1.relative);
    DirnameUnder(cp + dp, f2.relative);
  }

  lemma DirnameUnder(base: Path, rel: Path)
    requires rel != []
    ensures Dirname(base + rel) == base + Dirname(rel)
  {
    assert (base + rel)[..|base + rel| - 1] == base + rel[..|rel| - 1];
  }

  /** `path.relative(path.dirname(writePath), file.history[0])`; reading past an empty history throws a TypeError. */
  function SymlinkTarget(writePath: Path, file: FileRecord): (r: Result<seq<string>>)
    ensures file.history == [] <==> r == Err(TypeErr)
    ensures file.history != [] ==> r.Ok?
  {
    if file.history == [] then Err(TypeErr)
    else Ok(Relative(Dirname(writePath), file.history[0]))
  }

  /** The link, followed from the folder it is created in, leads back to the file's original path. */
  lemma TargetRoundTrip(writePath: Path, file: FileRecord)
    requires file.history != [] && Clean(file.history[0])
    ensures Resolve(Dirname(writePath), SymlinkTarget(writePath, file).value) == file.history[0]
  {
    RelativeRoundTrip(Dirname(writePath), file.history[0]);
  }

  /** `err && err.code !== 'EEXIST' ? err : null`: an existing link counts as written. */
  function LinkError(e: Option<JsError>): (r: Option<JsError>)
    ensures r.None? <==> e.None? || Code(e.value) == Str("EEXIST")
    ensures r.Some? ==> r == e
  {
    if e.Some? && Code(e.value) != Str("EEXIST") then e else None
  }

  /** One `fs.symlink(target, path)` call. */
  datatype Link = Link(target: seq<string>, at: Path)

  /**
   * The stream `writeSymlink(pattern, options)` returns. `cache` is the set
   * of folders already made; `mkdirs` the folders it asked to make, `links`
   * the links it asked to create, and `output` the files it passed on.
   */
  class SymlinkWriter {
    const positive: seq<string>
    const negative: seq<string>
    const options: Value
    var cache: set<Path>
    var mkdirs: seq<Path>
    var links: seq<Link>
    var output: seq<FileRecord>

    /** Only folders whose creation was asked for and succeeded are cached. */
    ghost predicate Valid()
      reads this
    {
      forall d :: d in cache ==> d in mkdirs
    }

    constructor (pattern: PatternArg, options: Value)
      ensures positive == Positive(PatternList(pattern)) && negative == Negative(PatternList(pattern))
      ensures this.options == options
      ensures cache == {} && mkdirs == [] && links == [] && output == []
      ensures Valid()
    {
      var pos, neg := Partition(PatternList(pattern));
      positive, negative := pos, neg;
      this.options := options;
      cache, mkdirs, links, output := {}, [], [], [];
    }

    /** `prepareWrite(file, options, cache)`; `mkdir` is what `mkdirp` reports, should it be called. */
    method PrepareWrite(file: FileRecord, processCwd: Path, call: Call, mkdir: Option<JsError>) returns (r: Result<Path>)
      requires Valid()
      modifies this`cache, this`mkdirs
      ensures Valid()
      ensures WritePath(file, options, processCwd, call).Err? ==>
        r == WritePath(file, options, processCwd, call) && cache == old(cache) && mkdirs == old(mkdirs)
      ensures WritePath(file, options, processCwd, call).Ok? ==>
        var wp := WritePath(file, options, processCwd, call).value;
        (Dirname(wp) in old(cache) ==> r == Ok(wp) && cache == old(cache) && mkdirs == old(mkdirs))
        && (Dirname(wp) !in old(cache) ==> mkdirs == old(mkdirs) + [Dirname(wp)])
        && (Dirname(wp) !in old(cache) && mkdir.Some? ==> r == Err(mkdir.value) && cache == old(cache))
        && (Dirname(wp) !in old(cache) && mkdir.None? ==> r == Ok(wp) && cache == old(cache) + {Dirname(wp)})
    {
      var w := WritePath(file, options, processCwd, call);
      if w.Err? {
        return w;
      }
      var folder := Dirname(w.value);
      if folder in cache {
        return Ok(w.value);
      }
      mkdirs := mkdirs + [folder];
      if mkdir.Some? {
        return Err(mkdir.value);
      }
      cache := cache + {folder};
      r := Ok(w.value);
    }

    /**
     * The grep stream's handling of one file: a file the patterns do not
     * select is passed on; a selected one is linked and never passed on.
     * `symlink` is what `fs.symlink` reports.
     */
    method Write(file: FileRecord, glob: Matcher, processCwd: Path, call: Call, mkdir: Option<JsError>, symlink: Option<JsError>)
      returns (err: Option<JsError>)
      requires Valid()
      modifies this`cache, this`mkdirs, this`links, this`output
      ensures Valid()
      ensures !Selected(positive, negative, Text(file.relative), glob) ==>
        output == old(output) + [file] && err.None?
        && cache == old(cache) && mkdirs == old(mkdirs) && links == old(links)
      ensures Selected(positive, negative, Text(file.relative), glob) ==> output == old(output)
      ensures Selected(positive, negative, Text(file.relative), glob) && WritePath(file, options, processCwd, call).Err? ==>
        err == Some(WritePath(file, options, processCwd, call).error)
        && cache == old(cache) && mkdirs == old(mkdirs) && links == old(links)
      ensures Selected(positive, negative, Text(file.relative), glob) && WritePath(file, options, processCwd, call).Ok? ==>
        var wp := WritePath(file, options, processCwd, call).value;
        var made := Dirname(wp) in old(cache) || mkdir.None?;
        (mkdirs == if Dirname(wp) in old(cache) then old(mkdirs) else old(mkdirs) + [Dirname(wp)])
        && (cache == if made then old(cache) + {Dirname(wp)} else old(cache))
        && (!made ==> err == mkdir && links == old(links))
        && (made && file.history == [] ==> err == Some(TypeErr) && links == old(links))
        && (made && file.history != [] ==>
              links == old(links) + [Link(SymlinkTarget(wp, file).value, wp)] && err == LinkError(symlink))
    {
      if !Selected(positive, negative, Text(file.relative), glob) {
        output := output + [file];
        return None;
      }
      var r := PrepareWrite(file, processCwd, call, mkdir);
      if r.Err? {
        return Some(r.error);
      }
      var target := SymlinkTarget(r.value, file);
      if target.Err? {
        return Some(target.error);
      }
      links := links + [Link(target.value, r.value)];
      err := LinkError(symlink);
    }
  }
}
