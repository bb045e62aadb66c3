/**
 * The export stream: for each project it reads the project's files, routes
 * every file to the registered transform that matches it (or past them),
 * and splits the result into the files to copy and the files to link,
 * reporting the project done once both branches have ended.
 */
module ExportProject {
  import opened Js
  import opened Paths
  import opened Records
  import opened Project

  /** `keepSymlinks === !!file.symlink`: an absent flag counts as false. */
  predicate Keep(keepSymlinks: bool, f: FileRecord)
    ensures f.symlink.Undefined? || f.symlink.Null? || f.symlink == Bool(false) ==> (Keep(keepSymlinks, f) <==> !keepSymlinks)
    ensures f.symlink == Bool(true) ==> (Keep(keepSymlinks, f) <==> keepSymlinks)
  {
    keepSymlinks == Truthy(f.symlink)
  }

  /** What a filter with the given flag passes on from `fs`, in order. */
  function Kept(keepSymlinks: bool, fs: seq<FileRecord>): (r: seq<FileRecord>)
    ensures |r| <= |fs|
    ensures forall i :: 0 <= i < |r| ==> Keep(keepSymlinks, r[i])
    decreases |fs|
  {
    if fs == [] then []
    else Kept(keepSymlinks, fs[..|fs| - 1]) + (if Keep(keepSymlinks, fs[|fs| - 1]) then [fs[|fs| - 1]] else [])
  }

  /** A filter keeps exactly the files whose flag agrees with it. */
  lemma {:induction false} KeptMembers(keepSymlinks: bool, fs: seq<FileRecord>, f: FileRecord)
    ensures f in Kept(keepSymlinks, fs) <==> f in fs && Keep(keepSymlinks, f)
    decreases |fs|
  {
    if fs != [] {
      var q := fs[..|fs| - 1];
      KeptMembers(keepSymlinks, q, f);
      assert fs == q + [fs[|fs| - 1]];
    }
  }

  /**
   * The copy branch and the symlink branch together receive every file
   * exactly as often as it was read: nothing is lost and nothing doubled.
   */
  lemma {:induction false} BranchesPartition(fs: seq<FileRecord>)
    ensures multiset(Kept(false, fs)) + multiset(Kept(true, fs)) == multiset(fs)
    decreases |fs|
  {
    if fs != [] {
      var q, x := fs[..|fs| - 1], fs[|fs| - 1];
      BranchesPartition(q);
      assert fs == q + [x];
      assert multiset(fs) == multiset(q) + multiset{x};
      if Truthy(x.symlink) {
        assert Kept(false, fs) == Kept(false, q);
        assert Kept(true, fs) == Kept(true, q) + [x];
      } else {
        assert Kept(false, fs) == Kept(false, q) + [x];
        assert Kept(true, fs) == Kept(true, q);
      }
    }
  }

  /** A file without a `symlink` flag is copied, not linked. */
  lemma UnflaggedIsCopied(f: FileRecord, fs: seq<FileRecord>)
    requires f in fs && (f.symlink.Undefined? || f.symlink.Null? || f.symlink == Bool(false))
    ensures f in Kept(false, fs) && f !in Kept(true, fs)
  {
    KeptMembers(false, fs, f);
    KeptMembers(true, fs, f);
  }

  /** `new SymlinkFilterFiles(keepSymlinks)`; `input` is every file it was given. */
  class SymlinkFilter {
    const keepSymlinks: bool
    ghost var input: seq<FileRecord>
    var output: seq<FileRecord>

    ghost predicate Valid()
      reads this
    {
      output == Kept(keepSymlinks, input)
    }

    constructor (keepSymlinks: Value)
      ensures this.keepSymlinks == Truthy(keepSymlinks)
      ensures input == [] && output == [] && Valid()
    {
      this.keepSymlinks := Truthy(keepSymlinks);
      input, output := [], [];
    }

    /** `_transform(file)`: the file is pushed when its flag agrees with the filter's. */
    method Transform(file: FileRecord)
      requires Valid()
      modifies this
      ensures input == old(input) + [file]
      ensures output == old(output) + (if Keep(keepSymlinks, file) then [file] else [])
      ensures Valid()
    {
      input := input + [file];
      assert input[..|input| - 1] == old(input);
      if keepSymlinks == Truthy(file.symlink) {
        output := output + [file];
      }
    }
  }

  /** What the in-file transform does with one file. */
  datatype Route = Redirect(target: Value) | PassOn | Failed(error: JsError)

  /**
   * The router between the project's files and its transforms: a file is
   * written into the transform `match(file.path)` picks, or pushed past
   * them when there is none.
   */
  class FileRouter {
    const project: ProjectConfig
    var passed: seq<FileRecord>
    var redirected: seq<(Value, FileRecord)>

    constructor (project: ProjectConfig)
      ensures this.project == project && passed == [] && redirected == []
    {
      this.project := project;
      passed, redirected := [], [];
    }

    /**
     * `_transform(file)`: the error is the one `match` threw, or the
     * TypeError of calling `write` on a match that has no such method.
     */
    method Transform(file: FileRecord, glob: Matcher) returns (r: Route)
      modifies this`passed, this`redirected
      ensures Registry(project.props).Err? ==> r == Failed(TypeErr)
      ensures Registry(project.props).Ok?
        && (forall k :: k in Registry(project.props).value ==> !glob(k, AbsText(file.path)))
        ==> r == PassOn
      ensures r.Redirect? ==>
        exists m :: IsLongestMatch(Registry(project.props).value, AbsText(file.path), glob, m)
          && r.target == Picked(Registry(project.props).value, m)
          && Truthy(r.target) && HasMethod(r.target, "write")
      ensures r.Failed? && Registry(project.props).Ok? ==>
        r == Failed(TypeErr)
        && exists m :: IsLongestMatch(Registry(project.props).value, AbsText(file.path), glob, m)
             && Truthy(Picked(Registry(project.props).value, m))
             && !HasMethod(Picked(Registry(project.props).value, m), "write")
      ensures r.PassOn? && (exists k :: k in Registry(project.props).value && glob(k, AbsText(file.path))) ==>
        exists m :: IsLongestMatch(Registry(project.props).value, AbsText(file.path), glob, m)
          && !Truthy(Picked(Registry(project.props).value, m))
      ensures r.PassOn? ==> Registry(project.props).Ok?
      ensures r.Redirect? ==> redirected == old(redirected) + [(r.target, file)] && passed == old(passed)
      ensures r.PassOn? ==> passed == old(passed) + [file] && redirected == old(redirected)
      ensures r.Failed? ==> passed == old(passed) && redirected == old(redirected)
    {
      var c := project.Match(AbsText(file.path), glob);
      if c.Throw? {
        return Failed(c.error);
      }
      if Truthy(c.value) {
        if !HasMethod(c.value, "write") {
          return Failed(TypeErr);
        }
        redirected := redirected + [(c.value, file)];
        return Redirect(c.value);
      }
      passed := passed + [file];
      return PassOn;
    }
  }

  /** The values of the registry's keys: the streams piped into the fitting. */
  function Streams(props: map<string, Value>): (s: set<Value>)
    ensures Registry(props).Ok? ==>
      forall k :: k in Registry(props).value ==> Registry(props).value[k] in s
    ensures Registry(props).Ok? ==>
      forall v :: v in s ==> exists k :: k in Registry(props).value && Registry(props).value[k] == v
    ensures Registry(props).Err? ==> s == {}
  {
    var t := Registry(props);
    if t.Ok? then set k | k in t.value :: t.value[k] else {}
  }

  /** Every registered value has the method `name`, so calling it on each one throws nothing. */
  predicate AllHave(props: map<string, Value>, name: string)
  {
    Registry(props).Ok? && forall k :: k in Registry(props).value ==> HasMethod(Registry(props).value[k], name)
  }

  /** The values of `t` under the keys outside `keys`: those the `forEach` has reached. */
  function Visited(t: map<string, Value>, keys: set<string>): set<Value>
  {
    set k | k in t && k !in keys :: t[k]
  }

  /** The options of `vfs.src('**', …)`: `buffer` only when the project sets it to a boolean. */
  function SourceOptions(props: map<string, Value>): (o: map<string, Value>)
    ensures "cwd" in o && "ignore" in o && "nodir" in o
    ensures o["cwd"] == Get(props, "src") && o["ignore"] == Get(props, "ignore") && o["nodir"] == Bool(true)
    ensures "buffer" in o <==> Get(props, "buffer").Bool?
    ensures "buffer" in o ==> o["buffer"] == Get(props, "buffer")
    ensures o.Keys <= {"cwd", "ignore", "nodir", "buffer"}
  {
    var o := map["cwd" := Get(props, "src"), "ignore" := Get(props, "ignore"), "nodir" := Bool(true)];
    if Get(props, "buffer").Bool? then o["buffer" := Get(props, "buffer")] else o
  }

  /** How many times `next(null, project)` is called after `ends` branch ends, the counter starting at `pending`. */
  function Completions(pending: int, ends: nat): nat
    decreases ends
  {
    if ends == 0 then 0
    else (if pending - 1 <= 0 then 1 else 0) + Completions(pending - 1, ends - 1)
  }

  lemma {:induction false} CompletionsBelowOne(pending: int, ends: nat)
    requires pending <= 1
    ensures Completions(pending, ends) == ends
    decreases ends
  {
    if ends > 0 { CompletionsBelowOne(pending - 1, ends - 1); }
  }

  /**
   * The barrier: with the counter at 2, the first branch end completes
   * nothing, and the project is reported exactly once when both have ended.
   */
  lemma Barrier()
    ensures Completions(2, 1) == 0
    ensures Completions(2, 2) == 1
    ensures forall n: nat :: n >= 1 ==> Completions(2, n) == n - 1
  {
    forall n: nat | n >= 1 ensures Completions(2, n) == n - 1 {
      CompletionsBelowOne(1, n - 1);
    }
  }

  /** `new ExportProjectStream(dest)`, with the state of the project being written. */
  class ExportProjectStream {
    const dest: Value
    var outDir: string
    var sourceOptions: map<string, Value>
    var piped: set<Value>
    var pending: int
    var completed: nat

    constructor (dest: Value)
      ensures this.dest == dest && piped == {} && pending == 0 && completed == 0
    {
      this.dest := dest;
      outDir, sourceOptions, piped, pending, completed := "", map[], {}, 0, 0;
    }

    /**
     * `_write(project)`: the output folder is the project's prefix below
     * `dest`, every registered transform is piped into the fitting, and the
     * barrier is set to the two branches. `path.join` throws a TypeError for
     * a `dest` or a prefix that is not a string, `Object.keys` one for a `null` or
     * `undefined` registry, and `pipe` one for a registered value without
     * that method, after the values reached before it have been piped.
     */
    method Write(project: ProjectConfig) returns (err: Option<JsError>)
      modifies this
      ensures !dest.Str? || !Get(project.props, "prefix").Str? || Registry(project.props).Err? ==>
        err == Some(TypeErr) && piped == old(piped)
      ensures dest.Str? && Get(project.props, "prefix").Str? && Registry(project.props).Ok? && !AllHave(project.props, "pipe") ==>
        err == Some(TypeErr) && old(piped) <= piped <= old(piped) + Streams(project.props)
      ensures err.Some? ==>
        outDir == old(outDir) && sourceOptions == old(sourceOptions)
        && pending == old(pending) && completed == old(completed)
      ensures dest.Str? && Get(project.props, "prefix").Str? && AllHave(project.props, "pipe") ==>
        err.None?
        && outDir == JoinText(dest.s, Get(project.props, "prefix").s)
        && sourceOptions == SourceOptions(project.props)
        && piped == old(piped) + Streams(project.props)
        && pending == 2 && completed == old(completed)
    {
      var prefix := Get(project.props, "prefix");
      if !dest.Str? || !prefix.Str? {
        return Some(TypeErr);
      }
      var dir := JoinText(dest.s, prefix.s);
      var options := SourceOptions(project.props);
      var keyed := Keyed(Get(project.props, "transforms"));
      if keyed.Err? {
        return Some(keyed.error);
      }
      var t := keyed.value;
      err := PipeEach(t);
      if err.Some? {
        return;
      }
      assert Visited(t, {}) == Streams(project.props);
      outDir, sourceOptions := dir, options;
      pending := 2;
    }

    /**
     * `Object.keys(t).forEach(key => t[key].pipe(fitting))` over the
     * enumerated registry `t`: a value without `pipe` throws, after the
     * values reached before it have been piped.
     */
    method PipeEach(t: map<string, Value>) returns (err: Option<JsError>)
      modifies this`piped
      ensures err.None? <==> forall k :: k in t ==> HasMethod(t[k], "pipe")
      ensures err.Some? ==> err == Some(TypeErr) && old(piped) <= piped <= old(piped) + Visited(t, {})
      ensures err.None? ==> piped == old(piped) + Visited(t, {})
    {
      var keys := t.Keys;
      while keys != {}
        invariant keys <= t.Keys
        invariant piped == old(piped) + Visited(t, keys)
        invariant forall k :: k in t && k !in keys ==> HasMethod(t[k], "pipe")
        decreases keys
      {
        var key :| key in keys;
        if !HasMethod(t[key], "pipe") {
          return Some(TypeErr);
        }
        piped := piped + {t[key]};
        keys := keys - {key};
      }
      err := None;
    }

    /**
     * `onEnd`: one branch has ended. When the counter runs out every
     * registered transform is unpiped and the project is reported done;
     * `Object.keys` and `unpipe` throw as they do in `Write`.
     */
    method BranchEnded(project: ProjectConfig) returns (err: Option<JsError>)
      modifies this`pending, this`piped, this`completed
      ensures pending == old(pending) - 1
      ensures pending > 0 ==> err.None? && piped == old(piped) && completed == old(completed)
      ensures pending <= 0 && AllHave(project.props, "unpipe") ==>
        err.None? && piped == old(piped) - Streams(project.props) && completed == old(completed) + 1
      ensures pending <= 0 && Registry(project.props).Err? ==>
        err == Some(TypeErr) && piped == old(piped) && completed == old(completed)
      ensures pending <= 0 && !AllHave(project.props, "unpipe") ==>
        err == Some(TypeErr) && old(piped) - Streams(project.props) <= piped <= old(piped)
        && completed == old(completed)
      ensures completed == old(completed) + (if err.None? then Completions(old(pending), 1) else 0)
    {
      pending := pending - 1;
      if pending <= 0 {
        var keyed := Keyed(Get(project.props, "transforms"));
        if keyed.Err? {
          return Some(keyed.error);
        }
        var t := keyed.value;
        var keys := t.Keys;
        while keys != {}
          invariant keys <= t.Keys
          invariant piped == old(piped) - Visited(t, keys)
          invariant forall k :: k in t && k !in keys ==> HasMethod(t[k], "unpipe")
          invariant pending == old(pending) - 1 && completed == old(completed)
          decreases keys
        {
          var key :| key in keys;
          if !HasMethod(t[key], "unpipe") {
            return Some(TypeErr);
          }
          piped := piped - {t[key]};
          keys := keys - {key};
        }
        assert Visited(t, {}) == Streams(project.props);
        completed := completed + 1;
      }
      err := None;
    }
  }
}
