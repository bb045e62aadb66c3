/**
 * The project configurations built from a list of symlinks: one per link
 * whose real path can be resolved, named after its package manifest or,
 * failing that, after the link itself. Links are taken from the end of the
 * list, and an entry that cannot be configured is dropped.
 */
module SymlinkConfig {
  import opened Js
  import opened Paths
  import opened Project

  // Facts about sequences and maps, stated generically so that they are
  // proved without the configuration functions in view.

  lemma SliceCons<T>(s: seq<T>, i: nat)
    requires i < |s|
    ensures s[i..] == [s[i]] + s[i + 1..]
  {
  }

  lemma PrefixOfPrefix<T>(s: seq<T>, t: seq<T>, k: nat)
    requires 0 < k <= |t| && |t| <= |s| && t == s[..|t|]
    ensures t[..k - 1] == s[..k - 1]
  {
  }

  lemma WholeSuffix<T>(s: seq<T>)
    ensures s[0..] == s
  {
  }

  lemma ConsInit<T>(x: T, t: seq<T>)
    ensures |[x] + t| == |t| + 1
    ensures t != [] ==> ([x] + t)[..|t|] == [x] + t[..|t| - 1] && ([x] + t)[|t|] == t[|t| - 1]
    ensures t == [] ==> ([x] + t)[..|t|] == []
  {
  }

  lemma UpdateTwice<K, V>(m: map<K, V>, k: K, a: V, b: V)
    ensures m[k := a][k := b] == m[k := b]
  {
  }

  lemma MergeSingleton<K, V>(m: map<K, V>, k: K, v: V)
    ensures m + map[k := v] == m[k := v]
  {
  }

  lemma MergePair<K, V>(m: map<K, V>, k1: K, v1: V, k2: K, v2: V)
    requires k1 != k2
    ensures m + map[k1 := v1, k2 := v2] == m[k1 := v1][k2 := v2]
  {
  }

  /** `fs.realpath(p)`: the resolved path, or the error it reports. */
  type Resolver = string -> Result<string>

  /** What looking for and reading a package manifest in a folder gave. */
  datatype Manifest =
    | NoManifest          // the glob failed or found nothing
    | ReadFailed          // the manifest could not be read
    | Read(name: Value)   // the `name` of the parsed manifest

  /** The manifest search in the folder given as the glob's `cwd`, and the read of the first file found. */
  type ManifestLookup = Value -> Manifest

  /** The link's own name, or the manifest's `name` (as `copy` stores it) when that is truthy. */
  function NameFor(prefix: string, m: Manifest): (v: Value)
    ensures m.Read? && Truthy(m.name) ==> v == ShallowCopy(m.name)
    ensures !(m.Read? && Truthy(m.name)) ==> v == Str(BasenameText(prefix))
  {
    if m.Read? && Truthy(m.name) then ShallowCopy(m.name) else Str(BasenameText(prefix))
  }

  /** `realPath(config)`: a copy with `src` set to the real path of the link, or the error `fs.realpath` reports. */
  function RealPathStep(config: map<string, Value>, realpath: Resolver): Result<map<string, Value>>
  {
    var bp, pf := Get(config, "basePath"), Get(config, "prefix");
    if !bp.Str? || !pf.Str? then Err(TypeErr)
    else match realpath(JoinText(bp.s, pf.s))
      case Err(e) => Err(e)
      case Ok(resolved) => Ok(Copied(config, Obj(map["src" := Str(resolved)])).value)
  }

  /** `projectName(config)`: the link's name set on the configuration, and a copy when the manifest names the project. */
  function NameStep(config: map<string, Value>, m: Manifest): Result<map<string, Value>>
  {
    var pf := Get(config, "prefix");
    if !pf.Str? then Err(TypeErr)
    else
      var named := config["name" := Str(BasenameText(pf.s))];
      match m
      case Read(n) => Ok(Copied(named, Obj(map["name" := if Truthy(n) then n else named["name"]])).value)
      case _ => Ok(named)
  }

  /** The data `create` is given for one link. */
  function LinkData(base: Value, prefix: string): Value
  {
    Obj(map["basePath" := base, "prefix" := Str(prefix)])
  }

  /** The properties of the configuration `create({basePath, prefix})` resolves to, or the error it rejects with. */
  function ConfigFor(base: Value, prefix: string, realpath: Resolver, manifest: ManifestLookup): (r: Result<map<string, Value>>)
    ensures !base.Str? ==> r == Err(TypeErr)
  {
    CreatedBasePath(base, prefix);
    Resolved(Created(LinkData(base, prefix)).value, realpath, manifest)
  }

  lemma CreatedBasePath(base: Value, prefix: string)
    ensures Created(LinkData(base, prefix)).Ok?
    ensures Get(Created(LinkData(base, prefix)).value, "basePath") == ShallowCopy(base)
  {
    CreatedFromObject(map["basePath" := base, "prefix" := Str(prefix)]);
  }

  /** The properties every configuration starts with, plus the two `create` is given. */
  function LinkDefaults(base: Value, prefix: string): map<string, Value>
  {
    map["ignore" := Arr([Str(DefaultIgnore)]), "transforms" := Obj(map[]), "basePath" := base, "prefix" := Str(prefix)]
  }

  lemma CreatedLink(base: Value, prefix: string)
    requires base.Str?
    ensures Created(LinkData(base, prefix)) == Ok(LinkDefaults(base, prefix))
  {
    var data := map["basePath" := base, "prefix" := Str(prefix)];
    CopiedFieldsIdentity(data);
    MergePair(DefaultProps, "basePath", base, "prefix", Str(prefix));
  }

  /** Neither `null` nor a stream: a value a shallow copy keeps as it is. */
  predicate Plain(v: Value)
  {
    !v.Null? && !v.Stream?
  }

  /** Copying a configuration of plain values with a one-key override sets that key. */
  lemma CopyWith(props: map<string, Value>, key: string, v: Value)
    requires "ignore" in props && "transforms" in props
    requires forall k :: k in props ==> Plain(props[k])
    ensures Copied(props, Obj(map[key := v])) == Ok(props[key := ShallowCopy(v)])
  {
    CopySemantics(props, Obj(map[key := v]));
    CopiedFieldsIdentity(props);
    CopiedSingleton(key, v);
    MergeSingleton(props, key, ShallowCopy(v));
  }

  lemma CopiedSingleton(key: string, v: Value)
    ensures CopiedFields(map[key := v]) == map[key := ShallowCopy(v)]
  {
  }

  /** A configuration of plain values whose link fields are strings. */
  predicate PlainConfig(config: map<string, Value>)
  {
    "ignore" in config && "transforms" in config && (forall k :: k in config ==> Plain(config[k]))
  }

  lemma RealPathOfPlain(config: map<string, Value>, realpath: Resolver)
    requires PlainConfig(config) && Get(config, "basePath").Str? && Get(config, "prefix").Str?
    ensures var r := realpath(JoinText(Get(config, "basePath").s, Get(config, "prefix").s));
      RealPathStep(config, realpath) == if r.Err? then Err(r.error) else Ok(config["src" := Str(r.value)])
  {
    var r := realpath(JoinText(Get(config, "basePath").s, Get(config, "prefix").s));
    if r.Ok? { CopyWith(config, "src", Str(r.value)); }
  }

  lemma NameOfPlain(config: map<string, Value>, m: Manifest)
    requires PlainConfig(config) && Get(config, "prefix").Str?
    ensures NameStep(config, m) == Ok(config["name" := NameFor(Get(config, "prefix").s, m)])
  {
    if m.Read? {
      NameFromManifest(config, Get(config, "prefix").s, m.name);
    }
  }

  /** With a manifest, the name is copied into the configuration the link's name was first set on. */
  lemma NameFromManifest(config: map<string, Value>, prefix: string, n: Value)
    requires PlainConfig(config) && Get(config, "prefix") == Str(prefix)
    ensures NameStep(config, Read(n)) == Ok(config["name" := NameFor(prefix, Read(n))])
  {
    var bn := Str(BasenameText(prefix));
    var named := config["name" := bn];
    var nv := if Truthy(n) then n else bn;
    NameStepOfRead(config, prefix, n);
    NamedPlain(config, bn);
    CopyWith(named, "name", nv);
    UpdateTwice(config, "name", bn, ShallowCopy(nv));
    assert ShallowCopy(nv) == NameFor(prefix, Read(n));
  }

  /** Setting a string name keeps a configuration plain. */
  lemma NamedPlain(config: map<string, Value>, bn: Value)
    requires PlainConfig(config) && bn.Str?
    ensures PlainConfig(config["name" := bn])
  {
  }

  lemma NameStepOfRead(config: map<string, Value>, prefix: string, n: Value)
    requires Get(config, "prefix") == Str(prefix)
    ensures var bn := Str(BasenameText(prefix));
      NameStep(config, Read(n)) == Ok(Copied(config["name" := bn], Obj(map["name" := if Truthy(n) then n else bn])).value)
  {
  }

  /** A link whose path does not resolve fails with the realpath error. */
  lemma ConfigForUnresolved(base: Value, prefix: string, realpath: Resolver, manifest: ManifestLookup)
    requires base.Str? && realpath(JoinText(base.s, prefix)).Err?
    ensures ConfigFor(base, prefix, realpath, manifest) == Err(realpath(JoinText(base.s, prefix)).error)
  {
    ConfigForString(base, prefix, realpath, manifest);
    UnresolvedStep(base, prefix, realpath);
  }

  lemma UnresolvedStep(base: Value, prefix: string, realpath: Resolver)
    requires base.Str? && realpath(JoinText(base.s, prefix)).Err?
    ensures RealPathStep(LinkDefaults(base, prefix), realpath) == Err(realpath(JoinText(base.s, prefix)).error)
  {
    var config := LinkDefaults(base, prefix);
    assert Get(config, "basePath") == base && Get(config, "prefix") == Str(prefix);
  }

  /** For a string base folder, `create` starts `realPath` from the link's defaults. */
  lemma ConfigForString(base: Value, prefix: string, realpath: Resolver, manifest: ManifestLookup)
    requires base.Str?
    ensures ConfigFor(base, prefix, realpath, manifest) ==
      match RealPathStep(LinkDefaults(base, prefix), realpath)
      case Err(e) => Err(e)
      case Ok(config) => NameStep(config, manifest(Get(config, "src")))
  {
    CreatedLink(base, prefix);
  }

  /** A link whose path resolves records the base folder, the link, the real path and the name. */
  lemma ConfigForResolved(base: Value, prefix: string, realpath: Resolver, manifest: ManifestLookup, resolved: string)
    requires base.Str? && realpath(JoinText(base.s, prefix)) == Ok(resolved)
    ensures ConfigFor(base, prefix, realpath, manifest) ==
      Ok(LinkDefaults(base, prefix)["src" := Str(resolved)]["name" := NameFor(prefix, manifest(Str(resolved)))])
  {
    CreatedLink(base, prefix);
    ResolvedStep(base, prefix, realpath, resolved);
    NameOfResolved(base, prefix, resolved, manifest(Str(resolved)));
  }

  lemma ResolvedStep(base: Value, prefix: string, realpath: Resolver, resolved: string)
    requires base.Str? && realpath(JoinText(base.s, prefix)) == Ok(resolved)
    ensures RealPathStep(LinkDefaults(base, prefix), realpath) == Ok(LinkDefaults(base, prefix)["src" := Str(resolved)])
  {
    var config := LinkDefaults(base, prefix);
    LinkDefaultsPlain(base, prefix);
    assert realpath(JoinText(Get(config, "basePath").s, Get(config, "prefix").s)) == Ok(resolved);
    RealPathOfPlain(config, realpath);
  }

  /** A link's starting configuration holds plain values, with the base folder and the link as given. */
  lemma LinkDefaultsPlain(base: Value, prefix: string)
    requires base.Str?
    ensures PlainConfig(LinkDefaults(base, prefix))
    ensures Get(LinkDefaults(base, prefix), "basePath") == base && Get(LinkDefaults(base, prefix), "prefix") == Str(prefix)
  {
    var config := LinkDefaults(base, prefix);
    assert config.Keys == {"ignore", "transforms", "basePath", "prefix"};
  }

  lemma NameOfResolved(base: Value, prefix: string, resolved: string, m: Manifest)
    requires base.Str?
    ensures NameStep(LinkDefaults(base, prefix)["src" := Str(resolved)], m) ==
      Ok(LinkDefaults(base, prefix)["src" := Str(resolved)]["name" := NameFor(prefix, m)])
  {
    ResolvedPlain(base, prefix, resolved);
    NameOfPlain(LinkDefaults(base, prefix)["src" := Str(resolved)], m);
  }

  lemma ResolvedPlain(base: Value, prefix: string, resolved: string)
    requires base.Str?
    ensures var c := LinkDefaults(base, prefix)["src" := Str(resolved)];
      PlainConfig(c) && Get(c, "prefix") == Str(prefix)
  {
  }

  /**
   * A link configures exactly when the base folder is a string and its
   * path resolves; the configuration then records the base folder, the
   * link, its real path and its name, next to the defaults.
   */
  lemma ConfigForFields(base: Value, prefix: string, realpath: Resolver, manifest: ManifestLookup)
    ensures ConfigFor(base, prefix, realpath, manifest).Ok? <==>
      base.Str? && realpath(JoinText(base.s, prefix)).Ok?
    ensures base.Str? && realpath(JoinText(base.s, prefix)).Err? ==>
      ConfigFor(base, prefix, realpath, manifest) == Err(realpath(JoinText(base.s, prefix)).error)
    ensures !base.Str? ==> ConfigFor(base, prefix, realpath, manifest) == Err(TypeErr)
    ensures ConfigFor(base, prefix, realpath, manifest).Ok? ==>
      var resolved := realpath(JoinText(base.s, prefix)).value;
      ConfigFor(base, prefix, realpath, manifest).value ==
        LinkDefaults(base, prefix)["src" := Str(resolved)]["name" := NameFor(prefix, manifest(Str(resolved)))]
  {
    if base.Str? {
      var r := realpath(JoinText(base.s, prefix));
      if r.Err? {
        ConfigForUnresolved(base, prefix, realpath, manifest);
      } else {
        ConfigForResolved(base, prefix, realpath, manifest, r.value);
      }
    }
  }

  /** `realPath(config)` */
  method RealPath(config: ProjectConfig, realpath: Resolver) returns (r: Result<ProjectConfig>)
    ensures r.Err? <==> RealPathStep(config.props, realpath).Err?
    ensures r.Err? ==> r.error == RealPathStep(config.props, realpath).error
    ensures r.Ok? ==> fresh(r.value) && r.value.props == RealPathStep(config.props, realpath).value
  {
    var bp, pf := Get(config.props, "basePath"), Get(config.props, "prefix");
    if !bp.Str? || !pf.Str? {
      return Err(TypeErr);
    }
    match realpath(JoinText(bp.s, pf.s))
    case Err(e) => { return Err(e); }
    case Ok(resolved) => {
      var copied := config.Copy(Obj(map["src" := Str(resolved)]));
      match copied
      case Err(e) => { assert false; }
      case Ok(c) => { return Ok(c); }
    }
  }

  /** `projectName(config)`: `name` is set on `config` itself before the manifest is looked at. */
  method ProjectName(config: ProjectConfig, m: Manifest) returns (r: Result<ProjectConfig>)
    modifies config
    ensures r.Err? <==> NameStep(old(config.props), m).Err?
    ensures r.Err? ==> r.error == TypeErr && config.props == old(config.props)
    ensures r.Ok? ==> r.value.props == NameStep(old(config.props), m).value
    ensures r.Ok? && !m.Read? ==> r.value == config
    ensures r.Ok? && m.Read? ==> fresh(r.value) && config.props == old(config.props)["name" := Str(BasenameText(Get(old(config.props), "prefix").s))]
  {
    var pf := Get(config.props, "prefix");
    if !pf.Str? {
      return Err(TypeErr);
    }
    config.props := config.props["name" := Str(BasenameText(pf.s))];
    match m
    case Read(n) => {
      var name := if Truthy(n) then n else config.props["name"];
      var renamed := config.Copy(Obj(map["name" := name]));
      match renamed
      case Err(e) => { assert false; }
      case Ok(named) => { return Ok(named); }
    }
    case NoManifest => { return Ok(config); }
    case ReadFailed => { return Ok(config); }
  }

  /** `create({basePath, prefix})`: a new configuration, then `realPath`, then `projectName`. */
  method CreateConfig(base: Value, prefix: string, realpath: Resolver, manifest: ManifestLookup)
    returns (r: Result<ProjectConfig>)
    ensures r.Err? <==> ConfigFor(base, prefix, realpath, manifest).Err?
    ensures r.Err? ==> r.error == ConfigFor(base, prefix, realpath, manifest).error
    ensures r.Ok? ==> fresh(r.value) && r.value.props == ConfigFor(base, prefix, realpath, manifest).value
  {
    var created := NewProjectConfig(LinkData(base, prefix));
    match created
    case Err(e) => { assert false; }
    case Ok(config) => {
      r := Resolve(config, realpath, manifest);
    }
  }

  /** The properties `.then(realPath).then(projectName)` gives a configuration holding `props`. */
  function Resolved(props: map<string, Value>, realpath: Resolver, manifest: ManifestLookup): Result<map<string, Value>>
  {
    match RealPathStep(props, realpath)
    case Err(e) => Err(e)
    case Ok(config) => NameStep(config, manifest(Get(config, "src")))
  }

  /** `.then(realPath).then(projectName)` on a new configuration. */
  method Resolve(config: ProjectConfig, realpath: Resolver, manifest: ManifestLookup) returns (r: Result<ProjectConfig>)
    ensures r.Err? <==> Resolved(config.props, realpath, manifest).Err?
    ensures r.Err? ==> r.error == Resolved(config.props, realpath, manifest).error
    ensures r.Ok? ==> fresh(r.value) && r.value.props == Resolved(config.props, realpath, manifest).value
  {
    var withSrc := RealPath(config, realpath);
    match withSrc
    case Err(e) => { return Err(e); }
    case Ok(c) => {
      r := ProjectName(c, manifest(Get(c.props, "src")));
    }
  }

  /** `symlinks.dir || process.cwd()` */
  function BaseDir(dir: Value, processCwd: Path): (v: Value)
    ensures Truthy(dir) ==> v == dir
    ensures !Truthy(dir) ==> v == Str(AbsText(processCwd))
  {
    if Truthy(dir) then dir else Str(AbsText(processCwd))
  }

  /** What `create` gives for each link, with the base folder and the file system fixed. */
  type Creator = string -> Result<map<string, Value>>

  function CreatorFor(base: Value, realpath: Resolver, manifest: ManifestLookup): Creator
  {
    p => ConfigFor(base, p, realpath, manifest)
  }

  /** The configurations the builder collects, in the order it collects them: from the last link to the first. */
  function Built(links: seq<string>, create: Creator): (r: seq<map<string, Value>>)
    ensures |r| <= |links|
    ensures links != [] && create(links[|links| - 1]).Ok? ==> r != [] && r[0] == create(links[|links| - 1]).value
    decreases |links|
  {
    if links == [] then []
    else
      var c := create(links[|links| - 1]);
      (if c.Ok? then [c.value] else []) + Built(links[..|links| - 1], create)
  }

  /** The links that configure, in input order. */
  function Successes(links: seq<string>, create: Creator): (r: seq<map<string, Value>>)
    ensures |r| <= |links|
    decreases |links|
  {
    if links == [] then []
    else
      var c := create(links[0]);
      (if c.Ok? then [c.value] else []) + Successes(links[1..], create)
  }

  function Reverse<T>(s: seq<T>): (r: seq<T>)
    ensures |r| == |s| && forall i :: 0 <= i < |s| ==> r[i] == s[|s| - 1 - i]
    decreases |s|
  {
    if s == [] then [] else Reverse(s[1..]) + [s[0]]
  }

  lemma {:induction false} SuccessesSnoc(links: seq<string>, create: Creator)
    requires links != []
    ensures Successes(links, create) ==
      Successes(links[..|links| - 1], create)
      + (var c := create(links[|links| - 1]); if c.Ok? then [c.value] else [])
    decreases |links|
  {
    if |links| > 1 {
      SuccessesSnoc(links[1..], create);
      assert links[1..][..|links[1..]| - 1] == links[..|links| - 1][1..];
      assert links[1..][|links[1..]| - 1] == links[|links| - 1];
    }
  }

  /** The result holds the configured links in reverse input order; failed links are missing. */
  lemma {:induction false} BuiltIsReversedSuccesses(links: seq<string>, create: Creator)
    ensures Built(links, create) == Reverse(Successes(links, create))
    decreases |links|
  {
    if links != [] {
      var init := links[..|links| - 1];
      BuiltIsReversedSuccesses(init, create);
      SuccessesSnoc(links, create);
      var c := create(links[|links| - 1]);
      var tail := if c.Ok? then [c.value] else [];
      ReverseAppend(Successes(init, create), tail);
    }
  }

  lemma ReverseAppend<T>(a: seq<T>, b: seq<T>)
    requires |b| <= 1
    ensures Reverse(a + b) == b + Reverse(a)
  {
    var r, s := Reverse(a + b), b + Reverse(a);
    assert |r| == |s|;
    forall i | 0 <= i < |r| ensures r[i] == s[i] {
      if i < |b| { assert r[i] == (a + b)[|a + b| - 1 - i]; }
    }
  }

  /** When every link configures, there is one configuration per link, the last link's first. */
  lemma AllConfigured(links: seq<string>, create: Creator)
    requires forall i :: 0 <= i < |links| ==> create(links[i]).Ok?
    ensures |Built(links, create)| == |links|
    ensures forall i :: 0 <= i < |links| ==> Built(links, create)[i] == create(links[|links| - 1 - i]).value
  {
    BuiltIsReversedSuccesses(links, create);
    AllSucceed(links, create);
  }

  lemma {:induction false} AllSucceed(links: seq<string>, create: Creator)
    requires forall i :: 0 <= i < |links| ==> create(links[i]).Ok?
    ensures |Successes(links, create)| == |links|
    ensures forall i :: 0 <= i < |links| ==> Successes(links, create)[i] == create(links[i]).value
    decreases |links|
  {
    if links != [] {
      assert forall i :: 0 <= i < |links[1..]| ==> links[1..][i] == links[i + 1];
      AllSucceed(links[1..], create);
    }
  }

  /** No link configures: the builder resolves to an empty list. */
  lemma {:induction false} NoneConfigured(links: seq<string>, create: Creator)
    requires forall i :: 0 <= i < |links| ==> create(links[i]).Err?
    ensures Built(links, create) == []
    decreases |links|
  {
    if links != [] {
      assert forall i :: 0 <= i < |links| - 1 ==> links[..|links| - 1][i] == links[i];
      NoneConfigured(links[..|links| - 1], create);
    }
  }

  /** Collecting a list from the back: the first link's configuration comes last. */
  lemma {:induction false} BuiltCons(x: string, t: seq<string>, create: Creator)
    ensures Built([x] + t, create) == Built(t, create) + (var r := create(x); if r.Ok? then [r.value] else [])
    decreases |t|
  {
    if t != [] {
      BuiltCons(x, t[..|t| - 1], create);
    }
    ConsInit(x, t);
  }

  /** `create` for the link `links[k - 1]`, the next one the builder pops. */
  method CreateNext(links: seq<string>, k: nat, base: Value, realpath: Resolver, manifest: ManifestLookup)
    returns (r: Result<ProjectConfig>)
    requires 0 < k <= |links|
    ensures r.Ok? ==> fresh(r.value)
    ensures Built(links[k - 1..], CreatorFor(base, realpath, manifest))
      == Built(links[k..], CreatorFor(base, realpath, manifest)) + (if r.Ok? then [r.value.props] else [])
  {
    r := CreateConfig(base, links[k - 1], realpath, manifest);
    SliceCons(links, k - 1);
    BuiltCons(links[k - 1], links[k..], CreatorFor(base, realpath, manifest));
  }

  /**
   * The exported builder: it works on a copy of the list, pops one link at
   * a time, and keeps each configuration that resolves.
   */
  method BuildConfigs(links: seq<string>, dir: Value, processCwd: Path, realpath: Resolver, manifest: ManifestLookup)
    returns (configs: seq<ProjectConfig>)
    ensures |configs| == |Built(links, CreatorFor(BaseDir(dir, processCwd), realpath, manifest))|
    ensures forall i :: 0 <= i < |configs| ==>
      fresh(configs[i]) && configs[i].props == Built(links, CreatorFor(BaseDir(dir, processCwd), realpath, manifest))[i]
  {
    var base := BaseDir(dir, processCwd);
    ghost var create := CreatorFor(base, realpath, manifest);
    var rest := links;
    configs := [];
    ghost var done: seq<map<string, Value>> := [];
    while rest != []
      invariant |rest| <= |links| && rest == links[..|rest|]
      invariant |done| == |configs|
      invariant forall i :: 0 <= i < |configs| ==> fresh(configs[i]) && configs[i].props == done[i]
      invariant done == Built(links[|rest|..], create)
      decreases |rest|
    {
      var k := |rest|;
      var c := CreateNext(links, k, base, realpath, manifest);
      PrefixOfPrefix(links, rest, k);
      rest := rest[..k - 1];
      assert |rest| == k - 1;
      if c.Ok? {
        configs := configs + [c.value];
        done := done + [c.value.props];
      }
      assert done == Built(links[k - 1..], create);
    }
    WholeSuffix(links);
  }
}
