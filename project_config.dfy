/**
 * The project import configuration: a bag of properties (`prefix`, `src`,
 * `ignore`, …) and a registry `transforms` from glob patterns to the
 * transform streams that handle the files they match.
 */
module Project {
  import opened Js
  import opened Paths

  /** The ignore pattern every new configuration starts with. */
  const DefaultIgnore := "{node_modules,bower_components}/**"

  /** The properties a new configuration has before its data is applied. */
  const DefaultProps: map<string, Value> :=
    map["ignore" := Arr([Str(DefaultIgnore)]), "transforms" := Obj(map[])]

  /** Every property copied the way `extend` stores it. */
  function CopiedFields(m: map<string, Value>): (r: map<string, Value>)
    ensures r.Keys == m.Keys
    ensures forall k :: k in m ==> r[k] == ShallowCopy(m[k])
  {
    map k | k in m :: ShallowCopy(m[k])
  }

  /**
   * The properties after `extend(data)`: every own enumerable key of an
   * object `data` is assigned a shallow copy of its value; a `data` whose
   * `typeof` is not 'object' changes nothing; `null` makes `Object.keys` throw.
   */
  function Extended(props: map<string, Value>, data: Value): Result<map<string, Value>>
  {
    if data.Null? then Err(TypeErr)
    else if IsObjectType(data) then Ok(props + CopiedFields(OwnEnumerable(data)))
    else Ok(props)
  }

  /**
   * `extend` fails exactly on `null`; otherwise the data's own keys are
   * added, each holding a copy of the data's value, and every other
   * property keeps its value.
   */
  lemma ExtendedSemantics(props: map<string, Value>, data: Value)
    ensures Extended(props, data).Err? <==> data.Null?
    ensures Extended(props, data).Err? ==> Extended(props, data).error == TypeErr
    ensures Extended(props, data).Ok? && IsObjectType(data) ==>
      Extended(props, data).value.Keys == props.Keys + OwnEnumerable(data).Keys
    ensures Extended(props, data).Ok? && !IsObjectType(data) ==> Extended(props, data).value == props
    ensures Extended(props, data).Ok? && IsObjectType(data) ==>
      forall k :: k in OwnEnumerable(data) ==> Extended(props, data).value[k] == ShallowCopy(OwnEnumerable(data)[k])
    ensures Extended(props, data).Ok? && IsObjectType(data) ==>
      forall k :: k in props && k !in OwnEnumerable(data) ==> Extended(props, data).value[k] == props[k]
  {
  }

  /** The properties of `src` outside `keys`, copied: what `extend` has assigned once `keys` are left. */
  function CopiedExcept(src: map<string, Value>, keys: set<string>): map<string, Value>
  {
    map k | k in src && k !in keys :: ShallowCopy(src[k])
  }

  lemma CopiedExceptStep(props: map<string, Value>, src: map<string, Value>, keys: set<string>, key: string)
    requires key in keys && keys <= src.Keys
    ensures (props + CopiedExcept(src, keys))[key := ShallowCopy(src[key])] == props + CopiedExcept(src, keys - {key})
  {
    var a, b := (props + CopiedExcept(src, keys))[key := ShallowCopy(src[key])], props + CopiedExcept(src, keys - {key});
    assert a.Keys == b.Keys;
    forall k | k in a ensures a[k] == b[k] {
      if k != key && k in src && k !in keys { assert a[k] == CopiedExcept(src, keys)[k]; }
    }
  }

  /** The properties of `new ProjectConfig(data)`. */
  function Created(data: Value): Result<map<string, Value>>
  {
    Extended(DefaultProps, data)
  }

  /** The properties of `config.copy(override)` for a configuration holding `props`. */
  function Copied(props: map<string, Value>, override: Value): Result<map<string, Value>>
  {
    var base := Created(Obj(props));
    if base.Err? then base else Extended(base.value, override)
  }

  /** `typeof stream === 'object' && '_transform' in stream`, for a value that is not `null`. */
  predicate StreamLike(stream: Value)
  {
    stream.Stream? || (stream.Obj? && "_transform" in stream.fields)
  }

  /**
   * `config.transform(pattern, stream)`: how the call ends and the
   * properties after it. Only `transforms` can change.
   */
  function Transformed(props: map<string, Value>, pattern: string, stream: Value): (r: (Completion, map<string, Value>))
    ensures props.Keys <= r.1.Keys <= props.Keys + {"transforms"}
    ensures forall k :: k in props && k != "transforms" ==> r.1[k] == props[k]
    ensures r.0.Throw? ==> r.1 == props && r.0.error == TypeErr
  {
    var t := Get(props, "transforms");
    if stream.Null? && t.Obj? && pattern in t.fields then
      (Normal(Bool(true)), props["transforms" := Obj(t.fields - {pattern})])
    else if stream.Null? then
      (Throw(TypeErr), props)   // `pattern in` a primitive, or `'_transform' in null`
    else if StreamLike(stream) then
      if t.Obj? then (Normal(Undefined), props["transforms" := Obj(t.fields[pattern := stream])])
      else (Throw(TypeErr), props)
    else
      (Normal(Undefined), props)
  }

  /** `m` is a registered pattern that matches `path`, and no matching pattern is longer. */
  predicate IsLongestMatch(t: map<string, Value>, path: string, glob: Matcher, m: string)
  {
    m in t && glob(m, path) && forall k :: k in t && glob(k, path) ==> |k| <= |m|
  }

  /**
   * `Object.keys(v)` together with the lookups `v[key]`: the own enumerable
   * properties of `v`, or the TypeError `Object.keys` throws for `null` and
   * `undefined`. Strings and arrays list their indices; numbers, booleans and
   * functions list nothing.
   */
  function Keyed(v: Value): (r: Result<map<string, Value>>)
    ensures r.Err? <==> v.Null? || v.Undefined?
    ensures r.Err? ==> r.error == TypeErr
    ensures r.Ok? ==> r.value == OwnEnumerable(v)
    ensures v.Obj? ==> r == Ok(v.fields)
  {
    if v.Null? || v.Undefined? then Err(TypeErr) else Ok(OwnEnumerable(v))
  }

  /** The registry as `Object.keys(this.transforms)` and `this.transforms[key]` see it. */
  function Registry(props: map<string, Value>): Result<map<string, Value>>
  {
    Keyed(Get(props, "transforms"))
  }

  /** `m && this.transforms[m]`: an empty pattern yields itself. */
  function Picked(t: map<string, Value>, m: string): Value
    requires m in t
  {
    if m == "" then Str("") else t[m]
  }

  class ProjectConfig {
    /** The configuration's own enumerable properties. */
    var props: map<string, Value>

    constructor Defaults()
      ensures props == DefaultProps
    {
      props := DefaultProps;
    }

    /** `extend(data)`, assigning one key at a time; it returns `this`, or throws for `null`. */
    method Extend(data: Value) returns (err: Option<JsError>)
      modifies this
      ensures Extended(old(props), data).Ok? ==> err.None? && props == Extended(old(props), data).value
      ensures Extended(old(props), data).Err? ==> err == Some(TypeErr) && props == old(props)
    {
      if data.Null? {
        return Some(TypeErr);
      }
      if !IsObjectType(data) {
        return None;
      }
      var src := OwnEnumerable(data);
      var keys := src.Keys;
      while keys != {}
        invariant keys <= src.Keys
        invariant props == old(props) + CopiedExcept(src, keys)
        decreases keys
      {
        var key :| key in keys;
        CopiedExceptStep(old(props), src, keys, key);
        props := props[key := ShallowCopy(src[key])];
        keys := keys - {key};
      }
      assert CopiedExcept(src, {}) == CopiedFields(src);
      return None;
    }

    /** `copy(override)`: a new configuration; this one is left as it is. */
    method Copy(override: Value) returns (r: Result<ProjectConfig>)
      ensures r.Err? <==> override.Null?
      ensures r.Ok? ==> fresh(r.value) && r.value.props == Copied(props, override).value
    {
      var c := NewProjectConfig(Obj(props));
      match c
      case Err(e) => { assert false; }
      case Ok(config) => {
        var err := config.Extend(override);
        if err.Some? { return Err(err.value); }
        return Ok(config);
      }
    }

    /** `transform(pattern, stream)`: register, delete, or leave the registry alone. */
    method Transform(pattern: string, stream: Value) returns (c: Completion)
      modifies this
      ensures (c, props) == Transformed(old(props), pattern, stream)
    {
      var t := Get(props, "transforms");
      if stream.Null? && t.Obj? && pattern in t.fields {
        props := props["transforms" := Obj(t.fields - {pattern})];
        return Normal(Bool(true));
      }
      if stream.Null? {
        return Throw(TypeErr);
      }
      if StreamLike(stream) {
        if !t.Obj? {
          return Throw(TypeErr);
        }
        props := props["transforms" := Obj(t.fields[pattern := stream])];
      }
      return Normal(Undefined);
    }

    /**
     * `match(filePath)`: the stream of a registered pattern that matches,
     * such that no matching pattern is longer; `undefined` when none matches.
     * `Object.keys` throws for a `null` or `undefined` registry.
     */
    method Match(path: string, glob: Matcher) returns (c: Completion)
      ensures Registry(props).Err? ==> c == Throw(TypeErr)
      ensures Registry(props).Ok? ==> c.Normal?
      ensures Registry(props).Ok? && (forall k :: k in Registry(props).value ==> !glob(k, path))
        ==> c == Normal(Undefined)
      ensures Registry(props).Ok? && (exists k :: k in Registry(props).value && glob(k, path))
        ==> exists m :: IsLongestMatch(Registry(props).value, path, glob, m)
              && c == Normal(Picked(Registry(props).value, m))
    {
      var keyed := Keyed(Get(props, "transforms"));
      if keyed.Err? {
        return Throw(keyed.error);
      }
      var t := keyed.value;
      var keys := t.Keys;
      var best: Option<string> := None;
      while keys != {}
        invariant keys <= t.Keys
        invariant best.Some? ==> best.value in t && glob(best.value, path)
        invariant best.Some? ==> forall k :: k in t && k !in keys && glob(k, path) ==> |k| <= |best.value|
        invariant best.None? ==> forall k :: k in t && k !in keys ==> !glob(k, path)
        decreases keys
      {
        var key :| key in keys;
        if glob(key, path) && (best.None? || |key| > |best.value|) {
          best := Some(key);
        }
        keys := keys - {key};
      }
      if best.None? {
        return Normal(Undefined);
      }
      assert IsLongestMatch(t, path, glob, best.value);
      return Normal(Picked(t, best.value));
    }
  }

  /** `new ProjectConfig(data)`: the defaults, then `data` applied over them. */
  method NewProjectConfig(data: Value) returns (r: Result<ProjectConfig>)
    ensures r.Err? <==> data.Null?
    ensures r.Ok? ==> fresh(r.value) && r.value.props == Created(data).value
  {
    var c := new ProjectConfig.Defaults();
    var err := c.Extend(data);
    if err.Some? { return Err(err.value); }
    return Ok(c);
  }

  /** The data given to a new configuration overrides the defaults and keeps what it does not name. */
  lemma CreatedFromObject(fields: map<string, Value>)
    ensures Created(Obj(fields)).Ok?
    ensures Created(Obj(fields)).value.Keys == fields.Keys + {"ignore", "transforms"}
    ensures "ignore" !in fields ==> Created(Obj(fields)).value["ignore"] == Arr([Str(DefaultIgnore)])
    ensures "transforms" !in fields ==> Created(Obj(fields)).value["transforms"] == Obj(map[])
    ensures forall k :: k in fields ==> Created(Obj(fields)).value[k] == ShallowCopy(fields[k])
  {
  }

  /**
   * A copy holds a shallow copy of every property of the original, overlaid
   * by the override's own keys; every other property keeps its value.
   */
  lemma CopySemantics(props: map<string, Value>, override: Value)
    requires "ignore" in props && "transforms" in props
    requires !override.Null?
    ensures Copied(props, override).Ok?
    ensures Copied(props, override).value ==
      CopiedFields(props) + (if IsObjectType(override) then CopiedFields(OwnEnumerable(override)) else map[])
  {
    assert OwnEnumerable(Obj(props)) == props;
    DefaultsOverridden(CopiedFields(props));
    assert Created(Obj(props)) == Ok(CopiedFields(props));
  }

  /** Data that names both default properties replaces them. */
  lemma DefaultsOverridden(m: map<string, Value>)
    requires "ignore" in m && "transforms" in m
    ensures DefaultProps + m == m
  {
    assert (DefaultProps + m).Keys == m.Keys;
  }

  /** Copying does not alter values other than `null` and streams, which become plain objects. */
  lemma CopiedFieldsIdentity(m: map<string, Value>)
    requires forall k :: k in m ==> !m[k].Null? && !m[k].Stream?
    ensures CopiedFields(m) == m
  {
    forall k | k in m ensures CopiedFields(m)[k] == m[k] {
      var v := m[k];
      assert !IsObjectType(v) || v.Arr? || v.Obj?;
    }
  }

  /** Copying twice is copying once. */
  lemma CopiedFieldsIdempotent(m: map<string, Value>)
    ensures CopiedFields(CopiedFields(m)) == CopiedFields(m)
  {
    forall k | k in m ensures ShallowCopy(ShallowCopy(m[k])) == ShallowCopy(m[k]) {
      var v := m[k];
      if IsObjectType(v) && !v.Arr? { assert ShallowCopy(v).Obj?; }
    }
  }

  /** Registering a stream-like value for a pattern, then deleting it, leaves the registry without that pattern. */
  lemma RegisterThenDelete(props: map<string, Value>, pattern: string, stream: Value)
    requires Get(props, "transforms").Obj? && StreamLike(stream)
    ensures Transformed(props, pattern, stream).0 == Normal(Undefined)
    ensures Transformed(Transformed(props, pattern, stream).1, pattern, Null) ==
      (Normal(Bool(true)), props["transforms" := Obj(Get(props, "transforms").fields - {pattern})])
  {
    var t := Get(props, "transforms").fields;
    var p1 := Transformed(props, pattern, stream).1;
    assert p1 == props["transforms" := Obj(t[pattern := stream])];
    assert Get(p1, "transforms") == Obj(t[pattern := stream]);
    assert t[pattern := stream] - {pattern} == t - {pattern};
    assert p1["transforms" := Obj(t - {pattern})] == props["transforms" := Obj(t - {pattern})];
  }

  /** Registering overwrites the previous entry for the pattern and no other. */
  lemma RegisterOverwrites(props: map<string, Value>, pattern: string, stream: Value)
    requires Get(props, "transforms").Obj? && StreamLike(stream)
    ensures Get(Transformed(props, pattern, stream).1, "transforms").Obj?
    ensures Get(Transformed(props, pattern, stream).1, "transforms").fields[pattern] == stream
    ensures forall k :: k in Get(props, "transforms").fields && k != pattern ==>
      k in Get(Transformed(props, pattern, stream).1, "transforms").fields &&
      Get(Transformed(props, pattern, stream).1, "transforms").fields[k] == Get(props, "transforms").fields[k]
  {
  }

  /** `transform(p, null)` throws exactly when `p` is not registered. */
  lemma DeleteThrowsIffUnregistered(props: map<string, Value>, pattern: string)
    requires Get(props, "transforms").Obj?
    ensures Transformed(props, pattern, Null).0.Throw? <==> pattern !in Get(props, "transforms").fields
  {
  }

  /** A value that is neither `null` nor stream-like registers nothing. */
  lemma NonStreamIsNoOp(props: map<string, Value>, pattern: string, v: Value)
    requires !v.Null? && !StreamLike(v)
    ensures Transformed(props, pattern, v) == (Normal(Undefined), props)
  {
  }

  /** A pattern registered for a path and longer than every other matching pattern is the one matched. */
  lemma LongestRegisteredWins(t: map<string, Value>, pattern: string, path: string, glob: Matcher)
    requires pattern in t && glob(pattern, path)
    requires forall k :: k in t && k != pattern && glob(k, path) ==> |k| < |pattern|
    ensures IsLongestMatch(t, path, glob, pattern)
    ensures forall m :: IsLongestMatch(t, path, glob, m) ==> m == pattern
  {
  }

  /**
   * Once `transform(pattern, null)` has deleted a registered pattern, no
   * lookup in the registry it leaves picks that pattern, and every other
   * pattern is still there.
   */
  lemma DeletedNeverMatched(props: map<string, Value>, pattern: string, path: string, glob: Matcher)
    requires Get(props, "transforms").Obj? && pattern in Get(props, "transforms").fields
    ensures var after := Transformed(props, pattern, Null).1;
      Registry(after).Ok?
      && pattern !in Registry(after).value
      && Registry(after).value.Keys == Registry(props).value.Keys - {pattern}
      && forall m :: IsLongestMatch(Registry(after).value, path, glob, m) ==> m != pattern
  {
    var after := Transformed(props, pattern, Null).1;
    assert Get(after, "transforms") == Obj(Get(props, "transforms").fields - {pattern});
  }
}
