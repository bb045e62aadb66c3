/**
 * The URL-rewriting stage: for each project it registers an HTML and a
 * CSS rewriter, both configured with the stage's options on top of the
 * project's prefix.
 */
module RewriteUrlStream {
  import opened Js
  import opened Project

  const HtmlFiles := "**/*.html"
  const CssFiles := "**/*.css"

  /** The constructor's `config`: a function becomes `{transformUrl: fn}`, a missing one `{}`. */
  function NormalConfig(config: Value): (r: Value)
    ensures config.Fn? ==> r == Obj(map["transformUrl" := config])
    ensures !config.Fn? && Truthy(config) ==> r == config
    ensures !Truthy(config) ==> r == Obj(map[])
  {
    if config.Fn? then Obj(map["transformUrl" := config])
    else if Truthy(config) then config
    else Obj(map[])
  }

  /** `extend({prefix: project.prefix}, this.config)`: the stage's own keys win. */
  function ProjectOptions(prefix: Value, config: Value): (r: map<string, Value>)
    ensures r.Keys == {"prefix"} + OwnEnumerable(config).Keys
    ensures forall k :: k in OwnEnumerable(config) ==> r[k] == OwnEnumerable(config)[k]
    ensures "prefix" !in OwnEnumerable(config) ==> r["prefix"] == prefix
  {
    map["prefix" := prefix] + OwnEnumerable(config)
  }

  /** The registry after both rewriters are registered. */
  function WithRewriters(t: map<string, Value>, options: map<string, Value>): map<string, Value>
  {
    t[HtmlFiles := Stream(HtmlRewriter(options))][CssFiles := Stream(CssRewriter(options))]
  }

  /**
   * Exactly the two rewrite patterns change: each now names its rewriter,
   * both carry the same options, and every other pattern keeps its stream.
   */
  lemma RewritersRegistered(t: map<string, Value>, options: map<string, Value>)
    ensures WithRewriters(t, options).Keys == t.Keys + {HtmlFiles, CssFiles}
    ensures WithRewriters(t, options)[HtmlFiles] == Stream(HtmlRewriter(options))
    ensures WithRewriters(t, options)[CssFiles] == Stream(CssRewriter(options))
    ensures forall k :: k in t && k != HtmlFiles && k != CssFiles ==> WithRewriters(t, options)[k] == t[k]
  {
    assert HtmlFiles != CssFiles by { assert HtmlFiles[7] != CssFiles[7]; }
  }

  /** The two registrations, as `transform` performs them one after the other, give that registry. */
  lemma TwoRegistrations(props: map<string, Value>, options: map<string, Value>)
    requires Get(props, "transforms").Obj?
    ensures Transformed(props, HtmlFiles, Stream(HtmlRewriter(options))).0 == Normal(Undefined)
    ensures Transformed(Transformed(props, HtmlFiles, Stream(HtmlRewriter(options))).1,
      CssFiles, Stream(CssRewriter(options))) ==
      (Normal(Undefined), props["transforms" := Obj(WithRewriters(Get(props, "transforms").fields, options))])
  {
    var p1 := Transformed(props, HtmlFiles, Stream(HtmlRewriter(options))).1;
    assert Get(p1, "transforms") == Obj(Get(props, "transforms").fields[HtmlFiles := Stream(HtmlRewriter(options))]);
    assert p1["transforms" := Obj(WithRewriters(Get(props, "transforms").fields, options))]
      == props["transforms" := Obj(WithRewriters(Get(props, "transforms").fields, options))];
  }

  /** A user-supplied `prefix` replaces the project's; otherwise the project's prefix is used. */
  lemma UserPrefixWins(prefix: Value, config: Value)
    ensures "prefix" in OwnEnumerable(config) ==> ProjectOptions(prefix, config)["prefix"] == OwnEnumerable(config)["prefix"]
    ensures "prefix" !in OwnEnumerable(config) ==> ProjectOptions(prefix, config)["prefix"] == prefix
  {
  }

  /** A function given as the config reaches both rewriters as their `transformUrl`, next to the project's prefix. */
  lemma FunctionConfig(prefix: Value, fn: nat)
    ensures ProjectOptions(prefix, NormalConfig(Fn(fn))) == map["prefix" := prefix, "transformUrl" := Fn(fn)]
  {
  }

  /** Without a config the rewriters see only the project's prefix. */
  lemma MissingConfig(prefix: Value, config: Value)
    requires !Truthy(config)
    ensures ProjectOptions(prefix, NormalConfig(config)) == map["prefix" := prefix]
  {
  }

  /** `new RewriteUrlStream(config)` */
  class RewriteUrlProjectStream {
    const config: Value

    constructor (config: Value)
      ensures this.config == NormalConfig(config)
    {
      this.config := NormalConfig(config);
    }

    /**
     * `_transform(project)`: both rewriters are registered and the project
     * is forwarded. A registry that is not an object makes the first
     * `transform` throw, before anything is registered.
     */
    method Transform(project: ProjectConfig) returns (r: Result<ProjectConfig>)
      modifies project
      ensures Get(old(project.props), "transforms").Obj? ==>
        r == Ok(project) &&
        project.props == old(project.props)["transforms" := Obj(WithRewriters(
          Get(old(project.props), "transforms").fields, ProjectOptions(Get(old(project.props), "prefix"), config)))]
      ensures !Get(old(project.props), "transforms").Obj? ==>
        r == Err(TypeErr) && project.props == old(project.props)
    {
      var options := ProjectOptions(Get(project.props, "prefix"), config);
      if Get(project.props, "transforms").Obj? {
        TwoRegistrations(project.props, options);
      }
      var c := project.Transform(HtmlFiles, Stream(HtmlRewriter(options)));
      if c.Throw? {
        return Err(c.error);
      }
      // The registry is an object now, so the second registration cannot throw.
      c := project.Transform(CssFiles, Stream(CssRewriter(options)));
      assert c.Normal?;
      return Ok(project);
    }
  }
}
