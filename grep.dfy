/**
 * The file grep stream: it runs a callback on the files whose relative path
 * passes a list of glob patterns (`!` marks a pattern that excludes) and
 * forwards every other file unchanged.
 */
module Grep {
  import opened Js
  import opened Paths
  import opened Records

  /** The first argument of `grep`: one pattern, or an array of them. */
  datatype PatternArg = Single(pattern: string) | Many(patterns: seq<string>)

  /** A pattern that is not an array is taken as a one-element list. */
  function PatternList(arg: PatternArg): seq<string>
  {
    match arg
    case Single(p) => [p]
    case Many(ps) => ps
  }

  /** `p[0] === '!'` */
  predicate IsNegation(p: string)
  {
    |p| > 0 && p[0] == '!'
  }

  /** The patterns that include, in order. */
  function Positive(ps: seq<string>): seq<string>
    decreases |ps|
  {
    if ps == [] then []
    else Positive(ps[..|ps| - 1]) + (if IsNegation(ps[|ps| - 1]) then [] else [ps[|ps| - 1]])
  }

  /** The patterns that exclude, in order, without their `!`. */
  function Negative(ps: seq<string>): seq<string>
    decreases |ps|
  {
    if ps == [] then []
    else Negative(ps[..|ps| - 1]) + (if IsNegation(ps[|ps| - 1]) then [ps[|ps| - 1][1..]] else [])
  }

  /** The setup loop: each pattern is pushed onto the negative or the positive list. */
  method Partition(ps: seq<string>) returns (positive: seq<string>, negative: seq<string>)
    ensures positive == Positive(ps) && negative == Negative(ps)
  {
    positive, negative := [], [];
    var i := 0;
    while i < |ps|
      invariant 0 <= i <= |ps|
      invariant positive == Positive(ps[..i]) && negative == Negative(ps[..i])
    {
      assert ps[..i + 1][..i] == ps[..i];
      if IsNegation(ps[i]) {
        negative := negative + [ps[i][1..]];
      } else {
        positive := positive + [ps[i]];
      }
      i := i + 1;
    }
    assert ps[..|ps|] == ps;
  }

  /** Each pattern lands in exactly one list. */
  lemma {:induction false} PartitionSizes(ps: seq<string>)
    ensures |Positive(ps)| + |Negative(ps)| == |ps|
    decreases |ps|
  {
    if ps != [] { PartitionSizes(ps[..|ps| - 1]); }
  }

  /** The positive list holds exactly the patterns that do not start with `!`. */
  lemma {:induction false} PositiveMembers(ps: seq<string>, p: string)
    ensures p in Positive(ps) <==> p in ps && !IsNegation(p)
    decreases |ps|
  {
    if ps != [] {
      var q := ps[..|ps| - 1];
      PositiveMembers(q, p);
      assert ps == q + [ps[|ps| - 1]];
    }
  }

  /** The negative list holds the patterns that start with `!`, with the `!` removed. */
  lemma {:induction false} NegativeMembers(ps: seq<string>, g: string)
    ensures g in Negative(ps) <==> "!" + g in ps
    decreases |ps|
  {
    if ps != [] {
      var q := ps[..|ps| - 1];
      var last := ps[|ps| - 1];
      NegativeMembers(q, g);
      assert ps == q + [last];
      if IsNegation(last) {
        assert last == "!" + last[1..];
        assert last[1..] == g <==> last == "!" + g;
      } else {
        assert last != "!" + g;
      }
    }
  }

  /** `matches(globs, str)`: some glob of the list matches. */
  function AnyMatch(globs: seq<string>, s: string, glob: Matcher): (r: bool)
    ensures r <==> exists i :: 0 <= i < |globs| && glob(globs[i], s)
    decreases |globs|
  {
    if globs == [] then false
    else if glob(globs[0], s) then true
    else
      var r := AnyMatch(globs[1..], s, glob);
      assert forall i :: 1 <= i < |globs| ==> globs[i] == globs[1..][i - 1];
      r
  }

  /** The allow/deny test on `file.relative`. */
  predicate Selected(positive: seq<string>, negative: seq<string>, rel: string, glob: Matcher)
    ensures Selected(positive, negative, rel, glob) ==> forall i :: 0 <= i < |negative| ==> !glob(negative[i], rel)
    ensures positive == [] && negative == [] ==> Selected(positive, negative, rel, glob)
    ensures (exists i :: 0 <= i < |positive| && glob(positive[i], rel)) && negative == [] ==>
      Selected(positive, negative, rel, glob)
  {
    (|positive| == 0 || AnyMatch(positive, rel, glob)) && !AnyMatch(negative, rel, glob)
  }

  /**
   * In terms of the pattern list itself: a path is selected iff the list has
   * no including pattern or one of them matches, and no excluding pattern
   * matches once its `!` is removed.
   */
  lemma SelectedIff(ps: seq<string>, rel: string, glob: Matcher)
    ensures Selected(Positive(ps), Negative(ps), rel, glob) <==>
      ((forall p :: p in ps ==> IsNegation(p)) || (exists p :: p in ps && !IsNegation(p) && glob(p, rel)))
      && (forall p :: p in ps && IsNegation(p) ==> !glob(p[1..], rel))
  {
    NoPositiveIff(ps);
    PositiveMatchIff(ps, rel, glob);
    NegativeMatchIff(ps, rel, glob);
  }

  lemma NoPositiveIff(ps: seq<string>)
    ensures |Positive(ps)| == 0 <==> forall p :: p in ps ==> IsNegation(p)
  {
    var pos := Positive(ps);
    if |pos| > 0 {
      PositiveMembers(ps, pos[0]);
    } else {
      forall p | p in ps ensures IsNegation(p) { PositiveMembers(ps, p); }
    }
  }

  lemma PositiveMatchIff(ps: seq<string>, rel: string, glob: Matcher)
    ensures AnyMatch(Positive(ps), rel, glob) <==> exists p :: p in ps && !IsNegation(p) && glob(p, rel)
  {
    var pos := Positive(ps);
    if AnyMatch(pos, rel, glob) {
      var i :| 0 <= i < |pos| && glob(pos[i], rel);
      PositiveMembers(ps, pos[i]);
    }
    if exists p :: p in ps && !IsNegation(p) && glob(p, rel) {
      var p :| p in ps && !IsNegation(p) && glob(p, rel);
      PositiveMembers(ps, p);
      var i :| 0 <= i < |pos| && pos[i] == p;
    }
  }

  lemma NegativeMatchIff(ps: seq<string>, rel: string, glob: Matcher)
    ensures AnyMatch(Negative(ps), rel, glob) <==> exists p :: p in ps && IsNegation(p) && glob(p[1..], rel)
  {
    var neg := Negative(ps);
    if AnyMatch(neg, rel, glob) {
      var i :| 0 <= i < |neg| && glob(neg[i], rel);
      NegativeMembers(ps, neg[i]);
      var p := "!" + neg[i];
      assert p in ps && IsNegation(p) && p[1..] == neg[i];
    }
    if exists p :: p in ps && IsNegation(p) && glob(p[1..], rel) {
      var p :| p in ps && IsNegation(p) && glob(p[1..], rel);
      assert p == "!" + p[1..];
      NegativeMembers(ps, p[1..]);
      var i :| 0 <= i < |neg| && neg[i] == p[1..];
    }
  }

  /** What a callback call does with the file, as far as the grep stream sees it. */
  datatype CallbackOutcome = Returns(step: Step) | Throws(error: JsError)

  /** Calling the function with identity `id` on a file. */
  type Invoke = (nat, FileRecord) -> CallbackOutcome

  /** A grep stream: its two glob lists and the callback it was given. */
  datatype GrepStream = GrepStream(positive: seq<string>, negative: seq<string>, callback: Value)

  /**
   * `grep(pattern, options, callback)`. A function in the second place is the
   * callback (the options are then dropped); the options are not used otherwise.
   */
  method MakeGrep(pattern: PatternArg, options: Value, callback: Value) returns (g: GrepStream)
    ensures pattern.Single? ==> g.positive == Positive([pattern.pattern]) && g.negative == Negative([pattern.pattern])
    ensures pattern.Many? ==> g.positive == Positive(pattern.patterns) && g.negative == Negative(pattern.patterns)
    ensures options.Fn? ==> g.callback == options
    ensures !options.Fn? ==> g.callback == callback
  {
    var cb := callback;
    if options.Fn? {
      cb := options;
    }
    var positive, negative := Partition(PatternList(pattern));
    g := GrepStream(positive, negative, cb);
  }

  /**
   * The stream's transform for one file: a selected file goes to the
   * callback, and what it throws becomes the stream error (a callback that
   * is not a function throws a TypeError when called); any other file is
   * forwarded unchanged.
   */
  function GrepStep(g: GrepStream, file: FileRecord, glob: Matcher, invoke: Invoke): (s: Step)
    ensures !Selected(g.positive, g.negative, Text(file.relative), glob) ==> s == Forward(file)
    ensures Selected(g.positive, g.negative, Text(file.relative), glob) ==>
      (if !g.callback.Fn? then s == Fail(TypeErr)
       else match invoke(g.callback.id, file)
            case Returns(step) => s == step
            case Throws(e) => s == Fail(e))
  {
    if !Selected(g.positive, g.negative, Text(file.relative), glob) then Forward(file)
    else if !g.callback.Fn? then Fail(TypeErr)
    else match invoke(g.callback.id, file)
      case Returns(step) => step
      case Throws(e) => Fail(e)
  }

  /** With only excluding patterns, a file is selected exactly when none of them matches. */
  lemma OnlyNegations(ps: seq<string>, rel: string, glob: Matcher)
    requires forall p :: p in ps ==> IsNegation(p)
    ensures Selected(Positive(ps), Negative(ps), rel, glob) <==> forall p :: p in ps && IsNegation(p) ==> !glob(p[1..], rel)
  {
    SelectedIff(ps, rel, glob);
  }

  /** The lists built for the html, css and `!about/index.html` pattern list of the grep tests. */
  lemma MixedPatternList()
    ensures Positive(["**/*.html", "**/*.css", "!about/index.html"]) == ["**/*.html", "**/*.css"]
    ensures Negative(["**/*.html", "**/*.css", "!about/index.html"]) == ["about/index.html"]
  {
    var ps := ["**/*.html", "**/*.css", "!about/index.html"];
    var p2, p1 := ps[..2], ps[..2][..1];
    assert p2 == ["**/*.html", "**/*.css"] && p1 == ["**/*.html"] && p1[..0] == [];
    assert IsNegation(ps[2]) && !IsNegation(p2[1]) && !IsNegation(p1[0]);
    assert Positive(p1) == ["**/*.html"] && Negative(p1) == [];
    assert Positive(p2) == ["**/*.html", "**/*.css"] && Negative(p2) == [];
    assert ps[2][1..] == "about/index.html";
  }
}
