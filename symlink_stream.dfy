/**
 * The symlink stage: for each project it registers a marker for every
 * file with an extension, and the marker flags each file it sees to be
 * linked into the output instead of copied.
 */
module SymlinkStream {
  import opened Js
  import opened Records
  import opened Project
  import opened FileTransform
  import opened ExportProject

  /** The pattern the marker is registered for: every file with an extension. */
  const MarkedFiles := "**/*.*"

  /** `FileSymlinkStream._transform(file)`: the file is flagged for linking; nothing else about it changes. */
  function Mark(file: FileRecord): (r: FileRecord)
    ensures r.symlink == Bool(true)
    ensures r.path == file.path && r.relative == file.relative && r.history == file.history
    ensures r.contents == file.contents && r.prefix == file.prefix
    ensures r.url == file.url && r.originalUrl == file.originalUrl && r.project == file.project
  {
    file.(symlink := Bool(true))
  }

  /** The marker as a stage of a file pipeline: it pushes the flagged file and never fails. */
  function MarkStage(): Stage
  {
    file => Ok([Mark(file)])
  }

  /** A flagged file goes down the link branch of the export, never the copy branch. */
  lemma MarkedIsLinked(file: FileRecord)
    ensures Keep(true, Mark(file)) && !Keep(false, Mark(file))
  {
  }

  /** Marking twice is marking once. */
  lemma MarkIdempotent(file: FileRecord)
    ensures Mark(Mark(file)) == Mark(file)
  {
  }

  /** The files a marker has flagged, in order. */
  function Marked(fs: seq<FileRecord>): (r: seq<FileRecord>)
    ensures |r| == |fs| && forall i :: 0 <= i < |fs| ==> r[i] == Mark(fs[i])
  {
    seq(|fs|, i requires 0 <= i < |fs| => Mark(fs[i]))
  }

  /** Running the marker over a batch of files gives them all back, flagged, in order. */
  lemma {:induction false} MarkerPushesAll(fs: seq<FileRecord>)
    ensures ApplyStage(MarkStage(), fs) == Ok(Marked(fs))
    decreases |fs|
  {
    if fs != [] {
      MarkerPushesAll(fs[1..]);
      assert Marked(fs) == [Mark(fs[0])] + Marked(fs[1..]);
    }
  }

  /** Every file the marker has seen is linked by the export and none is copied. */
  lemma {:induction false} MarkedAllLinked(fs: seq<FileRecord>)
    ensures Kept(true, Marked(fs)) == Marked(fs)
    ensures Kept(false, Marked(fs)) == []
    decreases |fs|
  {
    if fs != [] {
      var q := fs[..|fs| - 1];
      MarkedAllLinked(q);
      assert Marked(fs)[..|fs| - 1] == Marked(q);
    }
  }

  /**
   * Registering the marker on a project whose registry is an object puts
   * it under the pattern for files with an extension, replacing any earlier entry for it, and
   * leaves every other pattern and property as it was.
   */
  lemma MarkerRegistered(props: map<string, Value>, marker: nat)
    requires Get(props, "transforms").Obj?
    ensures Transformed(props, MarkedFiles, Stream(SymlinkMarker(marker))).0 == Normal(Undefined)
    ensures Transformed(props, MarkedFiles, Stream(SymlinkMarker(marker))).1 ==
      props["transforms" := Obj(Get(props, "transforms").fields[MarkedFiles := Stream(SymlinkMarker(marker))])]
    ensures forall k :: k in Get(props, "transforms").fields && k != MarkedFiles ==>
      Get(Transformed(props, MarkedFiles, Stream(SymlinkMarker(marker))).1, "transforms").fields[k]
        == Get(props, "transforms").fields[k]
  {
    RegisterOverwrites(props, MarkedFiles, Stream(SymlinkMarker(marker)));
  }

  /** `new SymlinkStream()`: a project stage that registers a new marker on each project. */
  class SymlinkProjectStream {
    /** The identities of the markers created so far; `new FileSymlinkStream()` is a fresh one each time. */
    var markers: nat

    constructor ()
      ensures markers == 0
    {
      markers := 0;
    }

    /**
     * `_transform(project)`: register the marker and forward the project.
     * A registry that is not an object makes `transform` throw, and the
     * error leaves the stage before the project is forwarded.
     */
    method Transform(project: ProjectConfig) returns (r: Result<ProjectConfig>)
      modifies this, project
      ensures markers == old(markers) + 1
      ensures Get(old(project.props), "transforms").Obj? ==>
        r == Ok(project) &&
        project.props == old(project.props)["transforms" :=
          Obj(Get(old(project.props), "transforms").fields[MarkedFiles := Stream(SymlinkMarker(old(markers)))])]
      ensures !Get(old(project.props), "transforms").Obj? ==>
        r == Err(TypeErr) && project.props == old(project.props)
    {
      var marker := Stream(SymlinkMarker(markers));
      markers := markers + 1;
      var c := project.Transform(MarkedFiles, marker);
      if c.Throw? {
        return Err(c.error);
      }
      return Ok(project);
    }
  }
}
