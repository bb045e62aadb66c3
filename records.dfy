/**
 * The file records (vinyl files) that flow through the import streams, and
 * what one stream step does with one input.
 */
module Records {
  import opened Js
  import opened Paths

  /**
   * A vinyl file: its absolute `path`, its `relative` path below the glob
   * base, its `history` of paths (the first one is where it was read from),
   * its contents by identity, and the properties the importer sets on it.
   */
  datatype FileRecord = FileRecord(
    path: Path,
    relative: Path,
    history: seq<Path>,
    contents: nat,
    symlink: Value,
    prefix: Value,
    url: Value,
    originalUrl: Value,
    project: map<string, Value>)

  /** One call of a stream's transform for one input: the files it pushes, and the error it passes to `next`. */
  datatype Step = Step(pushed: seq<FileRecord>, err: Option<JsError>)

  /** `next(null, file)`: the file is forwarded unchanged. */
  function Forward(file: FileRecord): (s: Step)
    ensures s.pushed == [file] && s.err.None?
  {
    Step([file], None)
  }

  /** `next(err)`: nothing is forwarded and the error becomes the stream error. */
  function Fail(e: JsError): (s: Step)
    ensures s.pushed == [] && s.err == Some(e)
  {
    Step([], Some(e))
  }
}
