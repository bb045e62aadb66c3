/**
 * The two error wrappers of the importer. Each one renames the error it
 * wraps after the file or the project being imported, copies the wrapped
 * error's own properties, and rebuilds the stack from the new message and
 * the throw site of the original stack.
 */
module Errors {
  import opened Js
  import opened Paths
  import opened Records

  /** The characters `String.prototype.trim` removes: white space and line terminators. */
  predicate IsJsSpace(c: char)
  {
    c == ' ' || c == '\t' || c == '\n' || c == '\r' || c == '\U{000B}' || c == '\U{000C}'
    || c == '\U{00A0}' || c == '\U{1680}' || ('\U{2000}' <= c <= '\U{200A}')
    || c == '\U{2028}' || c == '\U{2029}' || c == '\U{202F}' || c == '\U{205F}'
    || c == '\U{3000}' || c == '\U{FEFF}'
  }

  function TrimStart(s: string): (t: string)
    ensures |t| <= |s| && t == s[|s| - |t|..]
    ensures t == "" || !IsJsSpace(t[0])
    ensures forall j :: 0 <= j < |s| - |t| ==> IsJsSpace(s[j])
    decreases |s|
  {
    if s != "" && IsJsSpace(s[0]) then TrimStart(s[1..]) else s
  }

  function TrimEnd(s: string): (t: string)
    ensures |t| <= |s| && t == s[..|t|]
    ensures t == "" || !IsJsSpace(t[|t| - 1])
    ensures forall j :: |t| <= j < |s| ==> IsJsSpace(s[j])
    decreases |s|
  {
    if s != "" && IsJsSpace(s[|s| - 1]) then TrimEnd(s[..|s| - 1]) else s
  }

  /** `s.trim()` */
  function Trim(s: string): string
  {
    TrimEnd(TrimStart(s))
  }

  /** A separator of `split(/\n{2,}/)` starts at `i`. */
  predicate BreakAt(s: string, i: int)
  {
    0 <= i < |s| - 1 && s[i] == '\n' && s[i + 1] == '\n'
  }

  /** `s` holds no separator. */
  predicate NoBreak(s: string)
  {
    forall j :: 0 <= j < |s| ==> !BreakAt(s, j)
  }

  /** Where the first run of two or more newlines starts, or -1. */
  function FirstBreak(s: string): (i: int)
    ensures -1 <= i < |s|
    ensures i >= 0 ==> BreakAt(s, i)
    ensures forall j :: 0 <= j < (if i == -1 then |s| else i) ==> !BreakAt(s, j)
    decreases |s|
  {
    if |s| < 2 then -1
    else if s[0] == '\n' && s[1] == '\n' then 0
    else
      var k := FirstBreak(s[1..]);
      assert forall j :: 1 <= j < |s| - 1 ==> (BreakAt(s, j) <==> BreakAt(s[1..], j - 1));
      if k == -1 then -1 else k + 1
  }

  /** The end of the run of newlines that starts at `i`: the regular expression is greedy. */
  function RunEnd(s: string, i: nat): (j: nat)
    requires i <= |s|
    ensures i <= j <= |s|
    ensures forall m :: i <= m < j ==> s[m] == '\n'
    ensures j == |s| || s[j] != '\n'
    decreases |s| - i
  {
    if i < |s| && s[i] == '\n' then RunEnd(s, i + 1) else i
  }

  /** `s.split(/\n{2,}/)[0]`: the text before the first separator. */
  function Head(s: string): string
  {
    var k := FirstBreak(s);
    if k == -1 then s else s[..k]
  }

  /** `s.split(/\n{2,}/)[1]`, when there is a separator. */
  function Second(s: string): Option<string>
  {
    var k := FirstBreak(s);
    if k == -1 then None else Some(Head(s[RunEnd(s, k)..]))
  }

  /** `parts[1] || parts[0]`: the second block when it is there and not empty, else the first. */
  function StackTail(s: string): string
  {
    match Second(s)
    case Some(p) => if p != "" then p else Head(s)
    case None => Head(s)
  }

  /** `formatStackTrace(stacktrace, message)` */
  function FormatStackTrace(stack: string, message: string): (r: string)
    ensures |r| >= 7 + |StackTail(stack)| && r[..7] == "Error: "
    ensures r[|r| - |StackTail(stack)|..] == StackTail(stack) && NoBreak(StackTail(stack))
  {
    StackTailHasNoBreak(stack);
    "Error: " + Trim(message) + "\n\n" + StackTail(stack)
  }

  /**
   * `this[key] = v` followed by the copy of every own key of `err` except
   * `message`: a key `err` has itself overrides `v`.
   */
  function CopiedOver(key: string, v: Value, fields: ErrorFields): (r: ErrorFields)
    requires key != "message" && key != "stack"
    ensures r.Keys == fields.Keys + {key}
    ensures forall k :: k in fields ==> r[k] == fields[k]
    ensures key !in fields ==> r[key] == v
  {
    map[key := v] + fields
  }

  /** `new FileImportError(file, err)` */
  function FileImportError(file: FileRecord, err: JsError): (e: JsError)
    ensures e.kind == ErrorKind.FileImport
    ensures e.message == err.message + " in file " + AbsText(file.path) + "\n"
    ensures e.stack == FormatStackTrace(err.stack, e.message)
    ensures e.fields.Keys == err.fields.Keys + {"file"}
    ensures forall k :: k in err.fields ==> e.fields[k] == err.fields[k]
    ensures "file" !in err.fields ==> e.fields["file"] == Str(AbsText(file.path))
  {
    var path := AbsText(file.path);
    var message := err.message + " in file " + path + "\n";
    JsError(ErrorKind.FileImport, message, FormatStackTrace(err.stack, message), CopiedOver("file", Str(path), err.fields))
  }

  /** `new ProjectImportError(project, err)`, for a project whose `prefix` is `prefix`. */
  function ProjectImportError(prefix: Value, err: JsError): (e: JsError)
    ensures e.kind == ErrorKind.ProjectImport
    ensures e.message == err.message + " of project " + ToJsString(prefix) + "\n"
    ensures e.stack == FormatStackTrace(err.stack, e.message)
    ensures e.fields.Keys == err.fields.Keys + {"project"}
    ensures forall k :: k in err.fields ==> e.fields[k] == err.fields[k]
    ensures "project" !in err.fields ==> e.fields["project"] == prefix
  {
    var message := err.message + " of project " + ToJsString(prefix) + "\n";
    JsError(ErrorKind.ProjectImport, message, FormatStackTrace(err.stack, message), CopiedOver("project", prefix, err.fields))
  }

  /** No block of a split stack contains a separator. */
  lemma HeadHasNoBreak(s: string)
    ensures NoBreak(Head(s))
  {
    var k := FirstBreak(s);
    if k != -1 {
      var h := s[..k];
      forall j | 0 <= j < |h| ensures !BreakAt(h, j) {
        assert !BreakAt(s, j);
        if j + 1 < |h| { assert h[j] == s[j] && h[j + 1] == s[j + 1]; }
      }
    }
  }

  lemma StackTailHasNoBreak(s: string)
    ensures NoBreak(StackTail(s))
  {
    HeadHasNoBreak(s);
    var k := FirstBreak(s);
    if k != -1 {
      HeadHasNoBreak(s[RunEnd(s, k)..]);
    }
  }

  /** A slice of a string without a separator has none either. */
  lemma NoBreakSlice(s: string, i: nat, j: nat)
    requires i <= j <= |s| && NoBreak(s)
    ensures NoBreak(s[i..j])
  {
    var t := s[i..j];
    forall m | 0 <= m < |t| ensures !BreakAt(t, m) {
      if BreakAt(t, m) {
        assert t[m] == s[i + m] && t[m + 1] == s[i + m + 1];
        assert BreakAt(s, i + m);
      }
    }
  }

  lemma TrimNoBreak(m: string)
    requires NoBreak(m)
    ensures NoBreak(Trim(m))
  {
    var a := TrimStart(m);
    NoBreakSlice(m, |m| - |a|, |m|);
    assert a == m[|m| - |a|..|m|];
    var b := TrimEnd(a);
    NoBreakSlice(a, 0, |b|);
    assert b == a[0..|b|];
  }

  /** A string without a separator is a single block. */
  lemma NoBreakHead(s: string)
    requires NoBreak(s)
    ensures FirstBreak(s) == -1 && Head(s) == s
  {
    assert !BreakAt(s, FirstBreak(s));
  }

  /**
   * The first block of a rebuilt stack is the new message line, trimmed
   * (the message itself of no separator).
   */
  lemma FormatStackHead(stack: string, message: string)
    requires NoBreak(message)
    ensures Head(FormatStackTrace(stack, message)) == "Error: " + Trim(message)
  {
    TrimNoBreak(message);
    FormatFirstBreak(stack, message);
  }

  /** The first separator of a rebuilt stack is the one after the message line. */
  lemma FormatFirstBreak(stack: string, message: string)
    requires NoBreak(Trim(message))
    ensures FirstBreak(FormatStackTrace(stack, message)) == |"Error: " + Trim(message)|
  {
    var tm := Trim(message);
    var h := "Error: " + tm;
    var s := FormatStackTrace(stack, message);
    var n := |h|;
    assert s == h + "\n\n" + StackTail(stack);
    assert h[n - 1] != '\n' by {
      if tm == "" { assert h[n - 1] == ' '; }
      else { assert h[n - 1] == tm[|tm| - 1]; }
    }
    forall j | 0 <= j < n ensures !BreakAt(s, j) {
      if j < 7 {
        assert s[j] == "Error: "[j];
      } else if j < n - 1 {
        assert s[j] == tm[j - 7] && s[j + 1] == tm[j - 6];
        assert !BreakAt(tm, j - 7);
      } else {
        assert s[j] == h[n - 1];
      }
    }
    assert BreakAt(s, n);
    var i := FirstBreak(s);
    assert i != -1 && i <= n;
    assert i < n ==> !BreakAt(s, i);
  }

  /**
   * Wrapping an error again keeps its throw site: the block a rebuilt stack
   * ends with is the block the original stack was reduced to, when that
   * block is not empty and does not start with a newline.
   */
  lemma FormatKeepsThrowSite(stack: string, message: string)
    requires NoBreak(message)
    requires StackTail(stack) != "" && StackTail(stack)[0] != '\n'
    ensures StackTail(FormatStackTrace(stack, message)) == StackTail(stack)
  {
    var t := StackTail(stack);
    var h := "Error: " + Trim(message);
    TrimNoBreak(message);
    FormatFirstBreak(stack, message);
    RunAfterBreak(h, t);
    StackTailHasNoBreak(stack);
    NoBreakHead(t);
    assert Second(FormatStackTrace(stack, message)) == Some(t);
  }

  /** The separator `"\n\n"` before a block that does not start with a newline is exactly two long. */
  lemma RunAfterBreak(h: string, t: string)
    requires t != "" && t[0] != '\n'
    ensures RunEnd(h + "\n\n" + t, |h|) == |h| + 2
    ensures (h + "\n\n" + t)[|h| + 2..] == t
  {
    var s := h + "\n\n" + t;
    var n := |h|;
    assert s[n] == '\n' && s[n + 1] == '\n' && s[n + 2] == t[0];
    RunOfTwo(s, n);
  }

  lemma RunOfTwo(s: string, n: nat)
    requires n + 2 < |s| && s[n] == '\n' && s[n + 1] == '\n' && s[n + 2] != '\n'
    ensures RunEnd(s, n) == n + 2
  {
    assert RunEnd(s, n + 2) == n + 2;
    assert RunEnd(s, n + 1) == RunEnd(s, n + 2);
  }

  /** A file error rebuilds its stack on a message naming the file, keeping the original throw site. */
  lemma FileImportErrorKeepsThrowSite(file: FileRecord, err: JsError)
    requires NoBreak(err.message + " in file " + AbsText(file.path) + "\n")
    requires StackTail(err.stack) != "" && StackTail(err.stack)[0] != '\n'
    ensures StackTail(FileImportError(file, err).stack) == StackTail(err.stack)
    ensures Head(FileImportError(file, err).stack) == "Error: " + Trim(FileImportError(file, err).message)
  {
    var e := FileImportError(file, err);
    FormatKeepsThrowSite(err.stack, e.message);
    FormatStackHead(err.stack, e.message);
  }
}
