/**
 * The symlink finder: a walk over a directory tree that lists every entry
 * whose `lstat` reports a symbolic link, relative to the folder the walk
 * starts in. It descends into real folders only, never through a link.
 *
 * The file system below the starting folder is a tree: each folder is a
 * listing (or the error `readdir` reports for it), each entry carries the
 * outcome of its `lstat`.
 */
module FindSymlinks {
  import opened Js
  import opened Paths

  /** What `lstat` reports for one entry. */
  datatype Kind =
    | SymbolicLink
    | Folder(listing: Listing)
    | OtherFile                   // a plain file, a socket, a device: neither a link nor a folder
    | StatFailed(error: JsError)

  datatype Entry = Entry(name: string, kind: Kind)

  /** What `readdir` reports for one folder. */
  datatype Listing = Listed(entries: seq<Entry>) | Unreadable(error: JsError)

  /** Every name in the tree is a name `readdir` can report: a plain segment. */
  predicate WellFormed(l: Listing)
    decreases l
  {
    match l
    case Unreadable(_) => true
    case Listed(es) =>
      forall i :: 0 <= i < |es| ==>
        IsSegment(es[i].name) && (es[i].kind.Folder? ==> WellFormed(es[i].kind.listing))
  }

  /** The first `lstat` failure of a listing, in listing order. */
  function FirstStatError(es: seq<Entry>): (r: Option<JsError>)
    ensures r.Some? <==> exists i :: 0 <= i < |es| && es[i].kind.StatFailed?
    ensures r.Some? ==> exists i :: 0 <= i < |es| && es[i].kind == StatFailed(r.value)
    decreases |es|
  {
    if es == [] then None
    else if es[0].kind.StatFailed? then Some(es[0].kind.error)
    else
      var r := FirstStatError(es[1..]);
      assert forall i :: 1 <= i < |es| ==> es[1..][i - 1] == es[i];
      r
  }

  /** The relative paths of a listing's own links, `path.join(dir, name)`, in listing order. */
  function OwnLinks(dir: string, es: seq<Entry>): (r: seq<string>)
    ensures |r| <= |es|
    decreases |es|
  {
    if es == [] then []
    else (if es[0].kind.SymbolicLink? then [JoinText(dir, es[0].name)] else []) + OwnLinks(dir, es[1..])
  }

  /**
   * `walk(dir)` on the folder listed by `l`: the folder's own links, then
   * the results of its subfolders in listing order. Any `readdir` or
   * `lstat` failure rejects the whole walk.
   */
  function Walk(dir: string, l: Listing): (r: Result<seq<string>>)
    ensures l.Unreadable? ==> r == Err(l.error)
    ensures l.Listed? && FirstStatError(l.entries).Some? ==> r == Err(FirstStatError(l.entries).value)
    ensures r.Ok? ==>
      l.Listed? && |OwnLinks(dir, l.entries)| <= |r.value| && r.value[..|OwnLinks(dir, l.entries)|] == OwnLinks(dir, l.entries)
    decreases l
  {
    match l
    case Unreadable(e) => Err(e)
    case Listed(es) =>
      match FirstStatError(es)
      case Some(e) => Err(e)
      case None =>
        match WalkFolders(dir, es)
        case Err(e) => Err(e)
        case Ok(sub) => Ok(OwnLinks(dir, es) + sub)
  }

  /** `Promise.all(dirs.map(walk))`, concatenated: the walks of the folder entries of `es`, in order. */
  function WalkFolders(dir: string, es: seq<Entry>): (r: Result<seq<string>>)
    ensures (forall i :: 0 <= i < |es| ==> !es[i].kind.Folder?) ==> r == Ok([])
    decreases es
  {
    if es == [] then Ok([])
    else
      assert forall i :: 1 <= i < |es| ==> es[1..][i - 1] == es[i];
      var head := if es[0].kind.Folder? then Walk(JoinText(dir, es[0].name), es[0].kind.listing) else Ok([]);
      match head
      case Err(e) => Err(e)
      case Ok(h) =>
        match WalkFolders(dir, es[1..])
        case Err(e) => Err(e)
        case Ok(t) =>
          assert (forall i :: 0 <= i < |es| ==> !es[i].kind.Folder?) ==> h == [] && t == [] && h + t == [];
          Ok(h + t)
  }

  /** `symlinks.filter(Boolean)` */
  function NonEmpty(s: seq<string>): (r: seq<string>)
    ensures forall i :: 0 <= i < |r| ==> r[i] != ""
    ensures forall x :: x in r <==> x in s && x != ""
    decreases |s|
  {
    if s == [] then []
    else (if s[0] != "" then [s[0]] else []) + NonEmpty(s[1..])
  }

  /** The exported finder: the walk from the starting folder, without empty paths. */
  function Find(root: Listing): (r: Result<seq<string>>)
    ensures r.Err? <==> Walk("", root).Err?
    ensures r.Ok? ==> forall i :: 0 <= i < |r.value| ==> r.value[i] != ""
  {
    match Walk("", root)
    case Err(e) => Err(e)
    case Ok(links) => Ok(NonEmpty(links))
  }

  // ---------------------------------------------------------------------
  // The reference definitions: where the tree fails, and where its links are.

  /** Some folder of the tree cannot be listed, or some entry of a listed folder cannot be stat'ed. */
  predicate Fails(l: Listing)
    decreases l
  {
    match l
    case Unreadable(_) => true
    case Listed(es) =>
      exists i :: 0 <= i < |es| && (es[i].kind.StatFailed? || FolderFails(es[i]))
  }

  predicate FolderFails(e: Entry)
    decreases e, 0
  {
    e.kind.Folder? && Fails(e.kind.listing)
  }

  /** The path `p`, looked up from the folder listed by `l` through folders only, names a link. */
  predicate IsLinkAt(l: Listing, p: Path)
    decreases |p|
  {
    l.Listed? && p != [] &&
    exists i :: 0 <= i < |l.entries| && IsLinkVia(l.entries[i], p)
  }

  /** The entry `e` is the first step of `p`: the link itself, or a folder holding the rest of `p`. */
  predicate IsLinkVia(e: Entry, p: Path)
    requires p != []
    decreases |p|, 0
  {
    e.name == p[0] &&
    if |p| == 1 then e.kind.SymbolicLink?
    else e.kind.Folder? && IsLinkAt(e.kind.listing, p[1..])
  }

  // ---------------------------------------------------------------------
  // Properties of the walk.

  /** `path.join` never gives an empty string, so `filter(Boolean)` drops nothing. */
  lemma JoinNonEmpty(a: string, b: string)
    ensures JoinText(a, b) != ""
  {
  }

  lemma {:induction false} OwnLinksNonEmpty(dir: string, es: seq<Entry>)
    ensures forall i :: 0 <= i < |OwnLinks(dir, es)| ==> OwnLinks(dir, es)[i] != ""
    decreases |es|
  {
    if es != [] {
      OwnLinksNonEmpty(dir, es[1..]);
      JoinNonEmpty(dir, es[0].name);
    }
  }

  lemma {:induction false} WalkNonEmpty(dir: string, l: Listing)
    ensures Walk(dir, l).Ok? ==> forall i :: 0 <= i < |Walk(dir, l).value| ==> Walk(dir, l).value[i] != ""
    decreases l
  {
    if l.Listed? && FirstStatError(l.entries).None? {
      OwnLinksNonEmpty(dir, l.entries);
      WalkFoldersNonEmpty(dir, l.entries);
    }
  }

  lemma {:induction false} WalkFoldersNonEmpty(dir: string, es: seq<Entry>)
    ensures WalkFolders(dir, es).Ok? ==>
      forall i :: 0 <= i < |WalkFolders(dir, es).value| ==> WalkFolders(dir, es).value[i] != ""
    decreases es
  {
    if es != [] {
      if es[0].kind.Folder? {
        WalkNonEmpty(JoinText(dir, es[0].name), es[0].kind.listing);
      }
      WalkFoldersNonEmpty(dir, es[1..]);
    }
  }

  /** The final filter changes nothing: the finder returns exactly what the walk found. */
  lemma FindIsWalk(root: Listing)
    ensures Find(root) == Walk("", root)
  {
    WalkNonEmpty("", root);
    if Walk("", root).Ok? {
      NonEmptyKeepsAll(Walk("", root).value);
    }
  }

  lemma {:induction false} NonEmptyKeepsAll(s: seq<string>)
    requires forall i :: 0 <= i < |s| ==> s[i] != ""
    ensures NonEmpty(s) == s
    decreases |s|
  {
    if s != [] {
      NonEmptyKeepsAll(s[1..]);
    }
  }

  /** The walk rejects exactly when some folder of the tree cannot be listed or some entry cannot be stat'ed. */
  lemma {:induction false} WalkFailsIff(dir: string, l: Listing)
    ensures Walk(dir, l).Err? <==> Fails(l)
    decreases l
  {
    if l.Listed? {
      var es := l.entries;
      if FirstStatError(es).None? {
        WalkFoldersFailsIff(dir, es);
        assert (exists i :: 0 <= i < |es| && FolderFails(es[i])) <==> Fails(l);
      }
    }
  }

  lemma {:induction false} WalkFoldersFailsIff(dir: string, es: seq<Entry>)
    ensures WalkFolders(dir, es).Err? <==> exists i :: 0 <= i < |es| && FolderFails(es[i])
    decreases es
  {
    if es != [] {
      if es[0].kind.Folder? {
        WalkFailsIff(JoinText(dir, es[0].name), es[0].kind.listing);
      }
      WalkFoldersFailsIff(dir, es[1..]);
      assert forall i :: 1 <= i < |es| ==> es[1..][i - 1] == es[i];
      if WalkFolders(dir, es).Err? && !FolderFails(es[0]) {
        var j :| 0 <= j < |es[1..]| && FolderFails(es[1..][j]);
        assert FolderFails(es[j + 1]);
      }
    }
  }

  /** With no subfolders the walk gives the folder's own links and nothing else. */
  lemma {:induction false} NoSubfolders(dir: string, es: seq<Entry>)
    requires forall i :: 0 <= i < |es| ==> !es[i].kind.Folder? && !es[i].kind.StatFailed?
    ensures Walk(dir, Listed(es)) == Ok(OwnLinks(dir, es))
  {
    NoFolders(dir, es);
    assert FirstStatError(es).None?;
    var own, none: seq<string> := OwnLinks(dir, es), [];
    assert own + none == own;
  }

  lemma {:induction false} NoFolders(dir: string, es: seq<Entry>)
    requires forall i :: 0 <= i < |es| ==> !es[i].kind.Folder?
    ensures WalkFolders(dir, es).Ok? && WalkFolders(dir, es).value == []
    decreases es
  {
    if es != [] {
      assert forall i :: 1 <= i < |es| ==> es[1..][i - 1] == es[i];
      NoFolders(dir, es[1..]);
      var none: seq<string> := [];
      assert none + none == none;
      assert WalkFolders(dir, es) == Ok(none);
    }
  }

  /** A successful walk starts with the folder's own links, in listing order, before anything found below. */
  lemma OwnLinksFirst(dir: string, es: seq<Entry>)
    requires Walk(dir, Listed(es)).Ok?
    ensures |OwnLinks(dir, es)| <= |Walk(dir, Listed(es)).value|
    ensures Walk(dir, Listed(es)).value[..|OwnLinks(dir, es)|] == OwnLinks(dir, es)
  {
  }

  /** `path.join` of a clean relative folder and a segment is the rendering of the longer path. */
  lemma JoinSegment(d: Path, x: string)
    requires Clean(d) && IsSegment(x)
    ensures JoinText(Text(d), x) == Text(d + [x])
  {
    if d == [] {
      SplitSingle("", x);
      assert "" + Text([x]) == x;
      NormFoldClean([], [x], true);
      assert [] + [x] == [x];
    } else {
      JoinRelative(d, [x]);
    }
  }

  /** `s` renders the path below `d` of one of the link entries of `es`. */
  ghost predicate OwnHit(d: Path, es: seq<Entry>, s: string)
  {
    exists i :: 0 <= i < |es| && es[i].kind.SymbolicLink? && s == Text(d + [es[i].name])
  }

  /** `s` renders the path below `d` of a link found through the folder entry `e`. */
  ghost predicate BelowVia(d: Path, e: Entry, s: string)
  {
    e.kind.Folder? && exists p :: IsLinkAt(e.kind.listing, p) && s == Text(d + [e.name] + p)
  }

  ghost predicate BelowHit(d: Path, es: seq<Entry>, s: string)
  {
    exists i :: 0 <= i < |es| && BelowVia(d, es[i], s)
  }

  /** `s` renders the path below `d` of a link of the tree `l`. */
  ghost predicate Found(d: Path, l: Listing, s: string)
  {
    exists p :: IsLinkAt(l, p) && s == Text(d + p)
  }

  /** The own links of a listing are the paths of its link entries. */
  lemma {:induction false} OwnLinksAre(d: Path, es: seq<Entry>, s: string)
    requires Clean(d) && forall i :: 0 <= i < |es| ==> IsSegment(es[i].name)
    ensures s in OwnLinks(Text(d), es) <==> OwnHit(d, es, s)
    decreases |es|
  {
    if es != [] {
      var rest := es[1..];
      assert forall i :: 0 <= i < |rest| ==> rest[i] == es[i + 1];
      OwnLinksAre(d, rest, s);
      JoinSegment(d, es[0].name);
      assert s in OwnLinks(Text(d), es) <==>
        (es[0].kind.SymbolicLink? && s == Text(d + [es[0].name])) || s in OwnLinks(Text(d), rest);
      OwnHitCons(d, es, s);
    }
  }

  lemma OwnHitCons(d: Path, es: seq<Entry>, s: string)
    requires es != []
    ensures OwnHit(d, es, s) <==> (es[0].kind.SymbolicLink? && s == Text(d + [es[0].name])) || OwnHit(d, es[1..], s)
  {
    var rest := es[1..];
    if OwnHit(d, rest, s) {
      var j :| 0 <= j < |rest| && rest[j].kind.SymbolicLink? && s == Text(d + [rest[j].name]);
      assert es[j + 1] == rest[j];
    }
    if OwnHit(d, es, s) && !(es[0].kind.SymbolicLink? && s == Text(d + [es[0].name])) {
      var j :| 0 <= j < |es| && es[j].kind.SymbolicLink? && s == Text(d + [es[j].name]);
      assert rest[j - 1] == es[j];
    }
  }

  /**
   * Soundness and completeness: a successful walk from the folder `d`
   * finds a path exactly when that path, looked up through folders only,
   * names a link; and it reports it as `d` joined with that path.
   */
  lemma {:induction false} WalkFindsLinks(d: Path, l: Listing, s: string)
    requires Clean(d) && WellFormed(l) && Walk(Text(d), l).Ok?
    ensures s in Walk(Text(d), l).value <==> Found(d, l, s)
    decreases l
  {
    var es := l.entries;
    OwnLinksAre(d, es, s);
    WalkFoldersFindLinks(d, es, s);
    if OwnHit(d, es, s) { OwnHitFound(d, l, s); }
    if BelowHit(d, es, s) { BelowHitFound(d, l, s); }
    if Found(d, l, s) { FoundIsHit(d, l, s); }
  }

  lemma OwnHitFound(d: Path, l: Listing, s: string)
    requires l.Listed? && OwnHit(d, l.entries, s)
    ensures Found(d, l, s)
  {
    var es := l.entries;
    var i :| 0 <= i < |es| && es[i].kind.SymbolicLink? && s == Text(d + [es[i].name]);
    assert IsLinkVia(es[i], [es[i].name]);
    assert IsLinkAt(l, [es[i].name]);
  }

  lemma BelowHitFound(d: Path, l: Listing, s: string)
    requires l.Listed? && BelowHit(d, l.entries, s)
    ensures Found(d, l, s)
  {
    var es := l.entries;
    var i :| 0 <= i < |es| && BelowVia(d, es[i], s);
    var p :| IsLinkAt(es[i].kind.listing, p) && s == Text(d + [es[i].name] + p);
    var q := [es[i].name] + p;
    assert q[1..] == p;
    assert IsLinkVia(es[i], q);
    assert IsLinkAt(l, q) && d + q == d + [es[i].name] + p;
  }

  lemma FoundIsHit(d: Path, l: Listing, s: string)
    requires l.Listed? && Found(d, l, s)
    ensures OwnHit(d, l.entries, s) || BelowHit(d, l.entries, s)
  {
    var es := l.entries;
    var p :| IsLinkAt(l, p) && s == Text(d + p);
    var i :| 0 <= i < |es| && IsLinkVia(es[i], p);
    if |p| == 1 {
      assert p == [es[i].name];
    } else {
      assert p == [es[i].name] + p[1..];
      assert d + p == d + [es[i].name] + p[1..];
      assert BelowVia(d, es[i], s);
    }
  }

  lemma {:induction false} WalkFoldersFindLinks(d: Path, es: seq<Entry>, s: string)
    requires Clean(d) && WalkFolders(Text(d), es).Ok?
    requires forall i :: 0 <= i < |es| ==>
      IsSegment(es[i].name) && (es[i].kind.Folder? ==> WellFormed(es[i].kind.listing))
    ensures s in WalkFolders(Text(d), es).value <==> BelowHit(d, es, s)
    decreases es
  {
    if es != [] {
      var e := es[0];
      var rest := es[1..];
      assert forall i :: 1 <= i < |es| ==> rest[i - 1] == es[i];
      WalkFoldersFindLinks(d, rest, s);
      if e.kind.Folder? {
        JoinSegment(d, e.name);
        assert Clean(d + [e.name]);
        WalkFindsLinks(d + [e.name], e.kind.listing, s);
      }
      assert s in WalkFolders(Text(d), es).value <==> BelowVia(d, e, s) || BelowHit(d, rest, s);
      if BelowHit(d, rest, s) {
        var i :| 0 <= i < |rest| && BelowVia(d, rest[i], s);
        assert rest[i] == es[i + 1];
      }
      if BelowHit(d, es, s) && !BelowVia(d, e, s) {
        var i :| 0 <= i < |es| && BelowVia(d, es[i], s);
        assert rest[i - 1] == es[i];
      }
    }
  }
}
