/**
 * `java.io.File` on a Unix file system, as far as the repository code uses it: building a file
 * from a path string, its name, its parent, resolving a child, making it absolute, and the
 * ancestor-or-self test the directory choosers share.
 */
module JavaFiles {
  import opened Wrappers
  import opened JavaStrings

  /**
   * A file's path in the normal form `new File(s)` keeps: whether it starts at the root, and its
   * names (non-empty, free of '/'). Two files are `equals` exactly when their paths are.
   */
  datatype Path = Path(absolute: bool, names: seq<string>)

  predicate WellFormed(p: Path)
  {
    forall k :: 0 <= k < |p.names| ==> p.names[k] != "" && '/' !in p.names[k]
  }

  /** The non-empty pieces, in order. */
  function NonEmpty(parts: seq<string>): (r: seq<string>)
    ensures forall k :: 0 <= k < |r| ==> r[k] != "" && r[k] in parts
    decreases |parts|
  {
    if parts == [] then []
    else if parts[0] == "" then NonEmpty(parts[1..])
    else [parts[0]] + NonEmpty(parts[1..])
  }

  lemma {:induction false} NonEmptyKeepsNonEmpty(parts: seq<string>)
    requires forall k :: 0 <= k < |parts| ==> parts[k] != ""
    ensures NonEmpty(parts) == parts
    decreases |parts|
  {
    if parts != [] {
      NonEmptyKeepsNonEmpty(parts[1..]);
    }
  }

  /** `new File(s)`: repeated separators collapse and a trailing separator is dropped. */
  function FileOf(s: string): (p: Path)
    ensures WellFormed(p)
    ensures p.absolute <==> StartsWith(s, "/")
  {
    var pieces := SplitAll(s, '/');
    var names := NonEmpty(pieces);
    assert forall k :: 0 <= k < |names| ==> '/' !in names[k] by {
      forall k | 0 <= k < |names|
        ensures '/' !in names[k]
      {
        assert names[k] in pieces;
      }
    }
    Path(|s| > 0 && s[0] == '/', names)
  }

  /** `getPath()`: the names joined with '/', after a leading '/' for an absolute file. */
  function PathText(p: Path): string
  {
    (if p.absolute then "/" else "") + Join(p.names, '/')
  }

  /** The path text of a well-formed path builds the same file back. */
  lemma FileOfPathText(p: Path)
    requires WellFormed(p)
    ensures FileOf(PathText(p)) == p
  {
    var joined := Join(p.names, '/');
    var pieces := if p.names == [] then [""] else p.names;
    assert SplitAll(joined, '/') == pieces by {
      if p.names != [] {
        SplitAllJoin(p.names, '/');
      }
    }
    NonEmptyKeepsNonEmpty(p.names);
    assert NonEmpty(pieces) == p.names;
    if p.absolute {
      var s := PathText(p);
      assert s == "/" + joined;
      assert s[1..] == joined;
      assert SplitAll(s, '/') == [""] + pieces;
      assert ([""] + pieces)[1..] == pieces;
    } else if p.names != [] {
      assert PathText(p) == joined;
      assert p.names[0] != "" && '/' !in p.names[0];
      assert joined[0] == p.names[0][0];
    }
  }

  /** A path string names the same file after one round through `getPath()`. */
  lemma NormalFormIsStable(s: string)
    ensures FileOf(PathText(FileOf(s))) == FileOf(s)
  {
    FileOfPathText(FileOf(s));
  }

  /** `getName()`: the last name, or "" for the root and the empty path. */
  function Name(p: Path): (r: string)
    ensures p.names != [] ==> r == p.names[|p.names| - 1]
    ensures p.names == [] ==> r == ""
  {
    if p.names == [] then "" else p.names[|p.names| - 1]
  }

  /**
   * `getParentFile()`: the path without its last name; the parent of "/a" is "/", and the root
   * and a single relative name have none.
   */
  function Parent(p: Path): (r: Option<Path>)
    ensures r.None? <==> p.names == [] || (|p.names| == 1 && !p.absolute)
    ensures r.Some? ==>
      (r.value.absolute == p.absolute && r.value.names == p.names[..|p.names| - 1])
  {
    if p.names == [] || (|p.names| == 1 && !p.absolute) then None
    else Some(Path(p.absolute, p.names[..|p.names| - 1]))
  }

  /** `getParent()` as a string. */
  function ParentText(p: Path): Option<string>
  {
    match Parent(p)
    case None => None
    case Some(q) => Some(PathText(q))
  }

  /** `new File(parent, child)`: an empty parent stands for the root. */
  function Child(parent: string, child: string): (r: Path)
    ensures r.names == (if parent == "" then [] else FileOf(parent).names) + FileOf(child).names
    ensures WellFormed(r)
  {
    if parent == "" then Path(true, FileOf(child).names)
    else
      var p := FileOf(parent);
      Path(p.absolute, p.names + FileOf(child).names)
  }

  /** `getAbsoluteFile()`: a relative path is resolved against the working directory. */
  function Absolute(p: Path, userDir: Path): (r: Path)
    ensures r.absolute
    ensures p.absolute ==> r == p
    ensures !p.absolute ==> r.names == userDir.names + p.names
  {
    if p.absolute then p else Path(true, userDir.names + p.names)
  }

  /** `getAbsolutePath()`. */
  function AbsolutePath(p: Path, userDir: Path): string
  {
    PathText(Absolute(p, userDir))
  }

  /**
   * `isSubfile(root, selection)` of the directory model and the directory chooser: walk up the
   * parents of the selection until it equals the root or runs out.
   */
  function IsSubfile(root: Path, selection: Option<Path>): bool
    decreases if selection.Some? then |selection.value.names| + 1 else 0
  {
    if selection.None? || (!selection.value.absolute && selection.value.names == []) then false
    else if selection.value == root then true
    else IsSubfile(root, Parent(selection.value))
  }

  /** The ancestor-or-self relation `IsSubfile` decides. */
  predicate AncestorOrSelf(root: Path, s: Path)
  {
    s.absolute == root.absolute && root.names <= s.names && (root.absolute || root.names != [])
  }

  /** `isSubfile` holds exactly when the root is the selection or one of its ancestors. */
  lemma {:induction false} IsSubfileIsAncestorOrSelf(root: Path, s: Path)
    ensures IsSubfile(root, Some(s)) <==> AncestorOrSelf(root, s)
    decreases |s.names|
  {
    if !s.absolute && s.names == [] {
    } else if s == root {
    } else {
      match Parent(s)
      case None =>
        assert !AncestorOrSelf(root, s);
      case Some(q) =>
        IsSubfileIsAncestorOrSelf(root, q);
        var n := |s.names|;
        assert s.names == q.names + [s.names[n - 1]];
        if root.names <= s.names && root.absolute == s.absolute {
          assert root.names != s.names;
          assert root.names <= q.names;
        }
    }
  }

  /** A null selection is under no root. */
  lemma NoSelectionIsUnderNoRoot(root: Path)
    ensures !IsSubfile(root, None)
  {
  }
}
