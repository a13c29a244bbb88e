/**
 * The directory chooser of the repository pages: the list of roots it offers, the root and the
 * directory it opens on, and what a click in the file listing or the breadcrumbs does.
 */
module GeogigDirectoryChooser {
  import opened Wrappers
  import opened JavaFiles

  /**
   * The roots in the order the drop-down shows them: the data directory, then the user home
   * when it is known, then the file system roots (`File.listRoots()`, already sorted).
   */
  function Roots(dataDirectory: Path, userHome: Option<Path>, systemRoots: seq<Path>): (r: seq<Path>)
    ensures |r| >= 1 && r[0] == dataDirectory
    ensures userHome.Some? ==> |r| >= 2 && r[1] == userHome.value
    ensures |r| == 1 + (if userHome.Some? then 1 else 0) + |systemRoots|
    ensures r[|r| - |systemRoots|..] == systemRoots
  {
    [dataDirectory] + (if userHome.Some? then [userHome.value] else []) + systemRoots
  }

  /** The first root that is the selection or one of its ancestors. */
  function FirstAncestor(roots: seq<Path>, selection: Path): Option<Path>
    decreases |roots|
  {
    if roots == [] then None
    else if AncestorOrSelf(roots[0], selection) then Some(roots[0])
    else FirstAncestor(roots[1..], selection)
  }

  /**
   * `FirstAncestor` finds a root exactly when some root is an ancestor-or-self of the selection,
   * and the root it finds is the earliest such one.
   */
  lemma {:induction false} FirstAncestorIsFirst(roots: seq<Path>, selection: Path)
    ensures FirstAncestor(roots, selection).None? <==>
      forall i :: 0 <= i < |roots| ==> !AncestorOrSelf(roots[i], selection)
    ensures FirstAncestor(roots, selection).Some? ==>
      exists i :: 0 <= i < |roots| && roots[i] == FirstAncestor(roots, selection).value
        && AncestorOrSelf(roots[i], selection)
        && forall j :: 0 <= j < i ==> !AncestorOrSelf(roots[j], selection)
    decreases |roots|
  {
    if roots != [] && !AncestorOrSelf(roots[0], selection) {
      var rest := roots[1..];
      FirstAncestorIsFirst(rest, selection);
      assert forall i :: 0 <= i < |rest| ==> rest[i] == roots[i + 1];
      if FirstAncestor(rest, selection).Some? {
        var i :| 0 <= i < |rest| && rest[i] == FirstAncestor(rest, selection).value
          && AncestorOrSelf(rest[i], selection)
          && forall j :: 0 <= j < i ==> !AncestorOrSelf(rest[j], selection);
        assert roots[i + 1] == rest[i];
        assert forall j :: 0 <= j < i + 1 ==> !AncestorOrSelf(roots[j], selection) by {
          forall j | 0 <= j < i + 1
            ensures !AncestorOrSelf(roots[j], selection)
          {
            if j > 0 {
              assert roots[j] == rest[j - 1];
            }
          }
        }
      } else {
        forall i | 0 <= i < |roots|
          ensures !AncestorOrSelf(roots[i], selection)
        {
          if i > 0 {
            assert roots[i] == rest[i - 1];
          }
        }
      }
    }
  }

  /** A selection inside the data directory is always placed under the data directory root. */
  lemma DataDirectoryComesFirst(dataDirectory: Path, userHome: Option<Path>, systemRoots: seq<Path>,
                                selection: Path)
    requires AncestorOrSelf(dataDirectory, selection)
    ensures FirstAncestor(Roots(dataDirectory, userHome, systemRoots), selection) == Some(dataDirectory)
  {
  }

  /** The selection loop: the first root whose `isSubfile` holds for the selection. */
  method FindSelectionRoot(roots: seq<Path>, selection: Path) returns (root: Option<Path>)
    ensures root == FirstAncestor(roots, selection)
  {
    root := None;
    var i := 0;
    while i < |roots|
      invariant 0 <= i <= |roots|
      invariant FirstAncestor(roots[i..], selection) == FirstAncestor(roots, selection)
    {
      IsSubfileIsAncestorOrSelf(roots[i], selection);
      if IsSubfile(roots[i], Some(selection)) {
        root := Some(roots[i]);
        return;
      }
      assert roots[i..][1..] == roots[i + 1..];
      i := i + 1;
    }
  }

  /** The selection after the data directory's resolver has had its say on the initial path. */
  function ResolvedSelection(initial: Option<Path>, resolve: string -> Option<Path>): Option<Path>
  {
    match initial
    case None => None
    case Some(f) => Some(resolve(PathText(f)).Or(f))
  }

  /** `DirectoryChooser`: roots, the root and directory it shows, and the ok link. */
  class DirectoryChooser {
    const roots: seq<Path>
    const makeRepositoriesSelectable: bool
    const okVisible: bool
    var selectionRoot: Path
    /** The directory model, shared with the ok link. */
    var directory: Option<Path>
    /** The directory the file listing shows. */
    var listingDirectory: Option<Path>
    var breadcrumbRoot: Path
    var breadcrumbSelection: Option<Path>

    /**
     * The constructor: builds the roots, resolves the initial directory against the data
     * directory, and picks the first root above an existing selection. The user home, the file
     * system roots, the data directory's resolver and the file system tests are inputs.
     */
    constructor (initial: Option<Path>, makeRepositoriesSelectable: bool, dataDirectory: Path,
                 userHome: Option<Path>, systemRoots: seq<Path>, resolve: string -> Option<Path>,
                 fileExists: Path -> bool, isDirectory: Path -> bool, userDir: Path)
      ensures roots == Roots(dataDirectory, userHome, systemRoots)
      ensures okVisible == !makeRepositoriesSelectable
      ensures var s := ResolvedSelection(initial, resolve);
        if s.None? || !fileExists(s.value) then
          selectionRoot == dataDirectory && directory == Some(dataDirectory)
        else if FirstAncestor(roots, Absolute(s.value, userDir)).None? then
          selectionRoot == dataDirectory && directory == Some(dataDirectory)
        else
          selectionRoot == FirstAncestor(roots, Absolute(s.value, userDir)).value
          && directory == (if isDirectory(s.value) then s else Parent(s.value))
      ensures listingDirectory == directory && breadcrumbSelection == directory
      ensures breadcrumbRoot == selectionRoot
    {
      var rs := Roots(dataDirectory, userHome, systemRoots);
      var selection := initial;
      if selection.Some? {
        var relativeToDataDir := resolve(PathText(selection.value));
        if relativeToDataDir.Some? {
          selection := relativeToDataDir;
        }
      }
      var root: Path;
      var dir: Option<Path>;
      if selection.Some? && fileExists(selection.value) {
        var found := FindSelectionRoot(rs, Absolute(selection.value, userDir));
        if found.None? {
          root := dataDirectory;
          dir := Some(dataDirectory);
        } else {
          root := found.value;
          if !isDirectory(selection.value) {
            dir := Parent(selection.value);
          } else {
            dir := selection;
          }
        }
      } else {
        root := dataDirectory;
        dir := Some(dataDirectory);
      }
      roots := rs;
      this.makeRepositoriesSelectable := makeRepositoriesSelectable;
      okVisible := !makeRepositoriesSelectable;
      selectionRoot := root;
      directory := dir;
      listingDirectory := dir;
      breadcrumbRoot := root;
      breadcrumbSelection := dir;
    }

    /**
     * `updateFileBrowser`: a click on a GeoGig repository directory goes to
     * `geogigDirectoryClicked`, which does nothing here; any other click goes to
     * `directoryClicked`, which opens the file in the listing, the breadcrumbs and the model.
     */
    method UpdateFileBrowser(file: Path, isGeogigDirectory: bool)
      modifies this`directory, this`listingDirectory, this`breadcrumbSelection
      ensures isGeogigDirectory ==>
        (directory == old(directory) && listingDirectory == old(listingDirectory)
         && breadcrumbSelection == old(breadcrumbSelection))
      ensures !isGeogigDirectory ==>
        (directory == Some(file) && listingDirectory == Some(file) && breadcrumbSelection == Some(file))
    {
      if isGeogigDirectory {
        // geogigDirectoryClicked: nothing to do by default
      } else {
        DirectoryClicked(file);
      }
    }

    /** `directoryClicked`: drill down into the file. */
    method DirectoryClicked(file: Path)
      modifies this`directory, this`listingDirectory, this`breadcrumbSelection
      ensures directory == Some(file) && listingDirectory == Some(file)
      ensures breadcrumbSelection == Some(file)
    {
      directory := Some(file);
      listingDirectory := Some(file);
      breadcrumbSelection := Some(file);
    }

    /** The roots drop-down's change handler: move the breadcrumbs' root, then browse to it. */
    method RootChosen(root: Path, isGeogigDirectory: bool)
      modifies this`breadcrumbRoot, this`directory, this`listingDirectory, this`breadcrumbSelection
      ensures breadcrumbRoot == root
      ensures isGeogigDirectory ==>
        (directory == old(directory) && listingDirectory == old(listingDirectory)
         && breadcrumbSelection == old(breadcrumbSelection))
      ensures !isGeogigDirectory ==>
        (directory == Some(root) && listingDirectory == Some(root) && breadcrumbSelection == Some(root))
    {
      breadcrumbRoot := root;
      UpdateFileBrowser(root, isGeogigDirectory);
    }
  }
}
