/**
 * The model behind the repository-directory field: a location typed or chosen by the user is
 * stored as a `file:` URL, relative to the data directory when the location lies inside it.
 */
module GeogigDirectoryModel {
  import opened Wrappers
  import opened JavaStrings
  import opened JavaFiles

  /** The names joined with '/', or null when there are none. */
  function JoinedOrNull(names: seq<string>): (r: Option<string>)
    ensures r.None? <==> names == []
  {
    if names == [] then None else Some(Join(names, '/'))
  }

  /**
   * What `setObject` stores for a non-null location, given the canonical data directory, the
   * canonical file of the location, and the file `Files.url` resolves the location to.
   */
  function Relativised(location: string, dataDirectory: Path, file: Path, dataFile: Option<Path>,
                       userDir: Path): string
  {
    if AncestorOrSelf(dataDirectory, file) then
      "file:" + JoinedOrNull(file.names[|dataDirectory.names|..]).Or("null")
    else if dataFile.Some? && dataFile.value != file then location
    else "file://" + AbsolutePath(file, userDir)
  }

  /**
   * A location strictly inside the data directory is stored as "file:" and its path relative to
   * the data directory; resolving that path against the data directory gives the file back.
   */
  lemma InsideIsRelativeToDataDirectory(location: string, dataDirectory: Path, file: Path,
                                        dataFile: Option<Path>, userDir: Path)
    requires dataDirectory.absolute && WellFormed(dataDirectory) && WellFormed(file)
    requires AncestorOrSelf(dataDirectory, file) && file != dataDirectory
    ensures var rel := Join(file.names[|dataDirectory.names|..], '/');
      Relativised(location, dataDirectory, file, dataFile, userDir) == "file:" + rel
      && Child(PathText(dataDirectory), rel) == file
  {
    var n := |dataDirectory.names|;
    var below := file.names[n..];
    assert below != [] by {
      assert file.names == dataDirectory.names + below;
    }
    var relative := Path(false, below);
    assert WellFormed(relative) by {
      assert forall k :: 0 <= k < |below| ==> below[k] == file.names[n + k];
    }
    FileOfPathText(relative);
    assert PathText(relative) == Join(below, '/');
    FileOfPathText(dataDirectory);
    assert PathText(dataDirectory) != "";
    assert file.names == dataDirectory.names + below;
  }

  /** The data directory itself never gets a relative path and is stored as "file:null". */
  lemma DataDirectoryIsStoredAsFileNull(location: string, dataDirectory: Path,
                                        dataFile: Option<Path>, userDir: Path)
    requires dataDirectory.absolute || dataDirectory.names != []
    ensures Relativised(location, dataDirectory, dataDirectory, dataFile, userDir) == "file:null"
  {
    assert dataDirectory.names[|dataDirectory.names|..] == [];
  }

  /**
   * Outside the data directory the location is kept when the data directory resolves it to some
   * other file, and otherwise becomes a `file://` URL of the file's absolute path.
   */
  lemma OutsideKeepsOrAbsolutises(location: string, dataDirectory: Path, file: Path,
                                  dataFile: Option<Path>, userDir: Path)
    requires !AncestorOrSelf(dataDirectory, file)
    requires WellFormed(file) && WellFormed(userDir)
    ensures dataFile.Some? && dataFile.value != file ==>
      Relativised(location, dataDirectory, file, dataFile, userDir) == location
    ensures !(dataFile.Some? && dataFile.value != file) ==>
      var t := AbsolutePath(file, userDir);
      Relativised(location, dataDirectory, file, dataFile, userDir) == "file://" + t
      && FileOf(t) == Absolute(file, userDir)
  {
    var a := Absolute(file, userDir);
    assert WellFormed(a) by {
      if !file.absolute {
        assert forall k :: 0 <= k < |a.names| ==>
          a.names[k] == if k < |userDir.names| then userDir.names[k] else file.names[k - |userDir.names|];
      }
    }
    FileOfPathText(a);
  }

  /** `GeoGigDirectoryModel`: wraps the string model of the repository location. */
  class DirectoryModel {
    var geogigDirectory: Option<string>
    const rootDir: Path

    constructor (geogigDirectory: Option<string>, rootDir: Path)
      ensures this.geogigDirectory == geogigDirectory && this.rootDir == rootDir
    {
      this.geogigDirectory := geogigDirectory;
      this.rootDir := rootDir;
    }

    /** `getObject`: the wrapped model's value. */
    function GetObject(): Option<string>
      reads this
    {
      geogigDirectory
    }

    /**
     * `setObject`: a null location is stored as null; otherwise the relativised location. The
     * canonical form of a file and the data directory's URL resolution are inputs.
     */
    method SetObject(location: Option<string>, canonicalize: Path -> Path,
                     dataFileOf: string -> Option<Path>, userDir: Path)
      modifies this`geogigDirectory
      ensures location.None? ==> GetObject().None?
      ensures location.Some? ==> GetObject() == Some(Relativised(location.value,
        canonicalize(rootDir), canonicalize(FileOf(location.value)),
        dataFileOf(location.value), userDir))
    {
      var stored := location;
      if location.Some? {
        var dataDirectory := canonicalize(rootDir);
        var file := canonicalize(FileOf(location.value));
        if IsSubfile(dataDirectory, Some(file)) {
          IsSubfileIsAncestorOrSelf(dataDirectory, file);
          var curr: Option<Path> := Some(file);
          var path: Option<string> := None;
          while curr.Some? && curr.value != dataDirectory
            invariant curr.Some? && AncestorOrSelf(dataDirectory, curr.value)
            invariant curr.value == Path(file.absolute, file.names[..|curr.value.names|])
            invariant path == JoinedOrNull(file.names[|curr.value.names|..])
            decreases if curr.Some? then |curr.value.names| else 0
          {
            var m := |curr.value.names|;
            var name := Name(curr.value);
            assert file.names[m - 1..] == [name] + file.names[m..];
            path := if path.None? then Some(name) else Some(name + "/" + path.value);
            curr := Parent(curr.value);
            assert file.names[..m][..m - 1] == file.names[..m - 1];
          }
          stored := Some("file:" + path.Or("null"));
        } else {
          IsSubfileIsAncestorOrSelf(dataDirectory, file);
          var dataFile := dataFileOf(location.value);
          if dataFile.Some? && dataFile.value != file {
            // relative to the data directory: kept as given
          } else {
            stored := Some("file://" + AbsolutePath(file, userDir));
          }
        }
      }
      geogigDirectory := stored;
    }
  }
}
