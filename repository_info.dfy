/**
 * A GeoGig repository's configuration record: the parent directory and the name of the
 * repository directory, from which its location is derived, and the id the configuration store
 * assigns on first save.
 */
module GeogigRepositoryInfo {
  import opened Wrappers
  import opened JavaFiles

  /** The serialisable state of a `RepositoryInfo`. */
  datatype InfoValue = InfoValue(id: Option<string>, parentDirectory: Option<string>, name: Option<string>)

  /**
   * `getLocation()`: no location unless both parts are set; otherwise the absolute path of
   * `new File(parentDirectory, name)`, resolved against the working directory `userDir`.
   */
  function LocationOf(v: InfoValue, userDir: Path): (r: Option<string>)
    ensures r.None? <==> v.parentDirectory.None? || v.name.None?
  {
    if v.parentDirectory.None? || v.name.None? then None
    else Some(AbsolutePath(Child(v.parentDirectory.value, v.name.value), userDir))
  }

  /** `setLocation(location)`: the name and the parent of `new File(location)`; the id is kept. */
  function WithLocation(v: InfoValue, location: string): (r: InfoValue)
    ensures r.id == v.id
    ensures r.name == Some(Name(FileOf(location)))
    ensures r.parentDirectory == ParentText(FileOf(location))
  {
    var f := FileOf(location);
    InfoValue(v.id, ParentText(f), Some(Name(f)))
  }

  /** An absolute location with at least one name comes back from `getLocation()` normalised. */
  lemma LocationRoundTrip(v: InfoValue, location: string, userDir: Path)
    requires FileOf(location).absolute && FileOf(location).names != []
    ensures LocationOf(WithLocation(v, location), userDir) == Some(PathText(FileOf(location)))
  {
    var f := FileOf(location);
    var n := |f.names|;
    var parent := Path(true, f.names[..n - 1]);
    assert Parent(f) == Some(parent);
    FileOfPathText(parent);
    var leaf := Path(false, [f.names[n - 1]]);
    FileOfPathText(leaf);
    assert PathText(leaf) == Name(f);
    assert f.names == parent.names + leaf.names;
    var c := Child(PathText(parent), Name(f));
    assert PathText(parent) != "";
    assert c == f;
  }

  /** A location that is a single relative name (such as a bare id) loses its parent. */
  lemma BareNameHasNoLocation(v: InfoValue, location: string, userDir: Path)
    requires !FileOf(location).absolute && |FileOf(location).names| == 1
    ensures LocationOf(WithLocation(v, location), userDir).None?
  {
  }

  /** `RepositoryInfo`: a mutable record whose setters rewrite one part at a time. */
  class RepositoryInfo {
    var id: Option<string>
    var parentDirectory: Option<string>
    var name: Option<string>

    /** The default constructor: nothing set, so not yet saved. */
    constructor ()
      ensures Value() == InfoValue(None, None, None)
    {
      id := None;
      parentDirectory := None;
      name := None;
    }

    function Value(): InfoValue
      reads this
    {
      InfoValue(id, parentDirectory, name)
    }

    function Location(userDir: Path): (r: Option<string>)
      reads this
      ensures r == LocationOf(Value(), userDir)
    {
      LocationOf(Value(), userDir)
    }

    method SetLocation(location: string)
      modifies this
      ensures Value() == WithLocation(old(Value()), location)
    {
      var repoDir := FileOf(location);
      SetName(Name(repoDir));
      SetParentDirectory(ParentText(repoDir));
    }

    method SetParentDirectory(parent: Option<string>)
      modifies this`parentDirectory
      ensures parentDirectory == parent
    {
      parentDirectory := parent;
    }

    method SetName(name: string)
      modifies this`name
      ensures this.name == Some(name)
    {
      this.name := Some(name);
    }

    method SetId(id: string)
      modifies this`id
      ensures this.id == Some(id)
    {
      this.id := Some(id);
    }
  }
}
