/**
 * The GeoGig configuration store: one XML file per repository record under
 * `<data-dir>/geogigconfig/`, named after the record's id. A record saved without an id is
 * given the text of a random UUID; a record with an id must have an id of that form.
 */
module GeogigConfigStore {
  import opened Wrappers
  import opened JavaStrings
  import opened JavaFiles
  import opened GeogigRepositoryInfo

  const ConfigDirName := "geogigconfig"

  // ---------------------------------------------------------------------------------------
  // UUID text

  predicate IsHexDigit(c: char)
  {
    ('0' <= c <= '9') || ('a' <= c <= 'f')
  }

  /** The lower-case hexadecimal digit of a value below 16. */
  function HexDigit(d: nat): (c: char)
    requires d < 16
    ensures IsHexDigit(c)
  {
    if d < 10 then ('0' as int + d) as char else ('a' as int + d - 10) as char
  }

  /** The lowest `width` hexadecimal digits of `n`, most significant first, zero-padded. */
  function HexDigits(n: nat, width: nat): (s: string)
    ensures |s| == width
    ensures forall k :: 0 <= k < |s| ==> IsHexDigit(s[k])
  {
    if width == 0 then "" else HexDigits(n / 16, width - 1) + [HexDigit(n % 16)]
  }

  /** Whether the digit at position `k` of a UUID text is a dash. */
  predicate IsDashPosition(k: int)
  {
    k == 8 || k == 13 || k == 18 || k == 23
  }

  /** The id pattern `save` insists on: 8-4-4-4-12 lower-case hexadecimal digits. */
  predicate IsUuid(s: string)
  {
    |s| == 36 && forall k :: 0 <= k < 36 ==> if IsDashPosition(k) then s[k] == '-' else IsHexDigit(s[k])
  }

  /** The number of hexadecimal digits of a UUID. */
  function UuidDigits(): nat
  {
    32
  }

  /** `UUID.toString()` of the 128 random bits drawn for a new record. */
  function UuidText(bits: nat): (s: string)
    ensures |s| == 36
  {
    var h := HexDigits(bits, UuidDigits());
    h[..8] + "-" + h[8..12] + "-" + h[12..16] + "-" + h[16..20] + "-" + h[20..]
  }

  /** Every id `save` assigns passes the check `save` applies to ids already set. */
  lemma AssignedIdsAreUuids(bits: nat)
    ensures IsUuid(UuidText(bits))
  {
    var h := HexDigits(bits, UuidDigits());
    var s := UuidText(bits);
    forall k | 0 <= k < 36
      ensures if IsDashPosition(k) then s[k] == '-' else IsHexDigit(s[k])
    {
      if k < 8 { assert s[k] == h[k]; }
      else if 8 < k < 13 { assert s[k] == h[k - 1]; }
      else if 13 < k < 18 { assert s[k] == h[k - 2]; }
      else if 18 < k < 23 { assert s[k] == h[k - 3]; }
      else if 23 < k { assert s[k] == h[k - 4]; }
    }
  }

  /** No UUID text starts with '/', so none is ever an absolute path. */
  lemma UuidsAreNotAbsolute(s: string)
    requires IsUuid(s)
    ensures !StartsWith(s, "/")
  {
    assert !IsDashPosition(0);
  }

  // ---------------------------------------------------------------------------------------
  // The configuration directory

  /** The file name of a record: `<id>.xml`. */
  function FileName(id: string): (r: string)
    ensures EndsWith(r, ".xml")
  {
    var r := id + ".xml";
    assert r[|r| - 4..] == ".xml";
    r
  }

  /** `path(id)`: the record's file, relative to the data directory. */
  function ConfigPath(id: string): (r: string)
    ensures StartsWith(r, ConfigDirName + "/") && EndsWith(r, ".xml")
  {
    var r := ConfigDirName + "/" + FileName(id);
    assert r[..|ConfigDirName| + 1] == ConfigDirName + "/";
    assert r[|r| - 4..] == FileName(id)[|FileName(id)| - 4..];
    r
  }

  /** Different ids never share a file. */
  lemma ConfigPathIsInjective(a: string, b: string)
    ensures ConfigPath(a) == ConfigPath(b) ==> a == b
  {
    if ConfigPath(a) == ConfigPath(b) {
      var n := |ConfigDirName| + 1;
      assert FileName(a) == ConfigPath(a)[n..];
      assert FileName(b) == ConfigPath(b)[n..];
      assert a == FileName(a)[..|FileName(a)| - 4];
      assert b == FileName(b)[..|FileName(b)| - 4];
    }
  }

  /** Different ids never share a file name. */
  lemma FileNameIsInjective(a: string, b: string)
    ensures FileName(a) == FileName(b) ==> a == b
  {
    if FileName(a) == FileName(b) {
      assert a == FileName(a)[..|FileName(a)| - 4];
      assert b == FileName(b)[..|FileName(b)| - 4];
    }
  }

  /** What a file of the directory holds: a record XStream can read, or anything else. */
  datatype Content = Stored(info: InfoValue) | Unparsable

  /** A file of the configuration directory. */
  datatype ConfigFile = ConfigFile(name: string, content: Content)

  /** A directory never lists two files of the same name. */
  predicate UniqueNames(files: seq<ConfigFile>)
  {
    forall i, j :: 0 <= i < j < |files| ==> files[i].name != files[j].name
  }

  /** The content of the file called `name`, if there is one. */
  function Lookup(files: seq<ConfigFile>, name: string): (r: Option<Content>)
    ensures r.None? <==> forall k :: 0 <= k < |files| ==> files[k].name != name
    ensures r.Some? ==> exists k :: 0 <= k < |files| && files[k] == ConfigFile(name, r.value)
    decreases |files|
  {
    if files == [] then None
    else if files[0].name == name then Some(files[0].content)
    else
      var r := Lookup(files[1..], name);
      assert forall k :: 0 <= k < |files[1..]| ==> files[1..][k] == files[k + 1];
      r
  }

  /** Writing a file: an existing file of that name is replaced in place, a new one is added last. */
  function Put(files: seq<ConfigFile>, name: string, content: Content): (r: seq<ConfigFile>)
    decreases |files|
  {
    if files == [] then [ConfigFile(name, content)]
    else if files[0].name == name then [ConfigFile(name, content)] + files[1..]
    else [files[0]] + Put(files[1..], name, content)
  }

  /** After a write the file reads back as written, and every other file is as it was. */
  lemma {:induction false} PutThenLookup(files: seq<ConfigFile>, name: string, content: Content, other: string)
    ensures Lookup(Put(files, name, content), name) == Some(content)
    ensures other != name ==> Lookup(Put(files, name, content), other) == Lookup(files, other)
    decreases |files|
  {
    if files != [] && files[0].name != name {
      PutThenLookup(files[1..], name, content, other);
      assert Put(files, name, content)[1..] == Put(files[1..], name, content);
    }
  }

  /** A write keeps the names unique. */
  lemma {:induction false} PutKeepsNamesUnique(files: seq<ConfigFile>, name: string, content: Content)
    requires UniqueNames(files)
    ensures UniqueNames(Put(files, name, content))
    decreases |files|
  {
    if files != [] && files[0].name != name {
      var rest := files[1..];
      PutKeepsNamesUnique(rest, name, content);
      var r := Put(files, name, content);
      assert r == [files[0]] + Put(rest, name, content);
      forall k | 1 <= k < |r|
        ensures r[k].name != files[0].name
      {
        PutNames(rest, name, content, k - 1);
      }
    }
  }

  /** Each file after a write is either the written one or one that was there before. */
  lemma {:induction false} PutNames(files: seq<ConfigFile>, name: string, content: Content, k: int)
    requires 0 <= k < |Put(files, name, content)|
    ensures var f := Put(files, name, content)[k];
      f == ConfigFile(name, content) || f in files
    decreases |files|
  {
    if files != [] && files[0].name != name && k > 0 {
      PutNames(files[1..], name, content, k - 1);
    }
  }

  /** A file whose name was not yet taken is added at the end of the listing. */
  lemma {:induction false} PutNewNameAppends(files: seq<ConfigFile>, name: string, content: Content)
    requires forall k :: 0 <= k < |files| ==> files[k].name != name
    ensures Put(files, name, content) == files + [ConfigFile(name, content)]
    decreases |files|
  {
    if files != [] {
      PutNewNameAppends(files[1..], name, content);
      assert files == [files[0]] + files[1..];
    }
  }

  /** Whether `getRepositories` reads the file: an `.xml` file XStream can parse. */
  predicate IsRecordFile(f: ConfigFile)
  {
    EndsWith(f.name, ".xml") && f.content.Stored?
  }

  /**
   * `getRepositories()`: the records of the `.xml` files, in listing order; files that cannot be
   * read are skipped.
   */
  function Repositories(files: seq<ConfigFile>): (r: seq<InfoValue>)
    ensures forall v :: v in r <==> exists k :: 0 <= k < |files| && IsRecordFile(files[k]) && files[k].content.info == v
    decreases |files|
  {
    if files == [] then []
    else
      var rest := Repositories(files[1..]);
      assert forall k :: 0 <= k < |files[1..]| ==> files[1..][k] == files[k + 1];
      if IsRecordFile(files[0]) then [files[0].content.info] + rest else rest
  }

  /** The records of two listings one after the other. */
  lemma {:induction false} RepositoriesConcat(a: seq<ConfigFile>, b: seq<ConfigFile>)
    ensures Repositories(a + b) == Repositories(a) + Repositories(b)
    decreases |a|
  {
    if a == [] {
      assert a + b == b;
    } else {
      RepositoriesConcat(a[1..], b);
      assert (a + b)[1..] == a[1..] + b;
      assert (a + b)[0] == a[0];
      var head := if IsRecordFile(a[0]) then [a[0].content.info] else [];
      assert Repositories(a + b) == head + Repositories(a[1..] + b);
      assert Repositories(a) == head + Repositories(a[1..]);
    }
  }

  // ---------------------------------------------------------------------------------------
  // save / load

  datatype Failure =
    | NullInfo                  // checkNotNull(info, "null RepositoryInfo")
    | IdFormat(message: string) // checkArgument on an id that is not a UUID
    | NullId                    // checkNotNull(id, "provided a null id")
    | FileNotFound(message: string)
    | Unloadable(message: string)
    | WriteFailed               // an IOException from the resource, rethrown unchecked

  datatype LoadResult = Loaded(info: InfoValue) | LoadFailed(failure: Failure)

  /** The absolute file `load(id)` checks for. */
  function RecordFile(dataDir: Path, id: string): Path
  {
    Child(PathText(dataDir), ConfigPath(id))
  }

  /** `load(id)`: the record in `<id>.xml`, or why it cannot be had. */
  function LoadFrom(files: seq<ConfigFile>, dataDir: Path, id: Option<string>): (r: LoadResult)
    ensures id.None? ==> r == LoadFailed(NullId)
    ensures id.Some? && r.Loaded? ==> Lookup(files, FileName(id.value)) == Some(Stored(r.info))
    ensures id.Some? && Lookup(files, FileName(id.value)).None? ==>
      r == LoadFailed(FileNotFound("File not found: " + PathText(RecordFile(dataDir, id.value))))
    ensures id.Some? && Lookup(files, FileName(id.value)) == Some(Unparsable) ==>
      r == LoadFailed(Unloadable("Unable to load repo config " + FileName(id.value)))
  {
    if id.None? then LoadFailed(NullId)
    else
      match Lookup(files, FileName(id.value))
      case None => LoadFailed(FileNotFound("File not found: " + PathText(RecordFile(dataDir, id.value))))
      case Some(Unparsable) => LoadFailed(Unloadable("Unable to load repo config " + FileName(id.value)))
      case Some(Stored(v)) => Loaded(v)
  }

  /** A record saved under an id loads back unchanged and is listed among the repositories. */
  lemma SaveThenLoad(files: seq<ConfigFile>, dataDir: Path, id: string, v: InfoValue)
    ensures LoadFrom(Put(files, FileName(id), Stored(v)), dataDir, Some(id)) == Loaded(v)
    ensures v in Repositories(Put(files, FileName(id), Stored(v)))
  {
    var after := Put(files, FileName(id), Stored(v));
    PutThenLookup(files, FileName(id), Stored(v), FileName(id));
    var k :| 0 <= k < |after| && after[k] == ConfigFile(FileName(id), Stored(v));
    assert IsRecordFile(after[k]);
  }

  /** Saving one record leaves every other record's file as it was. */
  lemma SaveKeepsOtherRecords(files: seq<ConfigFile>, dataDir: Path, id: string, v: InfoValue, other: string)
    requires other != id
    ensures LoadFrom(Put(files, FileName(id), Stored(v)), dataDir, Some(other)) == LoadFrom(files, dataDir, Some(other))
  {
    assert FileName(other) != FileName(id) by {
      if FileName(other) == FileName(id) {
        ConfigPathIsInjective(other, id);
      }
    }
    PutThenLookup(files, FileName(id), Stored(v), FileName(other));
  }

  /** The configuration directory and the files in it, in listing order. */
  class ConfigStore {
    const dataDir: Path
    var files: seq<ConfigFile>

    predicate Valid()
      reads this
    {
      UniqueNames(files)
    }

    constructor (dataDir: Path, files: seq<ConfigFile>)
      requires UniqueNames(files)
      ensures this.dataDir == dataDir && this.files == files && Valid()
    {
      this.dataDir := dataDir;
      this.files := files;
    }

    /**
     * `save(info)`: a record without an id gets the UUID text of `randomBits`; a record with an
     * id not of UUID form is refused; otherwise the record's file is written, unless the write
     * fails (`writeFails`), which leaves the files as they were but keeps the id just assigned.
     */
    method Save(info: RepositoryInfo?, randomBits: nat, writeFails: bool)
      returns (failure: Option<Failure>)
      requires Valid()
      modifies this, info
      ensures Valid()
      ensures info == null ==> failure == Some(NullInfo) && files == old(files)
      ensures info != null && old(info.id).None? ==>
        info.Value() == old(info.Value()).(id := Some(UuidText(randomBits)))
        && (!writeFails ==>
              failure.None?
              && files == Put(old(files), FileName(UuidText(randomBits)), Stored(info.Value())))
        && (writeFails ==> failure == Some(WriteFailed) && files == old(files))
      ensures info != null && old(info.id).Some? && IsUuid(old(info.id).value) ==>
        info.Value() == old(info.Value())
        && (!writeFails ==>
              failure.None?
              && files == Put(old(files), FileName(old(info.id).value), Stored(info.Value())))
        && (writeFails ==> failure == Some(WriteFailed) && files == old(files))
      ensures info != null && old(info.id).Some? && !IsUuid(old(info.id).value) ==>
        failure == Some(IdFormat("Id doesn't match UUID format: '" + old(info.id).value + "'"))
        && info.Value() == old(info.Value()) && files == old(files)
    {
      if info == null {
        return Some(NullInfo);
      }
      if info.id.None? {
        info.SetId(UuidText(randomBits));
      } else if !IsUuid(info.id.value) {
        return Some(IdFormat("Id doesn't match UUID format: '" + info.id.value + "'"));
      }
      if writeFails {
        return Some(WriteFailed);
      }
      PutKeepsNamesUnique(files, FileName(info.id.value), Stored(info.Value()));
      files := Put(files, FileName(info.id.value), Stored(info.Value()));
      return None;
    }

    function Load(id: Option<string>): (r: LoadResult)
      reads this
      ensures r == LoadFrom(files, dataDir, id)
    {
      LoadFrom(files, dataDir, id)
    }

    function GetRepositories(): (r: seq<InfoValue>)
      reads this
      ensures r == Repositories(files)
    {
      Repositories(files)
    }
  }
}
