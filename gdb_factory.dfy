/**
 * The importer's FileGDB data store factory (`GDBDataStoreFactory`): which files and parameter
 * maps it accepts, how it finds the file among the parameters, and the argument checks it makes
 * before opening a store through OGR.
 */
module GdbDataStoreFactory {
  import opened Wrappers
  import opened JavaStrings

  const FILE_TYPE := "gdb"
  /** `getFileExtensions`. */
  const EXTENSIONS: seq<string> := ["." + FILE_TYPE]
  /** `getDisplayName`. */
  const DISPLAY_NAME := "FileGDB"
  /** `getDescription`. */
  const DESCRIPTION := "FileGDB Import"

  /** A `java.io.File`, by its path as given (`getPath`, which is also its `toString`). */
  datatype File = File(path: string)

  /** A data store parameter: its key, description and whether it is required. */
  datatype Param = Param(key: string, description: string, required: bool)

  const FILE_PARAM := Param("file", FILE_TYPE + " file", false)
  const URL_PARAM := Param("url", FILE_TYPE + " file", false)
  const NAMESPACE_PARAM := Param("namespace", "uri to the namespace", false)
  /** `getParametersInfo`: only the file parameter is advertised. */
  const PARAMETERS_INFO: seq<Param> := [FILE_PARAM]

  /** The outcome of `Param.lookUp` on the parameter map: a value, null, or an `IOException`. */
  datatype ParamLookup<T> = Present(value: T) | Missing | LookupFailed

  /** The parameter map, as the three `lookUp`s the factory makes see it. */
  datatype Params = Params(file: ParamLookup<File>, url: ParamLookup<string>,
                           namespace: ParamLookup<string>)

  /** The store OGR is asked to open: the file, the driver name and the namespace. */
  datatype DataStore = OgrDataStore(file: File, driver: string, namespace: Option<string>)

  /** The messages of the `IllegalArgumentException`s the factory throws. */
  const NULL_FILE := "Cannot create store from null file"
  const MISSING_FILE := "Cannot create store with file that does not exist"
  const NO_FILE_IN_PARAMS := "Could not find file from params to create csv data store"

  /** The outcome of an operation that may throw. */
  datatype Outcome<T> =
    | Done(value: T)
    | IllegalArgument(message: string)
    | IOFailure
    | NullPointer

  /** `lastIndexOf(c)` restricted to the indices below `hi`: -1 when there is none. */
  function LastIndexBelow(s: string, c: char, hi: nat): (r: int)
    requires hi <= |s|
    ensures -1 <= r < hi
    ensures r >= 0 ==> s[r] == c
    ensures forall k :: r < k < hi ==> s[k] != c
    decreases hi
  {
    if hi == 0 then -1 else if s[hi - 1] == c then hi - 1 else LastIndexBelow(s, c, hi - 1)
  }

  function LastIndex(s: string, c: char): (r: int)
    ensures -1 <= r < |s|
    ensures r >= 0 ==> s[r] == c
    ensures forall k :: r < k < |s| ==> s[k] != c
  {
    LastIndexBelow(s, c, |s|)
  }

  /**
   * Commons IO `FilenameUtils.getExtension`: the text after the last '.', or "" when there is no
   * '.' or a '/' or '\' separator comes after it.
   */
  function Extension(filename: string): (r: string)
    ensures r != "" ==> EndsWith(filename, "." + r)
    ensures '.' !in r && '/' !in r && '\\' !in r
  {
    var dot := LastIndex(filename, '.');
    var separator := var slash := LastIndex(filename, '/');
      var backslash := LastIndex(filename, '\\');
      if slash > backslash then slash else backslash;
    if dot == -1 || separator > dot then ""
    else
      var r := filename[dot + 1..];
      assert filename[|filename| - |"." + r|..] == "." + r;
      r
  }

  /** `String.equalsIgnoreCase` against a lower-case ASCII word. */
  predicate EqualsIgnoreCase(word: string, s: string)
  {
    ToLower(s) == word
  }

  /** `canProcessExtension`: the file name's extension is "gdb", ignoring case. */
  predicate CanProcessExtension(filename: string)
    ensures CanProcessExtension(filename) ==>
      |Extension(filename)| == 3 && EndsWith(filename, "." + Extension(filename))
  {
    EqualsIgnoreCase(FILE_TYPE, Extension(filename))
  }

  /** The name ends with ".gdb", ignoring case. */
  predicate HasGdbSuffix(filename: string)
  {
    |filename| >= 4 && ToLower(filename[|filename| - 4..]) == ".gdb"
  }

  /** An accepted name ends with a '.' and three letters that fold to "gdb". */
  lemma AcceptedHasSuffix(filename: string)
    requires CanProcessExtension(filename)
    ensures HasGdbSuffix(filename)
  {
    var n := |filename|;
    var e := Extension(filename);
    assert |e| == 3;
    assert filename[n - 4..] == "." + e;
    var lower := ToLower(filename[n - 4..]);
    assert lower[0] == '.';
    assert lower[1..] == ToLower(e);
    assert lower == [lower[0]] + lower[1..];
  }

  /** No '.' and no separator comes after index `i`. */
  predicate NoMarkAfter(s: string, i: int)
  {
    forall k :: 0 <= k < |s| && i < k ==> s[k] != '.' && s[k] != '/' && s[k] != '\\'
  }

  /** A '.' with no '.' or separator after it starts the extension. */
  lemma ExtensionAfterLastDot(s: string, i: int)
    requires 0 <= i < |s| && s[i] == '.' && NoMarkAfter(s, i)
    ensures Extension(s) == s[i + 1..]
  {
    assert LastIndex(s, '.') == i;
  }

  /** The last four characters of a name ending with ".gdb" in any case. */
  lemma GdbSuffixChars(filename: string)
    requires HasGdbSuffix(filename)
    ensures filename[|filename| - 4] == '.' && NoMarkAfter(filename, |filename| - 4)
    ensures ToLower(filename[|filename| - 3..]) == "gdb"
  {
    var n := |filename|;
    var tail := filename[n - 4..];
    var lower := ToLower(tail);
    assert lower == ".gdb";
    assert LowerChar(tail[0]) == '.' && LowerChar(tail[1]) == 'g';
    assert LowerChar(tail[2]) == 'd' && LowerChar(tail[3]) == 'b';
    assert tail[1..] == filename[n - 3..];
    assert ToLower(filename[n - 3..]) == lower[1..];
  }

  /** A name ending with ".gdb" in any case has the extension of its last three characters. */
  lemma SuffixIsAccepted(filename: string)
    requires HasGdbSuffix(filename)
    ensures CanProcessExtension(filename)
  {
    GdbSuffixChars(filename);
    ExtensionAfterLastDot(filename, |filename| - 4);
  }

  /** The accepted names are exactly those that end with ".gdb" in any case. */
  lemma CanProcessExtensionIffSuffix(filename: string)
    ensures CanProcessExtension(filename) <==> HasGdbSuffix(filename)
  {
    if CanProcessExtension(filename) {
      AcceptedHasSuffix(filename);
    }
    if HasGdbSuffix(filename) {
      SuffixIsAccepted(filename);
    }
  }

  /** Every advertised extension is accepted after any base name. */
  lemma AdvertisedExtensionsAreAccepted(base: string, extension: string)
    requires extension in EXTENSIONS
    ensures CanProcessExtension(base + extension)
  {
    var name := base + extension;
    assert name[|name| - 4..] == ".gdb";
    assert ToLower(".gdb") == ".gdb";
    CanProcessExtensionIffSuffix(name);
  }

  /**
   * `fileFromParams`: the file parameter, else the url parameter converted by `urlToFile`
   * (`DataUtilities.urlToFile`, null for a URL that is not a file), else null.
   */
  function FileFromParams(params: Params, urlToFile: string -> Option<File>): (r: Outcome<Option<File>>)
    ensures params.file.Present? ==> r == Done(Some(params.file.value))
    ensures params.file.LookupFailed? || (params.file.Missing? && params.url.LookupFailed?)
      <==> r == IOFailure
    ensures params.file.Missing? && params.url.Missing? ==> r == Done(None)
    ensures r.Done? || r.IOFailure?
  {
    match params.file
    case LookupFailed => IOFailure
    case Present(file) => Done(Some(file))
    case Missing =>
      match params.url
      case LookupFailed => IOFailure
      case Present(url) => Done(urlToFile(url))
      case Missing => Done(None)
  }

  /** `canProcess(params)`: a file is found and has the gdb extension; an `IOException` is false. */
  function CanProcess(params: Params, urlToFile: string -> Option<File>): (r: bool)
    ensures r <==> exists file: File :: (FileFromParams(params, urlToFile) == Done(Some(file))
                                    && CanProcessExtension(file.path))
  {
    match FileFromParams(params, urlToFile)
    case Done(Some(file)) => CanProcessExtension(file.path)
    case _ => false
  }

  /** The file parameter wins over the url parameter whenever it is present. */
  lemma FileParamTakesPrecedence(params: Params, urlToFile: string -> Option<File>)
    requires params.file.Present?
    ensures CanProcess(params, urlToFile) <==> HasGdbSuffix(params.file.value.path)
  {
    CanProcessExtensionIffSuffix(params.file.value.path);
  }

  /** `canProcess(url)`: the extension of the file the URL denotes; a non-file URL throws. */
  function CanProcessUrl(url: string, urlToFile: string -> Option<File>): (r: Outcome<bool>)
    ensures urlToFile(url).None? <==> r == NullPointer
    ensures urlToFile(url).Some? ==>
      r == Done(HasGdbSuffix(urlToFile(url).value.path))
  {
    match urlToFile(url)
    case None => NullPointer
    case Some(file) =>
      CanProcessExtensionIffSuffix(file.path);
      Done(CanProcessExtension(file.path))
  }

  /** `createDataStoreFromFile(file, namespace)`: a null or missing file is refused. */
  function CreateDataStoreFromFile(file: Option<File>, namespace: Option<string>,
                                   fileExists: File -> bool): (r: Outcome<DataStore>)
    ensures file.None? <==> r == IllegalArgument(NULL_FILE)
    ensures file.Some? && !fileExists(file.value) <==>
      r == IllegalArgument(MISSING_FILE)
    ensures r.Done? <==> file.Some? && fileExists(file.value)
    ensures r.Done? ==> r.value == OgrDataStore(file.value, DISPLAY_NAME, namespace)
  {
    if file.None? then IllegalArgument(NULL_FILE)
    else if !fileExists(file.value) then
      IllegalArgument(MISSING_FILE)
    else Done(OgrDataStore(file.value, DISPLAY_NAME, namespace))
  }

  /**
   * `createDataStore(params)`: the file from the parameters and the namespace parameter; unlike
   * `createDataStoreFromFile`, it does not check that the file exists.
   */
  function CreateDataStore(params: Params, urlToFile: string -> Option<File>): (r: Outcome<DataStore>)
    ensures FileFromParams(params, urlToFile) == Done(None) <==>
      r == IllegalArgument(NO_FILE_IN_PARAMS)
    ensures r.Done? <==>
      (var file := FileFromParams(params, urlToFile);
       file.Done? && file.value.Some? && !params.namespace.LookupFailed?)
    ensures r.Done? ==>
      FileFromParams(params, urlToFile) == Done(Some(r.value.file)) && r.value.driver == DISPLAY_NAME
      && r.value.namespace == (if params.namespace.Present? then Some(params.namespace.value) else None)
  {
    match FileFromParams(params, urlToFile)
    case Done(None) => IllegalArgument(NO_FILE_IN_PARAMS)
    case Done(Some(file)) =>
      (match params.namespace
       case LookupFailed => IOFailure
       case Present(namespace) => Done(OgrDataStore(file, DISPLAY_NAME, Some(namespace)))
       case Missing => Done(OgrDataStore(file, DISPLAY_NAME, None)))
    case _ => IOFailure
  }

  /** `createNewDataStore`: the same as `createDataStore`, so it never creates a missing file. */
  function CreateNewDataStore(params: Params, urlToFile: string -> Option<File>): (r: Outcome<DataStore>)
    ensures FileFromParams(params, urlToFile) == Done(None) <==>
      r == IllegalArgument(NO_FILE_IN_PARAMS)
    ensures r.Done? ==> FileFromParams(params, urlToFile) == Done(Some(r.value.file))
  {
    CreateDataStore(params, urlToFile)
  }

  /** A store made from the parameters opens any named file, existing or not. */
  lemma CreateDataStoreSkipsExistenceCheck(file: File, urlToFile: string -> Option<File>,
                                           fileExists: File -> bool)
    requires !fileExists(file)
    ensures CreateDataStore(Params(Present(file), Missing, Missing), urlToFile).Done?
    ensures CreateDataStoreFromFile(Some(file), None, fileExists).IllegalArgument?
  {
  }
}
