/**
 * The security log of remote-facing GeoGig commands: which commands are watched, how a command
 * is routed to the log store before and after it runs, the messages written, and the repository
 * URL each entry is filed under.
 */
module SecurityLogger {
  import opened Wrappers
  import opened JavaStrings
  import opened JavaFiles
  import opened GeogigCommands

  /**
   * A command handed to the logger, with the arguments its message builder reads, each already
   * in the text `String.format("%s")` gives it (a null argument reads "null" and is `None` here).
   * `Unwatched` is a command of any other class, carried by its class name.
   */
  datatype Command =
    | RemoteAdd(name: Option<string>, url: Option<string>)
    | RemoteRemove(name: Option<string>)
    | Pull(remote: Option<string>, refSpecs: Option<string>, depth: Option<string>,
           author: Option<string>, authorEmail: Option<string>)
    | Push(remote: Option<string>, refSpecs: Option<string>)
    | Fetch(remotes: Option<string>, all: bool, fullDepth: bool, depth: Option<string>, prune: bool)
    | Clone(url: Option<string>, branch: Option<string>, depth: Option<string>)
    | Unwatched(className: string)

  /** The command's class. */
  function ClassOf(c: Command): CommandClass
  {
    match c
    case RemoteAdd(_, _) => RemoteAddOp
    case RemoteRemove(_) => RemoteRemoveOp
    case Pull(_, _, _, _, _) => PullOp
    case Push(_, _) => PushOp
    case Fetch(_, _, _, _, _) => FetchOp
    case Clone(_, _, _) => CloneOp
    case Unwatched(name) => OtherOp(name)
  }

  /** `interestedIn`: the class has a message builder, i.e. it is one of the six watched commands. */
  predicate InterestedIn(cls: CommandClass)
  {
    cls in {RemoteAddOp, RemoteRemoveOp, PullOp, PushOp, FetchOp, CloneOp}
  }

  /** Only the six remote commands are watched; the hooks' other commands are not. */
  lemma WatchedCommands(c: Command)
    ensures InterestedIn(ClassOf(c)) <==> !c.Unwatched?
    ensures !InterestedIn(UpdateRefOp) && !InterestedIn(LsRemoteOp)
  {
  }

  /** `%s` of a possibly null argument. */
  function Text(o: Option<string>): string
  {
    o.Or("null")
  }

  function BoolText(b: bool): string
  {
    if b then "true" else "false"
  }

  /** The builder's `friendlyName()`. */
  function FriendlyName(c: Command): (r: string)
    requires !c.Unwatched?
    ensures r == "Pull" <==> c.Pull?
    ensures r == "Push" <==> c.Push?
    ensures r == "Fetch" <==> c.Fetch?
    ensures r == "Clone" <==> c.Clone?
    ensures "Remote " <= r <==> c.RemoteAdd? || c.RemoteRemove?
  {
    match c
    case RemoteAdd(_, _) => "Remote add"
    case RemoteRemove(_) => "Remote remove"
    case Pull(_, _, _, _, _) => "Pull"
    case Push(_, _) => "Push"
    case Fetch(_, _, _, _, _) => "Fetch"
    case Clone(_, _, _) => "Clone"
  }

  /** The builder's `params(command)`. */
  function ParamsText(c: Command): (r: string)
    requires !c.Unwatched?
    ensures c.RemoteAdd? || c.RemoteRemove? ==> "name='" <= r
    ensures c.Pull? || c.Push? ==> "remote=" <= r
    ensures c.Fetch? ==> "remotes=" <= r
    ensures c.Clone? ==> "url=" <= r
  {
    var (head, rest) := match c
      case RemoteAdd(name, url) => ("name='", Text(name) + "', url='" + Text(url) + "'")
      case RemoteRemove(name) => ("name='", Text(name) + "'")
      case Pull(remote, refSpecs, depth, author, authorEmail) =>
        ("remote=", Text(remote) + ", refSpecs=" + Text(refSpecs) + ", depth=" + Text(depth)
          + ", author=" + Text(author) + ", author email=" + Text(authorEmail))
      case Push(remote, refSpecs) => ("remote=", Text(remote) + ", refSpecs=" + Text(refSpecs))
      case Fetch(remotes, all, fullDepth, depth, prune) =>
        ("remotes=", Text(remotes) + ", all=" + BoolText(all) + ", full depth=" + BoolText(fullDepth)
          + ", depth=" + Text(depth) + ", prune=" + BoolText(prune))
      case Clone(url, branch, depth) =>
        ("url=", Text(url) + ", branch=" + Text(branch) + ", depth=" + Text(depth));
    assert head <= head + rest;
    head + rest
  }

  /** `buildPre`. */
  function PreMessage(c: Command): (r: string)
    requires !c.Unwatched?
    ensures FriendlyName(c) <= r && |r| > |FriendlyName(c)| + |ParamsText(c)|
    ensures r[|r| - |ParamsText(c)|..] == ParamsText(c)
  {
    FriendlyName(c) + ": Parameters: " + ParamsText(c)
  }

  /** `buildPost`. */
  function PostMessage(c: Command): (r: string)
    requires !c.Unwatched?
    ensures FriendlyName(c) <= r && |r| > |FriendlyName(c)| + |ParamsText(c)|
    ensures r[|r| - |ParamsText(c)|..] == ParamsText(c)
  {
    FriendlyName(c) + " success. Parameters: " + ParamsText(c)
  }

  /** `buildError`, with the exception's (possibly null) message. */
  function ErrorMessage(c: Command, message: Option<string>): (r: string)
    requires !c.Unwatched?
    ensures FriendlyName(c) <= r && |r| > |FriendlyName(c)| + |Text(message)|
    ensures r[|r| - |Text(message)|..] == Text(message)
  {
    FriendlyName(c) + " failed. Parameters: " + ParamsText(c) + ". Error message: " + Text(message)
  }

  /** The three messages of a command never coincide: they part right after the friendly name. */
  lemma MessagesAreDistinct(c: Command, message: Option<string>)
    requires !c.Unwatched?
    ensures PreMessage(c) != PostMessage(c)
    ensures PostMessage(c) != ErrorMessage(c, message)
    ensures PreMessage(c) != ErrorMessage(c, message)
  {
    MessageShapesAreDistinct(FriendlyName(c), ParamsText(c), Text(message));
  }

  /** The three message shapes, for any name, parameters and error text. */
  lemma MessageShapesAreDistinct(name: string, params: string, error: string)
    ensures name + ": Parameters: " + params != name + " success. Parameters: " + params
    ensures name + " success. Parameters: " + params
            != name + " failed. Parameters: " + params + ". Error message: " + error
    ensures name + ": Parameters: " + params
            != name + " failed. Parameters: " + params + ". Error message: " + error
  {
    var n := |name|;
    assert (name + ": Parameters: " + params)[n] == ':';
    assert (name + " success. Parameters: " + params)[n + 1] == 's';
    assert (name + " failed. Parameters: " + params + ". Error message: " + error)[n + 1] == 'f';
  }

  /** The friendly names tell the six commands apart. */
  lemma FriendlyNamesIdentifyTheClass(c: Command, d: Command)
    requires !c.Unwatched? && !d.Unwatched?
    ensures FriendlyName(c) == FriendlyName(d) <==> ClassOf(c) == ClassOf(d)
  {
    if ClassOf(c) != ClassOf(d) {
      var a, b := FriendlyName(c), FriendlyName(d);
      assert a[0] != b[0] || |a| != |b| || a[1] != b[1] || a[|a| - 1] != b[|b| - 1];
    }
  }

  /** The location of the command's repository, as `Repository.getLocation()` gives it. */
  datatype Location =
    | FileUrl(names: seq<string>)      // a `file:` URL of an absolute path
    | OtherSchemeUrl                   // `new File(URI)` rejects it: not a `file:` URI
    | UnparsableUrl(externalForm: string)  // `toURI()` throws `URISyntaxException`

  /** What the command's context gives: no context, no repository, no location, or a location. */
  datatype Source = NoContext | NoRepository | NoLocation | Located(location: Location)

  /** The result of `repoUrl`: a URL or null, or the `IllegalArgumentException` it lets escape. */
  datatype RepoUrlResult = Url(url: Option<string>) | NotAFile

  /**
   * `repoUrl`: null without a context, repository or location; the absolute path of a file
   * location, without a trailing ".geogig" directory; the external form of an unparsable URL.
   */
  function RepoUrl(source: Source): (r: RepoUrlResult)
    ensures !source.Located? ==> r == Url(None)
    ensures source.Located? && source.location.FileUrl? ==> r.Url? && r.url.Some?
  {
    match source
    case NoContext => Url(None)
    case NoRepository => Url(None)
    case NoLocation => Url(None)
    case Located(UnparsableUrl(externalForm)) => Url(Some(externalForm))
    case Located(OtherSchemeUrl) => NotAFile
    case Located(FileUrl(names)) =>
      var f := Path(true, names);
      var g := if EndsWith(Name(f), ".geogig") then Parent(f).Or(f) else f;
      Url(Some(PathText(g)))
  }

  /** A repository kept in a ".geogig" directory is logged under the directory that holds it. */
  lemma GeogigDirectoryIsDropped(names: seq<string>)
    requires names != [] && EndsWith(names[|names| - 1], ".geogig")
    ensures RepoUrl(Located(FileUrl(names))) == Url(Some(PathText(Path(true, names[..|names| - 1]))))
  {
  }

  /** Any other file location is logged under its own absolute path. */
  lemma OtherDirectoriesAreKept(names: seq<string>)
    requires names == [] || !EndsWith(names[|names| - 1], ".geogig")
    ensures RepoUrl(Located(FileUrl(names))) == Url(Some(PathText(Path(true, names))))
  {
  }

  datatype Level = Debug | Info | Error

  /** A `RuntimeException` a command failed with, by its (possibly null) message. */
  datatype Failure = Failure(message: Option<string>)

  /** An entry of the log store: level, repository URL, message, and the exception if any. */
  datatype Entry = Entry(level: Level, repoUrl: Option<string>, message: string,
                         exception: Option<Failure>)

  /** The `LogStore` the logger writes to. */
  class LogStore {
    var entries: seq<Entry>

    constructor ()
      ensures entries == []
    {
      entries := [];
    }

    method Append(e: Entry)
      modifies this
      ensures entries == old(entries) + [e]
    {
      entries := entries + [e];
    }
  }

  /** What a logging call did: wrote an entry, did nothing, or threw. */
  datatype Outcome = Logged | NotInitialized | NullPointer | IllegalArgument

  /** The entry `pre`/`post`/`error` writes, or the exception it throws first. */
  function EntryFor(c: Command, source: Source, level: Level, failure: Option<Failure>)
    : (r: Option<Entry>)
    requires level == Error <==> failure.Some?
    ensures r.Some? <==> !c.Unwatched? && RepoUrl(source).Url?
  {
    if c.Unwatched? then None
    else match RepoUrl(source)
      case NotAFile => None
      case Url(url) =>
        var message := match level
          case Debug => PreMessage(c)
          case Info => PostMessage(c)
          case Error => ErrorMessage(c, failure.value.message);
        Some(Entry(level, url, message, failure))
  }

  /** The outcome matching `EntryFor`: the builder lookup fails first, then the URL. */
  function OutcomeFor(c: Command, source: Source): Outcome
  {
    if c.Unwatched? then NullPointer
    else if RepoUrl(source).NotAFile? then IllegalArgument
    else Logged
  }

  /** A `SecurityLogger` instance and its log store. */
  class Logger {
    const logStore: LogStore

    constructor (logStore: LogStore)
      ensures this.logStore == logStore
    {
      this.logStore := logStore;
    }

    /** `pre`, `post` and `error`: look up the builder, compute the URL, then write the entry. */
    method Write(c: Command, source: Source, level: Level, failure: Option<Failure>)
      returns (outcome: Outcome)
      requires level == Error <==> failure.Some?
      modifies logStore
      ensures outcome == OutcomeFor(c, source)
      ensures EntryFor(c, source, level, failure).Some? ==>
        logStore.entries == old(logStore.entries) + [EntryFor(c, source, level, failure).value]
      ensures EntryFor(c, source, level, failure).None? ==> logStore.entries == old(logStore.entries)
    {
      if c.Unwatched? {
        return NullPointer;
      }
      var url := RepoUrl(source);
      if url.NotAFile? {
        return IllegalArgument;
      }
      var message := match level
        case Debug => PreMessage(c)
        case Info => PostMessage(c)
        case Error => ErrorMessage(c, failure.value.message);
      logStore.Append(Entry(level, url.url, message, failure));
      outcome := Logged;
    }
  }

  /** The static `INSTANCE`: the last logger constructed, if any. */
  class Registry {
    var instance: Logger?

    constructor ()
      ensures instance == null
    {
      instance := null;
    }

    /** `new SecurityLogger(logStore)`: the new logger becomes the instance. */
    method NewLogger(logStore: LogStore) returns (logger: Logger)
      modifies this
      ensures fresh(logger) && logger.logStore == logStore && instance == logger
    {
      logger := new Logger(logStore);
      instance := logger;
    }

    /** `logPre`: nothing before a logger exists; otherwise a debug entry with the pre message. */
    method LogPre(c: Command, source: Source) returns (outcome: Outcome)
      modifies if instance != null then {instance.logStore} else {}
      ensures instance == null ==> outcome == NotInitialized
      ensures instance != null ==>
        (outcome == OutcomeFor(c, source)
         && instance.logStore.entries
            == EntriesAfter(c, source, Debug, None, old(instance.logStore.entries)))
    {
      if instance == null {
        return NotInitialized;
      }
      outcome := instance.Write(c, source, Debug, None);
    }

    /**
     * `logPost`: nothing before a logger exists; without an exception an info entry with the
     * post message, with one an error entry with the error message.
     */
    method LogPost(c: Command, source: Source, exception: Option<Failure>) returns (outcome: Outcome)
      modifies if instance != null then {instance.logStore} else {}
      ensures instance == null ==> outcome == NotInitialized
      ensures instance != null ==>
        (outcome == OutcomeFor(c, source)
         && instance.logStore.entries
            == EntriesAfter(c, source, if exception.None? then Info else Error, exception,
                            old(instance.logStore.entries)))
    {
      if instance == null {
        return NotInitialized;
      }
      if exception.None? {
        outcome := instance.Write(c, source, Info, None);
      } else {
        outcome := instance.Write(c, source, Error, exception);
      }
    }
  }

  /** The log store's entries after writing what `EntryFor` gives to `before`. */
  function EntriesAfter(c: Command, source: Source, level: Level, failure: Option<Failure>,
                                  before: seq<Entry>): seq<Entry>
    requires level == Error <==> failure.Some?
  {
    match EntryFor(c, source, level, failure)
    case None => before
    case Some(e) => before + [e]
  }
}
