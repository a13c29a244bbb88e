/**
 * The second copy of the network security hook, kept with the web user interface. It applies
 * the same rules, but reports only "restricted or not", fails closed when the whitelist cannot
 * be read, and checks a push against the remote's fetch URL.
 */
module WebNetworkSecurityHook {
  import opened Wrappers
  import opened GeogigCommands
  import NSH = NetworkSecurityHook

  /** `isRestricted`: an unreadable whitelist, or some rule blocks the URL. */
  predicate RestrictedSpec(whitelist: NSH.Whitelist, url: string, parse: string -> NSH.ParsedUrl)
  {
    whitelist.ReadError?
    || exists k :: 0 <= k < |whitelist.rules| && NSH.RuleBlocks(whitelist.rules[k], parse(url))
  }

  /** The search loop of `isRestricted`, returning at the first blocking rule. */
  method IsRestricted(whitelist: NSH.Whitelist, url: string, parse: string -> NSH.ParsedUrl)
    returns (restricted: bool)
    ensures restricted == RestrictedSpec(whitelist, url, parse)
  {
    if whitelist.ReadError? {
      return true;
    }
    var rules := whitelist.rules;
    var i := 0;
    while i < |rules|
      invariant 0 <= i <= |rules|
      invariant forall k :: 0 <= k < i ==> !NSH.RuleBlocks(rules[k], parse(url))
    {
      if NSH.RuleBlocks(rules[i], parse(url)) {
        return true;
      }
      i := i + 1;
    }
    return false;
  }

  /** Both copies refuse exactly the same URLs against the same whitelist. */
  lemma AgreesWithCheckRestricted(whitelist: NSH.Whitelist, url: string, parse: string -> NSH.ParsedUrl)
    ensures RestrictedSpec(whitelist, url, parse) <==> NSH.CheckSpec(whitelist, url, parse).Some?
  {
  }

  /** The URLs this copy checks: as the other copy, except that push uses the fetch URL. */
  function CheckedUrls(c: NSH.Command): (urls: seq<string>)
    ensures !c.Push? ==> urls == NSH.CheckedUrls(c)
    ensures c.Push? && c.pushRemote.Some? ==> urls == [c.pushRemote.value.fetchUrl]
    ensures c.Push? && c.pushRemote.None? ==> urls == []
  {
    match c
    case Push(r) => if r.Some? then [r.value.fetchUrl] else []
    case _ => NSH.CheckedUrls(c)
  }

  /** Some checked URL is restricted. */
  predicate AnyRestricted(whitelist: NSH.Whitelist, urls: seq<string>, parse: string -> NSH.ParsedUrl)
  {
    exists k :: 0 <= k < |urls| && RestrictedSpec(whitelist, urls[k], parse)
  }

  datatype PreResult = Proceed(command: NSH.Command) | Refused

  /** `pre`: refuses (without a message) when any checked URL is restricted. */
  method Pre(command: NSH.Command, whitelist: NSH.Whitelist, parse: string -> NSH.ParsedUrl)
    returns (r: PreResult)
    ensures r.Refused? <==> AnyRestricted(whitelist, CheckedUrls(command), parse)
    ensures r.Proceed? ==> r.command == command
  {
    var urls := CheckedUrls(command);
    var i := 0;
    while i < |urls|
      invariant 0 <= i <= |urls|
      invariant forall k :: 0 <= k < i ==> !RestrictedSpec(whitelist, urls[k], parse)
    {
      var restricted := IsRestricted(whitelist, urls[i], parse);
      if restricted {
        return Refused;
      }
      i := i + 1;
    }
    return Proceed(command);
  }

  /**
   * A push to a remote whose fetch URL is allowed but whose push URL is blocked passes this
   * copy and is refused by the other one.
   */
  lemma PushIsJudgedByFetchUrl(remote: Remote, whitelist: NSH.Whitelist, parse: string -> NSH.ParsedUrl)
    requires !RestrictedSpec(whitelist, remote.fetchUrl, parse)
    requires RestrictedSpec(whitelist, remote.pushUrl, parse)
    ensures !AnyRestricted(whitelist, CheckedUrls(NSH.Push(Some(remote))), parse)
    ensures NSH.FirstFailure(whitelist, NSH.CheckedUrls(NSH.Push(Some(remote))), parse).Some?
  {
    assert CheckedUrls(NSH.Push(Some(remote))) == [remote.fetchUrl];
    assert NSH.CheckedUrls(NSH.Push(Some(remote))) == [remote.pushUrl];
    AgreesWithCheckRestricted(whitelist, remote.pushUrl, parse);
  }

  /** `appliesTo`: the same four remote-facing commands. */
  predicate AppliesTo(cls: CommandClass)
    ensures AppliesTo(cls) <==> NSH.AppliesTo(cls)
    ensures AppliesTo(cls) ==> !cls.PullOp?
  {
    NSH.AppliesTo(cls)
  }
}
