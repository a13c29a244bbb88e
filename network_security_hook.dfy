/**
 * The command hook that checks the remote URL of every remote-facing GeoGig command
 * (ls-remote, clone, fetch, push) against the whitelist rules and refuses the command when a
 * rule blocks it.
 */
module NetworkSecurityHook {
  import opened Wrappers
  import opened JavaStrings
  import opened GeogigCommands

  /** A whitelist rule: a host pattern and whether the remote must be reached over https. */
  datatype WhitelistRule = WhitelistRule(name: string, pattern: string, requireSSL: bool)

  /** The whitelist as read from the configuration store, or the read error's message. */
  datatype Whitelist = Rules(rules: seq<WhitelistRule>) | ReadError(message: string)

  /** What `new URL(url)` gives: a malformed-URL failure, or the protocol and host. */
  datatype ParsedUrl = Malformed | Url(protocol: Option<string>, host: Option<string>)

  /** The marker of a suffix pattern: "[.*]example.com" matches every host ending in "example.com". */
  const AnyPrefix := "[.*]"

  /** Whether the URL reaches a network host at all: file URLs and host-less URLs never do. */
  predicate IsNetworkUrl(u: ParsedUrl)
  {
    u.Url? && u.host.Some? && u.protocol.Some? && u.protocol.value != "file"
  }

  /** Whether the rule's host pattern names `host`. */
  predicate PatternMatches(pattern: string, host: string)
  {
    if StartsWith(pattern, AnyPrefix) then EndsWith(host, pattern[|AnyPrefix|..])
    else host == pattern
  }

  /** `ruleBlocks`: shared verbatim by both copies of the hook. */
  predicate RuleBlocks(rule: WhitelistRule, u: ParsedUrl)
    ensures RuleBlocks(rule, u) ==> IsNetworkUrl(u)
    ensures IsNetworkUrl(u) && u.protocol.value == "https" ==>
              (RuleBlocks(rule, u) <==> PatternMatches(rule.pattern, u.host.value))
    ensures IsNetworkUrl(u) && u.protocol.value != "https" && rule.requireSSL ==> RuleBlocks(rule, u)
  {
    IsNetworkUrl(u)
    && ((rule.requireSSL && u.protocol.value != "https") || PatternMatches(rule.pattern, u.host.value))
  }

  /** Malformed, file and host-less URLs pass every rule. */
  lemma NonNetworkUrlsAreNeverBlocked(rule: WhitelistRule, u: ParsedUrl)
    requires !IsNetworkUrl(u)
    ensures !RuleBlocks(rule, u)
  {
  }

  /** An https-only rule blocks every plain network URL whatever its pattern. */
  lemma RequireSslBlocksPlainUrls(rule: WhitelistRule, protocol: string, host: string)
    requires rule.requireSSL && protocol != "https" && protocol != "file"
    ensures RuleBlocks(rule, Url(Some(protocol), Some(host)))
  {
  }

  /** A suffix rule blocks the bare domain and every name under it. */
  lemma SuffixRuleBlocksSubdomains(rule: WhitelistRule, protocol: string, subdomain: string, domain: string)
    requires rule.pattern == AnyPrefix + domain && protocol != "file"
    ensures RuleBlocks(rule, Url(Some(protocol), Some(subdomain + domain)))
  {
    assert StartsWith(rule.pattern, AnyPrefix) by {
      assert rule.pattern[..|AnyPrefix|] == AnyPrefix;
    }
    assert rule.pattern[|AnyPrefix|..] == domain;
    var host := subdomain + domain;
    assert host[|host| - |domain|..] == domain;
  }

  /** Any other rule blocks (over https) exactly the one host it names. */
  lemma ExactRuleBlocksOnlyItsHost(rule: WhitelistRule, host: string)
    requires !StartsWith(rule.pattern, AnyPrefix)
    ensures RuleBlocks(rule, Url(Some("https"), Some(host))) <==> host == rule.pattern
  {
  }

  // ---------------------------------------------------------------------------------------
  // checkRestricted

  datatype Failure = Unreadable(message: string) | Blocked(rule: WhitelistRule, url: string)

  /** The exception message; the rule is printed with `ruleText`, its `toString`. */
  function Message(f: Failure, ruleText: WhitelistRule -> string): (r: string)
    ensures f.Unreadable? ==> EndsWith(r, f.message)
    ensures f.Blocked? ==> EndsWith(r, f.url)
    ensures f.Blocked? <==> StartsWith(r, BlockedPrefix)
  {
    match f
    case Unreadable(m) =>
      var r := UnreadablePrefix + m;
      assert r[0] == UnreadablePrefix[0] != BlockedPrefix[0];
      r
    case Blocked(rule, url) => BlockedPrefix + ruleText(rule) + ". Remote: " + url
  }

  const UnreadablePrefix := "Unable to obtain the remotes white list: "
  const BlockedPrefix := "Blocked "

  /** The first rule that blocks the URL. */
  function FirstBlocking(rules: seq<WhitelistRule>, u: ParsedUrl): (r: Option<WhitelistRule>)
    ensures r.Some? ==> r.value in rules && RuleBlocks(r.value, u)
    ensures r.None? <==> forall k :: 0 <= k < |rules| ==> !RuleBlocks(rules[k], u)
    decreases |rules|
  {
    if rules == [] then None
    else if RuleBlocks(rules[0], u) then Some(rules[0])
    else FirstBlocking(rules[1..], u)
  }

  /** What `checkRestricted(url)` throws, if anything. */
  function CheckSpec(whitelist: Whitelist, url: string, parse: string -> ParsedUrl): (r: Option<Failure>)
    ensures whitelist.ReadError? ==> r == Some(Unreadable(whitelist.message))
    ensures whitelist.Rules? ==>
      (r.None? <==> forall k :: 0 <= k < |whitelist.rules| ==> !RuleBlocks(whitelist.rules[k], parse(url)))
    ensures whitelist.Rules? && r.Some? ==>
      r.value.Blocked? && r.value.url == url && r.value.rule in whitelist.rules
      && RuleBlocks(r.value.rule, parse(url))
  {
    match whitelist
    case ReadError(m) => Some(Unreadable(m))
    case Rules(rules) =>
      match FirstBlocking(rules, parse(url))
      case None => None
      case Some(rule) => Some(Blocked(rule, url))
  }

  /** `checkRestricted`: the loop over the rules that throws at the first blocking one. */
  method CheckRestricted(whitelist: Whitelist, url: string, parse: string -> ParsedUrl)
    returns (r: Option<Failure>)
    ensures r == CheckSpec(whitelist, url, parse)
  {
    if whitelist.ReadError? {
      return Some(Unreadable(whitelist.message));
    }
    var rules := whitelist.rules;
    var parsed := parse(url);
    var i := 0;
    while i < |rules|
      invariant 0 <= i <= |rules|
      invariant FirstBlocking(rules, parsed) == FirstBlocking(rules[i..], parsed)
    {
      if RuleBlocks(rules[i], parsed) {
        return Some(Blocked(rules[i], url));
      }
      assert rules[i..][1..] == rules[i + 1..];
      i := i + 1;
    }
    return None;
  }

  // ---------------------------------------------------------------------------------------
  // pre / post / appliesTo

  /** A command as `pre` sees it: its remote(s) or repository URL, or any other command. */
  datatype Command =
    | LsRemote(remote: Option<Remote>)
    | Clone(repositoryUrl: Option<string>)
    | Fetch(remotes: seq<Remote>)
    | Push(pushRemote: Option<Remote>)
    | Unrelated(cls: CommandClass)

  /** The URLs `pre` checks, in order: fetch URLs for ls-remote and fetch, the push URL for push. */
  function CheckedUrls(c: Command): (urls: seq<string>)
    ensures c.Unrelated? ==> urls == []
    ensures c.Fetch? ==>
      |urls| == |c.remotes| && (forall k :: 0 <= k < |urls| ==> urls[k] == c.remotes[k].fetchUrl)
  {
    match c
    case LsRemote(r) => if r.Some? then [r.value.fetchUrl] else []
    case Clone(u) => if u.Some? then [u.value] else []
    case Fetch(remotes) => seq(|remotes|, k requires 0 <= k < |remotes| => remotes[k].fetchUrl)
    case Push(r) => if r.Some? then [r.value.pushUrl] else []
    case Unrelated(_) => []
  }

  /** The failure of the first checked URL that fails. */
  function FirstFailure(whitelist: Whitelist, urls: seq<string>, parse: string -> ParsedUrl)
    : (r: Option<Failure>)
    ensures r.None? <==> forall k :: 0 <= k < |urls| ==> CheckSpec(whitelist, urls[k], parse).None?
    ensures r.Some? ==> exists k :: 0 <= k < |urls| && r == CheckSpec(whitelist, urls[k], parse)
    decreases |urls|
  {
    if urls == [] then None
    else
      var first := CheckSpec(whitelist, urls[0], parse);
      if first.Some? then first
      else
        var rest := FirstFailure(whitelist, urls[1..], parse);
        assert forall k :: 0 <= k < |urls[1..]| ==> urls[1..][k] == urls[k + 1];
        rest
  }

  datatype PreResult = Proceed(command: Command) | Refused(failure: Failure)

  /**
   * `pre`: the command itself when every checked URL passes, else the first failure. A command
   * with no remote, no URL or no remotes is returned unchecked.
   */
  method Pre(command: Command, whitelist: Whitelist, parse: string -> ParsedUrl) returns (r: PreResult)
    ensures var failure := FirstFailure(whitelist, CheckedUrls(command), parse);
      (failure.None? ==> r == Proceed(command)) && (failure.Some? ==> r == Refused(failure.value))
  {
    var urls := CheckedUrls(command);
    var i := 0;
    while i < |urls|
      invariant 0 <= i <= |urls|
      invariant FirstFailure(whitelist, urls, parse) == FirstFailure(whitelist, urls[i..], parse)
    {
      var failure := CheckRestricted(whitelist, urls[i], parse);
      if failure.Some? {
        return Refused(failure.value);
      }
      assert urls[i..][1..] == urls[i + 1..];
      i := i + 1;
    }
    return Proceed(command);
  }

  /** An unreadable whitelist refuses every command that has a URL to check. */
  lemma UnreadableWhitelistRefusesRemoteCommands(command: Command, message: string,
                                                  parse: string -> ParsedUrl)
    requires CheckedUrls(command) != []
    ensures FirstFailure(ReadError(message), CheckedUrls(command), parse) == Some(Unreadable(message))
  {
  }

  /** The push command is judged by its push URL alone. */
  lemma PushChecksThePushUrl(remote: Remote, whitelist: Whitelist, parse: string -> ParsedUrl)
    ensures FirstFailure(whitelist, CheckedUrls(Push(Some(remote))), parse)
            == CheckSpec(whitelist, remote.pushUrl, parse)
  {
    assert CheckedUrls(Push(Some(remote))) == [remote.pushUrl];
  }

  /** `appliesTo`: the four remote-facing commands. */
  predicate AppliesTo(cls: CommandClass)
    ensures AppliesTo(cls) ==> !cls.PullOp? && !cls.RemoteAddOp? && !cls.OtherOp?
    ensures AppliesTo(cls) ==> !cls.UpdateRefOp? && !cls.RemoteRemoveOp?
  {
    cls == LsRemoteOp || cls == CloneOp || cls == FetchOp || cls == PushOp
  }

  /** `post` hands the command's result back untouched. */
  function Post<T>(retVal: T): (r: T)
    ensures r == retVal
  {
    retVal
  }
}
