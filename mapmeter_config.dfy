/**
 * The Mapmeter configuration object: the settings read from `monitoring/mapmeter.properties`
 * in the GeoServer data directory, their defaults, the URLs derived from them, the write-back
 * of the present settings, and the one-time migration of the legacy
 * `monitoring/controller.properties` file.
 *
 * The properties files are modelled as optional string maps held by the object (absent file
 * = `None`); the password encoder is a pair of functions handed to the operations that use it.
 */
module MapmeterConfig {
  import opened Wrappers
  import opened JavaStrings

  /** A Mapmeter SaaS account: user name and clear-text password. */
  datatype Credentials = Credentials(username: string, password: string)

  /** The contents of a `.properties` file. */
  type Properties = map<string, string>

  const StorageSuffix: string := "/controller/v1/message/store"
  const CheckSuffix: string := "/controller/v1/message/check"
  const SystemUpdateSuffix: string := "/controller/v1/server"

  /** The four settings the configuration keeps, each possibly absent. */
  datatype Settings = Settings(apiKey: Option<string>, baseUrl: Option<string>,
                               isOnPremise: Option<bool>, credentials: Option<Credentials>)

  const Empty := Settings(None, None, None, None)

  /** A configured base URL: trimmed, with one trailing "/" removed. */
  function BaseUrlFrom(v: string): (r: string)
    ensures r == Trim(v) || r + "/" == Trim(v)
    ensures !EndsWith(Trim(v), "/") ==> r == Trim(v)
    ensures EndsWith(Trim(v), "/") ==> r + "/" == Trim(v)
  {
    var t := Trim(v);
    if EndsWith(t, "/") then t[..|t| - 1] else t
  }

  /** The words accepted as "on premise"; anything else, once present, means false. */
  predicate IsYes(v: string)
  {
    var w := ToLower(Trim(v));
    w == "true" || w == "1" || w == "yes"
  }

  /** `"" + b` for a Java boolean. */
  function BoolText(b: bool): string
  {
    if b then "true" else "false"
  }

  /** What `refreshConfig` reads from the properties file. */
  function ParseSettings(file: Option<Properties>, decode: string -> string): (s: Settings)
    ensures file.None? ==> s == Empty
    ensures s.apiKey.Some? <==> file.Some? && "apikey" in file.value
    ensures s.apiKey.Some? ==> s.apiKey.value == Trim(file.value["apikey"])
    ensures s.baseUrl.Some? <==> file.Some? && "baseurl" in file.value
    ensures s.baseUrl.Some? ==> s.baseUrl.value == BaseUrlFrom(file.value["baseurl"])
    ensures s.isOnPremise.Some? <==> file.Some? && "onpremise" in file.value
    ensures s.isOnPremise.Some? ==> (s.isOnPremise.value <==> IsYes(file.value["onpremise"]))
    ensures s.credentials.Some?
            <==> file.Some? && "username" in file.value && "password" in file.value
    ensures s.credentials.Some? ==>
              s.credentials.value == Credentials(Trim(file.value["username"]),
                                                 decode(Trim(file.value["password"])))
  {
    match file
    case None => Empty
    case Some(p) =>
      Settings(
        if "apikey" in p then Some(Trim(p["apikey"])) else None,
        if "baseurl" in p then Some(BaseUrlFrom(p["baseurl"])) else None,
        if "onpremise" in p then Some(IsYes(p["onpremise"])) else None,
        if "username" in p && "password" in p
        then Some(Credentials(Trim(p["username"]), decode(Trim(p["password"]))))
        else None)
  }

  /** What `save` writes: exactly the present settings, the password encoded. */
  function SaveProperties(s: Settings, encode: string -> string): (p: Properties)
    ensures "apikey" in p <==> s.apiKey.Some?
    ensures "baseurl" in p <==> s.baseUrl.Some?
    ensures "onpremise" in p <==> s.isOnPremise.Some?
    ensures "username" in p <==> s.credentials.Some?
    ensures "password" in p <==> s.credentials.Some?
    ensures p.Keys <= {"apikey", "baseurl", "onpremise", "username", "password"}
  {
    var a: Properties := if s.apiKey.Some? then map["apikey" := s.apiKey.value] else map[];
    var b := if s.baseUrl.Some? then a["baseurl" := s.baseUrl.value] else a;
    var c := if s.isOnPremise.Some? then b["onpremise" := BoolText(s.isOnPremise.value)] else b;
    if s.credentials.Some?
    then c["username" := s.credentials.value.username]
          ["password" := encode(s.credentials.value.password)]
    else c
  }

  /** Settings that survive a save and a refresh unchanged: already trimmed, no trailing
   *  "/" on the base URL, and a password the encoder round-trips. */
  predicate Normalised(s: Settings, encode: string -> string, decode: string -> string)
  {
    (s.apiKey.Some? ==> Trim(s.apiKey.value) == s.apiKey.value)
    && (s.baseUrl.Some? ==> Trim(s.baseUrl.value) == s.baseUrl.value
                            && !EndsWith(s.baseUrl.value, "/"))
    && (s.credentials.Some? ==>
          Trim(s.credentials.value.username) == s.credentials.value.username
          && Trim(encode(s.credentials.value.password)) == encode(s.credentials.value.password)
          && decode(encode(s.credentials.value.password)) == s.credentials.value.password)
  }

  /** Saving and then refreshing gives back the saved settings. */
  lemma SaveThenRefresh(s: Settings, encode: string -> string, decode: string -> string)
    requires Normalised(s, encode, decode)
    ensures ParseSettings(Some(SaveProperties(s, encode)), decode) == s
  {
    var p := SaveProperties(s, encode);
    SavedKeys(s, encode);
    if s.isOnPremise.Some? {
      BoolTextParses(s.isOnPremise.value);
    }
  }

  /** The value saved under each key. */
  lemma SavedKeys(s: Settings, encode: string -> string)
    ensures var p := SaveProperties(s, encode);
      (s.apiKey.Some? ==> p["apikey"] == s.apiKey.value)
      && (s.baseUrl.Some? ==> p["baseurl"] == s.baseUrl.value)
      && (s.isOnPremise.Some? ==> p["onpremise"] == BoolText(s.isOnPremise.value))
      && (s.credentials.Some? ==> p["username"] == s.credentials.value.username
                                  && p["password"] == encode(s.credentials.value.password))
  {
  }

  lemma BoolTextParses(b: bool)
    ensures IsYes(BoolText(b)) == b
  {
    var t := BoolText(b);
    TrimOfTrimmed(t);
    assert ToLower(t) == t;
  }

  /** The parts of a parsed legacy URL that the migration uses; either may be undefined. */
  datatype UriParts = UriParts(scheme: Option<string>, authority: Option<string>)

  /** `String.valueOf` of a possibly-null string. */
  function JavaText(s: Option<string>): string
  {
    s.Or("null")
  }

  /** The base URL derived from a legacy controller URL: scheme "://" authority. */
  function LegacyBaseUrl(u: UriParts): (r: string)
    ensures u.scheme.Some? && u.authority.Some? ==>
              r == u.scheme.value + "://" + u.authority.value
  {
    JavaText(u.scheme) + "://" + JavaText(u.authority)
  }

  /** The properties the migration writes from the legacy ones; `parseUri` is the URI parser,
   *  `None` meaning the URL is not a valid URI. */
  function MigratedProperties(legacy: Properties, parseUri: string -> Option<UriParts>): (p: Properties)
    ensures "apikey" in p <==> "apikey" in legacy
    ensures "apikey" in p ==> p["apikey"] == legacy["apikey"]
    ensures "baseurl" in p <==> "url" in legacy && parseUri(legacy["url"]).Some?
    ensures "baseurl" in p ==> p["baseurl"] == LegacyBaseUrl(parseUri(legacy["url"]).value)
    ensures p.Keys <= {"apikey", "baseurl"}
  {
    var a: Properties := if "apikey" in legacy then map["apikey" := legacy["apikey"]] else map[];
    if "url" in legacy && parseUri(legacy["url"]).Some?
    then a["baseurl" := LegacyBaseUrl(parseUri(legacy["url"]).value)]
    else a
  }

  /** The effective settings read through the accessors, as the service and the page use them. */
  datatype ConfigView = ConfigView(apiKey: Option<string>, apiKeyOverridden: bool, baseUrl: string,
                       isOnPremise: bool, credentials: Option<Credentials>)

  class Configuration {
    /** The MAPMETER_API_KEY system property, read once at construction. */
    const apiKeyOverride: Option<string>
    const defaultBaseUrl: string

    var apiKeyProperties: Option<string>
    var baseUrl: Option<string>
    var isOnPremise: Option<bool>
    var credentials: Option<Credentials>

    /** `monitoring/mapmeter.properties` in the data directory. */
    var file: Option<Properties>
    /** The legacy `monitoring/controller.properties`. */
    var legacyFile: Option<Properties>

    function Current(): (s: Settings)
      reads this
    {
      Settings(apiKeyProperties, baseUrl, isOnPremise, credentials)
    }

    /** Migrates the legacy file if needed, then reads the settings. */
    constructor (defaultBaseUrl: string, apiKeyOverride: Option<string>,
                 file: Option<Properties>, legacyFile: Option<Properties>,
                 parseUri: string -> Option<UriParts>, decode: string -> string)
      ensures this.defaultBaseUrl == defaultBaseUrl && this.apiKeyOverride == apiKeyOverride
      ensures legacyFile.Some? && file.None? ==>
                this.file == Some(MigratedProperties(legacyFile.value, parseUri))
                && this.legacyFile.None?
      ensures !(legacyFile.Some? && file.None?) ==>
                this.file == file && this.legacyFile == legacyFile
      ensures Current() == ParseSettings(this.file, decode)
    {
      this.defaultBaseUrl := defaultBaseUrl;
      this.apiKeyOverride := apiKeyOverride;
      if legacyFile.Some? && file.None? {
        this.file := Some(MigratedProperties(legacyFile.value, parseUri));
        this.legacyFile := None;
      } else {
        this.file := file;
        this.legacyFile := legacyFile;
      }
      new;
      RefreshConfig(decode);
    }

    /** Re-reads all four settings from the file; an absent file clears them. */
    method RefreshConfig(decode: string -> string)
      modifies this`apiKeyProperties, this`baseUrl, this`isOnPremise, this`credentials
      ensures Current() == ParseSettings(file, decode)
    {
      var s := ParseSettings(file, decode);
      apiKeyProperties := s.apiKey;
      baseUrl := s.baseUrl;
      isOnPremise := s.isOnPremise;
      credentials := s.credentials;
    }

    function GetBaseUrl(): (r: string)
      reads this
      ensures baseUrl.Some? ==> r == baseUrl.value
      ensures baseUrl.None? ==> r == defaultBaseUrl
    {
      baseUrl.Or(defaultBaseUrl)
    }

    /** The configured base URL followed by `suffix`, or else the default one followed by it. */
    function UrlWith(suffix: string): string
      reads this
    {
      if baseUrl.Some? then baseUrl.value + suffix else defaultBaseUrl + suffix
    }

    function GetStorageUrl(): (r: string)
      reads this
      ensures r == GetBaseUrl() + StorageSuffix
    {
      UrlWith(StorageSuffix)
    }

    function GetCheckUrl(): (r: string)
      reads this
      ensures r == GetBaseUrl() + CheckSuffix
    {
      UrlWith(CheckSuffix)
    }

    function GetSystemUpdateUrl(): (r: string)
      reads this
      ensures r == GetBaseUrl() + SystemUpdateSuffix
    {
      UrlWith(SystemUpdateSuffix)
    }

    /** The override wins over the stored key. */
    function GetApiKey(): (r: Option<string>)
      reads this
      ensures apiKeyOverride.Some? ==> r == apiKeyOverride
      ensures apiKeyOverride.None? ==> r == apiKeyProperties
    {
      if apiKeyOverride.Some? then apiKeyOverride else apiKeyProperties
    }

    /** Overridden exactly when the effective key is the override rather than the stored one. */
    predicate IsApiKeyOverridden()
      reads this
      ensures IsApiKeyOverridden() ==> GetApiKey() == apiKeyOverride && GetApiKey().Some?
      ensures !IsApiKeyOverridden() ==> GetApiKey() == apiKeyProperties
    {
      apiKeyOverride.Some?
    }

    /** The explicit flag when set, else "the base URL is not the default one". */
    predicate GetIsOnPremise()
      reads this
      ensures isOnPremise.Some? ==> (GetIsOnPremise() <==> isOnPremise.value)
      ensures isOnPremise.None? ==>
        (GetIsOnPremise() <==> baseUrl.Some? && baseUrl.value != defaultBaseUrl)
    {
      isOnPremise.Or(defaultBaseUrl != GetBaseUrl())
    }

    function View(): (v: ConfigView)
      reads this
      ensures v.apiKey == GetApiKey() && v.baseUrl == GetBaseUrl()
      ensures v.isOnPremise == GetIsOnPremise() && v.credentials == credentials
      ensures v.apiKeyOverridden == IsApiKeyOverridden()
    {
      ConfigView(GetApiKey(), IsApiKeyOverridden(), GetBaseUrl(), GetIsOnPremise(), credentials)
    }

    method SetApiKey(apiKey: string)
      modifies this`apiKeyProperties
      ensures apiKeyProperties == Some(apiKey)
    {
      apiKeyProperties := Some(apiKey);
    }

    method SetBaseUrl(url: string)
      modifies this`baseUrl
      ensures baseUrl == Some(url)
    {
      baseUrl := Some(url);
    }

    method SetIsOnPremise(flag: bool)
      modifies this`isOnPremise
      ensures isOnPremise == Some(flag) && GetIsOnPremise() == flag
    {
      isOnPremise := Some(flag);
    }

    method SetCredentials(c: Credentials)
      modifies this`credentials
      ensures credentials == Some(c)
    {
      credentials := Some(c);
    }

    /** Writes exactly the present stored settings; an overriding key is never written. */
    method Save(encode: string -> string)
      modifies this`file
      ensures file == Some(SaveProperties(Current(), encode))
      ensures "apikey" in file.value <==> apiKeyProperties.Some?
      ensures apiKeyProperties.Some? ==> file.value["apikey"] == apiKeyProperties.value
    {
      file := Some(SaveProperties(Current(), encode));
      assert apiKeyProperties.Some? ==> file.value["apikey"] == apiKeyProperties.value;
    }

    /** Clears the four settings: the base URL falls back to the default, so the
     *  configuration no longer counts as on premise. */
    method ClearConfig()
      modifies this`apiKeyProperties, this`baseUrl, this`isOnPremise, this`credentials
      ensures Current() == Empty
      ensures GetBaseUrl() == defaultBaseUrl && !GetIsOnPremise()
      ensures GetApiKey() == apiKeyOverride
    {
      apiKeyProperties := None;
      baseUrl := None;
      isOnPremise := None;
      credentials := None;
    }
  }

  /**
   * Without an explicit flag the server counts as on premise exactly when a base URL other
   * than the default one is configured; a fresh configuration without a file is not.
   */
  lemma OnPremiseByDefault(c: Configuration)
    requires c.isOnPremise.None?
    ensures c.GetIsOnPremise() <==> c.baseUrl.Some? && c.baseUrl.value != c.defaultBaseUrl
    ensures c.Current() == Empty ==> !c.GetIsOnPremise() && c.GetBaseUrl() == c.defaultBaseUrl
  {
  }
}
