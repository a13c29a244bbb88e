/**
 * The Mapmeter service of the GeoServer extension: the calls it makes to the Mapmeter SaaS
 * (free-trial sign-up, data fetch, credential conversion, user lookup, message-storage check)
 * and how it validates and classifies each reply.
 *
 * The SaaS client itself is network I/O: each call's answer is an input `Reply`, either a
 * response (status code, whether that status is an error status, JSON body) or an IOException.
 */
module MapmeterService {
  import opened Wrappers
  import opened MapmeterConfig
  import SR = MapmeterStorageResult

  /** A JSON value as decoded into Java objects. */
  datatype Json = JNull | JBool(b: bool) | JNum(n: int) | JStr(s: string)
                | JObj(fields: map<string, Json>) | JArr(items: seq<Json>)

  type JsonMap = map<string, Json>

  /** `Map.get`: a missing key reads as null. */
  function Get(m: JsonMap, k: string): (j: Json)
    ensures k !in m ==> j == JNull
  {
    if k in m then m[k] else JNull
  }

  datatype SaasResponse = SaasResponse(status: int, isErrorStatus: bool, body: JsonMap)

  /** What the SaaS client gave back for one request. */
  datatype Reply = Responded(response: SaasResponse) | IOError(message: Option<string>)

  /** The exceptions the service operations end with. */
  datatype Failure =
    | IOFailure(ioMessage: Option<string>)
    | MissingApiKey(message: string)
    | MissingCredentials(message: string)
    | SaasFailure(status: int, response: JsonMap, message: string)
    | IllegalState(message: string)
    | ClassCast     // an unchecked cast failed where nothing catches it
    | NullPointer   // `Optional.of(null)`

  datatype Outcome<T> = Done(value: T) | Failed(failure: Failure)

  /** An unchecked Java cast of a decoded value: null passes as null, a value of the wrong
   *  type throws ClassCastException. */
  datatype Cast<T> = Null | Value(v: T) | CastFails

  function AsString(j: Json): (c: Cast<string>)
    ensures c.Null? <==> j.JNull?
    ensures c.Value? <==> j.JStr?
  {
    match j
    case JNull => Null
    case JStr(s) => Value(s)
    case _ => CastFails
  }

  function AsBool(j: Json): (c: Cast<bool>)
    ensures c.Null? <==> j.JNull?
    ensures c.Value? <==> j.JBool?
  {
    match j
    case JNull => Null
    case JBool(b) => Value(b)
    case _ => CastFails
  }

  function AsMap(j: Json): (c: Cast<JsonMap>)
    ensures c.Null? <==> j.JNull?
    ensures c.Value? <==> j.JObj?
  {
    match j
    case JNull => Null
    case JObj(m) => Value(m)
    case _ => CastFails
  }

  /** The exception for a reply whose JSON does not have the expected shape: it keeps the
   *  reply's status code and replaces the body by a fixed message. */
  function Unexpected(status: int): (f: Failure)
    ensures f.SaasFailure? && f.status == status
    ensures f.message == "Unexpected mapmeter saas response"
    ensures Get(f.response, "message") == JStr("Unexpected json response from mapmeter saas")
  {
    SaasFailure(status, map["message" := JStr("Unexpected json response from mapmeter saas")],
                "Unexpected mapmeter saas response")
  }

  // ---------------------------------------------------------------------------------------
  // startFreeTrial
  // ---------------------------------------------------------------------------------------

  /** What a successful free-trial sign-up returns. */
  datatype EnableResult = EnableResult(apiKey: string, username: string, password: string,
                                       externalUserId: string, orgName: string)

  /** The string at `body[outer][inner]`, with the casts the sign-up code performs. */
  function Nested(body: JsonMap, outer: string, inner: string): Cast<string>
  {
    match AsMap(Get(body, outer))
    case Value(m) => AsString(Get(m, inner))
    case Null => Null
    case CastFails => CastFails
  }

  /** The five fields of a free-trial reply, or None when any holder map or field is missing
   *  or of the wrong type. */
  function TrialFields(body: JsonMap): (r: Option<EnableResult>)
    ensures r.Some? <==>
      Nested(body, "user", "id").Value? && Nested(body, "user", "email").Value?
      && Nested(body, "user", "password").Value? && Nested(body, "organization", "name").Value?
      && Nested(body, "server", "apiKey").Value?
    ensures r.Some? ==>
      r.value == EnableResult(Nested(body, "server", "apiKey").v,
                              Nested(body, "user", "email").v,
                              Nested(body, "user", "password").v,
                              Nested(body, "user", "id").v,
                              Nested(body, "organization", "name").v)
  {
    var id := Nested(body, "user", "id");
    var email := Nested(body, "user", "email");
    var password := Nested(body, "user", "password");
    var org := Nested(body, "organization", "name");
    var key := Nested(body, "server", "apiKey");
    if id.Value? && email.Value? && password.Value? && org.Value? && key.Value?
    then Some(EnableResult(key.v, email.v, password.v, id.v, org.v))
    else None
  }

  /** The decision part of `startFreeTrial`, given the configured key and the SaaS reply. */
  function TrialOutcome(existingApiKey: Option<string>, reply: Reply): (r: Outcome<EnableResult>)
    ensures existingApiKey.Some? ==>
              r == Failed(IllegalState("Mapmeter already configured but free trial requested."))
    ensures existingApiKey.None? && reply.Responded? && reply.response.isErrorStatus ==>
              r == Failed(SaasFailure(reply.response.status, reply.response.body,
                                      "Error response from Mapmeter starting free trial."))
    ensures existingApiKey.None? && reply.IOError? ==> r == Failed(IOFailure(reply.message))
    ensures existingApiKey.None? && reply.Responded? && !reply.response.isErrorStatus ==>
              (r.Done? <==> TrialFields(reply.response.body).Some?)
    // a missing holder or field, a null, or a value of the wrong type is an unexpected reply
    ensures existingApiKey.None? && reply.Responded? && !reply.response.isErrorStatus
            && TrialFields(reply.response.body).None? ==>
              r == Failed(Unexpected(reply.response.status))
    ensures r.Done? ==> reply.Responded? && r.value == TrialFields(reply.response.body).value
    ensures r.Failed? && r.failure.SaasFailure? && reply.Responded?
            ==> r.failure.status == reply.response.status
  {
    if existingApiKey.Some? then
      Failed(IllegalState("Mapmeter already configured but free trial requested."))
    else match reply
      case IOError(m) => Failed(IOFailure(m))
      case Responded(resp) =>
        if resp.isErrorStatus then
          Failed(SaasFailure(resp.status, resp.body,
                             "Error response from Mapmeter starting free trial."))
        else match TrialFields(resp.body)
          case None => Failed(Unexpected(resp.status))
          case Some(fields) => Done(fields)
  }

  /** A well-formed reply yields its own five values. */
  lemma TrialSucceedsOnWellFormedReply(status: int, apiKey: string, email: string,
                                       password: string, id: string, orgName: string)
    ensures var body := map["user" := JObj(map["id" := JStr(id), "email" := JStr(email),
                                               "password" := JStr(password)]),
                            "organization" := JObj(map["name" := JStr(orgName)]),
                            "server" := JObj(map["apiKey" := JStr(apiKey)])];
      TrialOutcome(None, Responded(SaasResponse(status, false, body)))
      == Done(EnableResult(apiKey, email, password, id, orgName))
  {
  }

  /** `startFreeTrial`: on success the key and the account are stored and saved once; on any
   *  failure the configuration is left as it was. */
  method StartFreeTrial(config: Configuration, reply: Reply, encode: string -> string)
    returns (r: Outcome<EnableResult>)
    modifies config
    ensures r == TrialOutcome(old(config.GetApiKey()), reply)
    ensures r.Failed? ==> config.Current() == old(config.Current()) && config.file == old(config.file)
    ensures r.Done? ==>
              config.Current() == old(config.Current()).(apiKey := Some(r.value.apiKey),
                credentials := Some(Credentials(r.value.username, r.value.password)))
              && config.file == Some(SaveProperties(config.Current(), encode))
    ensures config.legacyFile == old(config.legacyFile)
  {
    r := TrialOutcome(config.GetApiKey(), reply);
    if r.Done? {
      config.SetApiKey(r.value.apiKey);
      config.SetCredentials(Credentials(r.value.username, r.value.password));
      config.Save(encode);
    }
  }

  // ---------------------------------------------------------------------------------------
  // fetchMapmeterData
  // ---------------------------------------------------------------------------------------

  const MillisPerDay: int := 1000 * 60 * 60 * 24

  /** The request the data fetch sends: base URL, optional account, key and time window. */
  datatype FetchRequest = FetchRequest(baseUrl: string, credentials: Option<Credentials>,
                                       apiKey: string, start: int, end: int)

  /** Which request is sent, at time `now` (milliseconds), for the last `days` days. */
  function PlanFetch(view: ConfigView, days: int, now: int): (r: Outcome<FetchRequest>)
    ensures view.apiKey.None? ==> r.Failed? && r.failure.MissingApiKey?
    ensures view.apiKey.Some? && !view.isOnPremise && view.credentials.None? ==>
              r.Failed? && r.failure.MissingCredentials?
    ensures r.Done? <==> view.apiKey.Some? && (view.isOnPremise || view.credentials.Some?)
    ensures r.Done? ==> r.value.apiKey == view.apiKey.value && r.value.baseUrl == view.baseUrl
                        && r.value.credentials == view.credentials
                        && r.value.end == now && r.value.end - r.value.start == days * 86400000
  {
    if view.apiKey.None? then
      Failed(MissingApiKey("No api key configured, but asked to fetch data."))
    else if !view.isOnPremise && view.credentials.None? then
      Failed(MissingCredentials("No mapmeter credentials found, but asked to fetch data."))
    else
      Done(FetchRequest(view.baseUrl, view.credentials, view.apiKey.value,
                        now - MillisPerDay * days, now))
  }

  /** The failures a data fetch can end with. */
  predicate FetchFailure(f: Failure)
  {
    f.IOFailure? || f.MissingApiKey? || f.MissingCredentials? || f.SaasFailure?
  }

  /** `fetchMapmeterData`: the SaaS map unchanged on success, otherwise an exception. */
  function FetchMapmeterData(view: ConfigView, days: int, now: int, reply: Reply)
    : (r: Outcome<JsonMap>)
    ensures r.Failed? ==> FetchFailure(r.failure)
    ensures PlanFetch(view, days, now).Failed? ==> r == Failed(PlanFetch(view, days, now).failure)
    ensures PlanFetch(view, days, now).Done? && reply.Responded? ==>
              (r.Done? <==> !reply.response.isErrorStatus)
    ensures r.Done? ==> reply.Responded? && r.value == reply.response.body
    ensures r.Failed? && r.failure.SaasFailure? ==>
              reply.Responded? && r.failure.status == reply.response.status
              && r.failure.response == reply.response.body
              && r.failure.message == "Error fetching mapmeter data"
    ensures PlanFetch(view, days, now).Done? && reply.IOError? ==> r == Failed(IOFailure(reply.message))
  {
    match PlanFetch(view, days, now)
    case Failed(f) => Failed(f)
    case Done(_) =>
      match reply
      case IOError(m) => Failed(IOFailure(m))
      case Responded(resp) =>
        if resp.isErrorStatus
        then Failed(SaasFailure(resp.status, resp.body, "Error fetching mapmeter data"))
        else Done(resp.body)
  }

  /** On premise, missing credentials do not stop the fetch. */
  lemma OnPremiseNeedsNoCredentials(view: ConfigView, days: int, now: int, resp: SaasResponse)
    requires view.apiKey.Some? && view.isOnPremise && view.credentials.None?
    requires !resp.isErrorStatus
    ensures FetchMapmeterData(view, days, now, Responded(resp)) == Done(resp.body)
  {
  }

  // ---------------------------------------------------------------------------------------
  // convertMapmeterCredentials
  // ---------------------------------------------------------------------------------------

  /** The decision part of `convertMapmeterCredentials`: the user id found by the lookup when
   *  both the lookup and the conversion succeed. */
  function ConvertOutcome(existing: Option<Credentials>, lookup: Reply, convert: Reply)
    : (r: Outcome<string>)
    ensures existing.None? ==>
              r == Failed(IllegalState("No existing mapmeter credentials, but asked to convert"))
    ensures r.Done? ==>
              existing.Some? && lookup.Responded? && !lookup.response.isErrorStatus
              && Get(lookup.response.body, "id") == JStr(r.value)
              && convert.Responded? && !convert.response.isErrorStatus
    ensures existing.Some? && lookup.IOError? ==> r == Failed(IOFailure(lookup.message))
    ensures existing.Some? && lookup.Responded? && lookup.response.isErrorStatus ==>
              r == Failed(SaasFailure(lookup.response.status, lookup.response.body,
                                      "Failure looking up user in mapmeter"))
    ensures existing.Some? && lookup.Responded? && !lookup.response.isErrorStatus
            && Get(lookup.response.body, "id") == JNull ==>
              r == Failed(SaasFailure(lookup.response.status, lookup.response.body,
                                      "Unexpected user lookup response ... no id found"))
    ensures existing.Some? && lookup.Responded? && !lookup.response.isErrorStatus
            && !Get(lookup.response.body, "id").JNull? && !Get(lookup.response.body, "id").JStr? ==>
              r == Failed(ClassCast)
    // once the lookup has found a user id, the conversion reply alone decides
    ensures existing.Some? && lookup.Responded? && !lookup.response.isErrorStatus
            && Get(lookup.response.body, "id").JStr? ==>
              (convert.IOError? ==> r == Failed(IOFailure(convert.message)))
              && (convert.Responded? && convert.response.isErrorStatus ==>
                    r == Failed(SaasFailure(convert.response.status, convert.response.body,
                                            "Error converting mapmeter credentials")))
              && (convert.Responded? && !convert.response.isErrorStatus ==>
                    r == Done(Get(lookup.response.body, "id").s))
  {
    if existing.None? then
      Failed(IllegalState("No existing mapmeter credentials, but asked to convert"))
    else match lookup
      case IOError(m) => Failed(IOFailure(m))
      case Responded(found) =>
        if found.isErrorStatus then
          Failed(SaasFailure(found.status, found.body, "Failure looking up user in mapmeter"))
        else match AsString(Get(found.body, "id"))
          case CastFails => Failed(ClassCast)
          case Null => Failed(SaasFailure(found.status, found.body,
                                          "Unexpected user lookup response ... no id found"))
          case Value(userId) =>
            match convert
            case IOError(m) => Failed(IOFailure(m))
            case Responded(converted) =>
              if converted.isErrorStatus then
                Failed(SaasFailure(converted.status, converted.body,
                                   "Error converting mapmeter credentials"))
              else Done(userId)
  }

  /** `convertMapmeterCredentials`: the new account is stored and saved only after the lookup
   *  found an id and the conversion succeeded; otherwise nothing changes. */
  method ConvertMapmeterCredentials(config: Configuration, newCredentials: Credentials,
                                    lookup: Reply, convert: Reply, encode: string -> string)
    returns (r: Outcome<string>)
    modifies config
    ensures r == ConvertOutcome(old(config.credentials), lookup, convert)
    ensures r.Failed? ==> config.Current() == old(config.Current()) && config.file == old(config.file)
    ensures r.Done? ==>
              config.Current() == old(config.Current()).(credentials := Some(newCredentials))
              && config.file == Some(SaveProperties(config.Current(), encode))
    ensures config.legacyFile == old(config.legacyFile)
  {
    r := ConvertOutcome(config.credentials, lookup, convert);
    if r.Done? {
      config.SetCredentials(newCredentials);
      config.Save(encode);
    }
  }

  // ---------------------------------------------------------------------------------------
  // findUserState
  // ---------------------------------------------------------------------------------------

  datatype UserState = Normal | Anonymous | Converted

  /** `findUserState` from the stored account and the user-lookup reply. */
  function FindUserState(credentials: Option<Credentials>, reply: Reply): (r: Outcome<UserState>)
    ensures credentials.None? ==> r.Failed? && r.failure.MissingCredentials?
    ensures credentials.Some? && reply.IOError? ==> r == Failed(IOFailure(reply.message))
    ensures credentials.Some? && reply.Responded? && reply.response.isErrorStatus ==>
              r == Failed(SaasFailure(reply.response.status, reply.response.body,
                "Failure looking up user in mapmeter: " + credentials.value.username))
    ensures r == Done(Converted) <==>
              credentials.Some? && reply.Responded? && !reply.response.isErrorStatus
              && Get(reply.response.body, "isAnonymousSignup") == JBool(true)
              && Get(reply.response.body, "isAnonymousCredentialsConverted") == JBool(true)
    ensures r == Done(Anonymous) <==>
              credentials.Some? && reply.Responded? && !reply.response.isErrorStatus
              && Get(reply.response.body, "isAnonymousSignup") == JBool(true)
              && Get(reply.response.body, "isAnonymousCredentialsConverted") in {JNull, JBool(false)}
    ensures r == Done(Normal) <==>
              credentials.Some? && reply.Responded? && !reply.response.isErrorStatus
              && Get(reply.response.body, "isAnonymousSignup") in {JNull, JBool(false)}
  {
    if credentials.None? then
      Failed(MissingCredentials(
        "No existing mapmeter credentials, but asked to check if user is anonymous"))
    else match reply
      case IOError(m) => Failed(IOFailure(m))
      case Responded(resp) =>
        if resp.isErrorStatus then
          Failed(SaasFailure(resp.status, resp.body,
                             "Failure looking up user in mapmeter: " + credentials.value.username))
        else match AsBool(Get(resp.body, "isAnonymousSignup"))
          case CastFails => Failed(ClassCast)
          case Null => Done(Normal)
          case Value(false) => Done(Normal)
          case Value(true) =>
            match AsBool(Get(resp.body, "isAnonymousCredentialsConverted"))
            case CastFails => Failed(ClassCast)
            case Value(true) => Done(Converted)
            case _ => Done(Anonymous)
  }

  // ---------------------------------------------------------------------------------------
  // checkMapmeterMessageStorage
  // ---------------------------------------------------------------------------------------

  /** The fields of the storage-check reply and the values `checkMapmeterMessageStorage` knows. */
  const STATUS := "status"
  const API_KEY_STATUS := "api_key_status"
  const ERROR_FIELD := "error"
  const OK := "OK"
  const ERROR := "ERROR"
  const INVALID := "INVALID"

  /** `checkMapmeterMessageStorage` from the configured key and the storage-check reply. */
  function CheckMessageStorage(apiKey: Option<string>, reply: Reply): (r: Outcome<SR.StorageResult>)
    ensures apiKey.None? ==>
              r == Failed(MissingApiKey("No existing api key but asked to check message storage"))
    ensures apiKey.Some? && reply.IOError? ==> r == Failed(IOFailure(reply.message))
    // any error status of the SaaS is reported with that status
    ensures apiKey.Some? && reply.Responded? && reply.response.isErrorStatus ==>
              r == Failed(SaasFailure(reply.response.status, reply.response.body,
                                      "Failure checking message storage for key: " + apiKey.value))
    ensures r.Done? ==> apiKey.Some? && r.value.apiKey == apiKey.value
                        && reply.Responded? && !reply.response.isErrorStatus
    // the result is built by one of the three factories
    ensures r.Done? ==> SR.Made(r.value)
  {
    if apiKey.None? then
      Failed(MissingApiKey("No existing api key but asked to check message storage"))
    else match reply
      case IOError(m) => Failed(IOFailure(m))
      case Responded(resp) =>
        if resp.isErrorStatus then
          Failed(SaasFailure(resp.status, resp.body,
                             "Failure checking message storage for key: " + apiKey.value))
        else
          var status := AsString(Get(resp.body, STATUS));
          var error := AsString(Get(resp.body, ERROR_FIELD));
          var keyStatus := AsString(Get(resp.body, API_KEY_STATUS));
          if status.CastFails? || error.CastFails? || keyStatus.CastFails? then
            Failed(Unexpected(resp.status))
          else if status == Value(ERROR) then
            if keyStatus.Value? then
              if keyStatus.v == INVALID then Done(SR.InvalidApiKey(apiKey.value))
              else Failed(Unexpected(resp.status))
            else if error.Null? then Failed(NullPointer)
            else Done(SR.Error(apiKey.value, error.v))
          else if status == Value(OK) then Done(SR.Success(apiKey.value))
          else Failed(Unexpected(resp.status))
  }

  /**
   * The outcomes of a storage check on a non-error reply: "OK" is a success, "ERROR" with
   * api_key_status "INVALID" an invalid key, "ERROR" without api_key_status an error carrying
   * the reply's error text (a missing text fails in `Optional.of`); any other status, any other
   * api_key_status, or a field that is not a string is an unexpected reply.
   */
  lemma StorageCheckOutcomes(apiKey: Option<string>, reply: Reply)
    requires apiKey.Some? && reply.Responded? && !reply.response.isErrorStatus
    ensures var r := CheckMessageStorage(apiKey, reply);
      var body := reply.response.body;
      var status := Get(body, STATUS);
      var keyStatus := Get(body, API_KEY_STATUS);
      var error := Get(body, ERROR_FIELD);
      var castsOk := !AsString(status).CastFails? && !AsString(keyStatus).CastFails?
                     && !AsString(error).CastFails?;
      ((r == Done(SR.Success(apiKey.value))) <==> (castsOk && status == JStr(OK)))
      && ((r == Done(SR.InvalidApiKey(apiKey.value)))
          <==> (castsOk && status == JStr(ERROR) && keyStatus == JStr(INVALID)))
      && ((r.Done? && r.value.IsError())
          <==> (castsOk && status == JStr(ERROR) && keyStatus == JNull && error.JStr?))
      && (r.Done? && r.value.IsError() ==> r.value.GetError() == error.s)
      && ((r == Failed(NullPointer))
          <==> (castsOk && status == JStr(ERROR) && keyStatus == JNull && error == JNull))
      && ((r == Failed(Unexpected(reply.response.status)))
          <==> (!castsOk || (status != JStr(OK) && status != JStr(ERROR))
                || (status == JStr(ERROR) && keyStatus.JStr? && keyStatus != JStr(INVALID))))
  {
  }
}
