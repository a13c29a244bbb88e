/**
 * The REST resource behind `rest/mapmeter/data.json`: it turns the outcome of the service's
 * data fetch into the JSON envelope the widget reads, either the SaaS map itself or an
 * `error` entry with an optional `reason`.
 */
module MapmeterDataResource {
  import opened Wrappers
  import opened MapmeterService
  import MapmeterConfig
  import W = MapmeterWidget

  /** The reason derived from a SaaS status code when the SaaS gave none. */
  function StatusReason(status: int): (r: Option<string>)
    ensures status == 403 <==> r == Some("serverExpired")
    ensures status == 401 <==> r == Some("missingCredentials")
    ensures status == 400 <==> r == Some("invalidApiKey")
    ensures r.Some? ==> W.ElementNamed(r.value).Some?
  {
    if status == 403 then Some("serverExpired")
    else if status == 401 then Some("missingCredentials")
    else if status == 400 then Some("invalidApiKey")
    else None
  }

  const MissingApiKeyText := "No mapmeter api key configured, cannot fetch mapmeter data"
  const MissingCredentialsText :=
    "No mapmeter saas credentials configured, cannot fetch mapmeter data"

  /** A possibly-null Java string as a JSON value. */
  function JsonText(s: Option<string>): Json
  {
    if s.Some? then JStr(s.value) else JNull
  }

  /** The envelope for one fetch outcome. */
  function Envelope(fetched: Outcome<JsonMap>): (m: JsonMap)
    requires fetched.Failed? ==> FetchFailure(fetched.failure)
    ensures fetched.Done? ==> m == fetched.value
    ensures fetched.Failed? ==> "error" in m && m.Keys <= {"error", "reason"}
    ensures fetched.Failed? && fetched.failure.IOFailure? ==>
              m == map["error" := JsonText(fetched.failure.ioMessage)]
    ensures fetched.Failed? && fetched.failure.MissingApiKey? ==>
              m == map["error" := JStr(MissingApiKeyText), "reason" := JStr("missingApiKey")]
    ensures fetched.Failed? && fetched.failure.MissingCredentials? ==>
              m == map["error" := JStr(MissingCredentialsText),
                       "reason" := JStr("missingCredentials")]
    ensures fetched.Failed? && fetched.failure.SaasFailure? ==>
              var f := fetched.failure;
              m["error"] == JStr(f.message)
              && (Get(f.response, "reason").JStr? ==> Get(m, "reason") == Get(f.response, "reason"))
              && (!Get(f.response, "reason").JStr? ==>
                    ("reason" in m <==> StatusReason(f.status).Some?)
                    && ("reason" in m ==> m["reason"] == JStr(StatusReason(f.status).value)))
  {
    match fetched
    case Done(body) => body
    case Failed(f) =>
      if f.IOFailure? then map["error" := JsonText(f.ioMessage)]
      else if f.MissingApiKey? then
        map["error" := JStr(MissingApiKeyText), "reason" := JStr("missingApiKey")]
      else if f.MissingCredentials? then
        map["error" := JStr(MissingCredentialsText), "reason" := JStr("missingCredentials")]
      else
        assert f.SaasFailure?;
        var result := map["error" := JStr(f.message)];
        var given := Get(f.response, "reason");
        if given.JStr? then result["reason" := given]
        else match StatusReason(f.status)
          case Some(reason) => result["reason" := JStr(reason)]
          case None => result
  }

  /** `fetchResponse`: the service's data fetch followed by the envelope. */
  function FetchResponse(view: MapmeterConfig.ConfigView, days: int, now: int, reply: Reply)
    : (m: JsonMap)
    ensures var f := FetchMapmeterData(view, days, now, reply);
      (f.Done? ==> m == f.value) && (f.Failed? ==> "error" in m)
    ensures view.apiKey.None? ==>
              m == map["error" := JStr(MissingApiKeyText), "reason" := JStr("missingApiKey")]
    ensures view.apiKey.Some? && !view.isOnPremise && view.credentials.None? ==>
              m == map["error" := JStr(MissingCredentialsText),
                       "reason" := JStr("missingCredentials")]
    ensures PlanFetch(view, days, now).Done? && reply.IOError? ==>
              m == map["error" := JsonText(reply.message)]
    ensures PlanFetch(view, days, now).Done? && reply.Responded? && reply.response.isErrorStatus ==>
              m["error"] == JStr("Error fetching mapmeter data")
  {
    Envelope(FetchMapmeterData(view, days, now, reply))
  }

  /** How the widget reads a failure envelope, which never carries a `data` key. */
  function AsWidgetEnvelope(m: JsonMap): W.Envelope
  {
    var error := Get(m, "error");
    var reason := Get(m, "reason");
    W.Envelope(if error.JStr? then Some(error.s) else None,
               if reason.JStr? then Some(reason.s) else None,
               None)
  }

  /** End to end, server to browser: a missing key is silent, missing credentials and the
   *  status-derived reasons show their own message, and a SaaS failure with any other status
   *  and no reason of its own is only logged. */
  lemma WidgetReactionToFailures(f: Failure)
    requires FetchFailure(f)
    requires f.SaasFailure? ==> f.message != "" && !Get(f.response, "reason").JStr?
    ensures var shown := W.Classify(Some(AsWidgetEnvelope(Envelope(Failed(f)))));
      (f.MissingApiKey? ==> shown == W.Silent)
      && (f.MissingCredentials? ==> shown == W.ShowElement(W.MissingCredentials))
      && (f.SaasFailure? && f.status == 403 ==> shown == W.ShowElement(W.ServerExpired))
      && (f.SaasFailure? && f.status == 401 ==> shown == W.ShowElement(W.MissingCredentials))
      && (f.SaasFailure? && f.status == 400 ==> shown == W.ShowElement(W.InvalidApiKey))
      && (f.SaasFailure? && f.status !in {400, 401, 403} ==> shown == W.LogError(f.message))
      && (f.IOFailure? ==> shown.LogError? || shown.LogUnknownResponse?)
  {
    var m := Envelope(Failed(f));
    if f.SaasFailure? {
      assert m["error"] == JStr(f.message);
    }
  }
}
