/**
 * The Mapmeter administration page: which of its forms are shown for the current
 * configuration and user state, and what its submit handlers report and change.
 */
module MapmeterPage {
  import opened Wrappers
  import opened JavaStrings
  import opened MapmeterConfig
  import opened MapmeterService
  import SR = MapmeterStorageResult

  /** The visibility of the page's forms and labels, and the user name pre-filled in the
   *  credentials-update form. */
  datatype Forms = Forms(enable: bool, convert: bool, credentialsUpdate: bool,
                         invalidCredentials: bool, connectionCheck: bool,
                         apiKeyForm: bool, apiKeyWarning: bool, currentUsername: string)

  /** The SaaS account is stored and the key is present, so the page asks for the user state. */
  predicate AsksUserState(view: ConfigView)
  {
    !view.isOnPremise && view.apiKey.Some? && view.credentials.Some?
  }

  /** `addElements`: the forms shown, given the configuration and the user-lookup reply.
   *  `None` when an exception the page does not catch escapes (a malformed lookup reply). */
  function AddElements(view: ConfigView, lookup: Reply): (r: Option<Forms>)
    ensures r.None? <==> AsksUserState(view) && FindUserState(view.credentials, lookup) == Failed(ClassCast)
    ensures r.Some? ==> r.value.apiKeyForm == !view.apiKeyOverridden
                        && r.value.apiKeyWarning == view.apiKeyOverridden
    ensures view.isOnPremise ==>
              r.Some? && !r.value.enable && !r.value.convert && !r.value.credentialsUpdate
              && !r.value.connectionCheck
    ensures r.Some? ==> (r.value.enable <==> !view.isOnPremise && view.apiKey.None?)
    ensures r.Some? ==> (r.value.connectionCheck <==> !view.isOnPremise && view.apiKey.Some?)
    ensures r.Some? ==>
              (r.value.convert <==>
                 AsksUserState(view) && FindUserState(view.credentials, lookup) == Done(Anonymous))
    ensures r.Some? ==>
              (r.value.invalidCredentials <==>
                 AsksUserState(view) && FindUserState(view.credentials, lookup).Failed?
                 && FindUserState(view.credentials, lookup).failure.SaasFailure?
                 && FindUserState(view.credentials, lookup).failure.status == 401)
    ensures r.Some? && !view.isOnPremise && view.apiKey.Some? ==>
              (r.value.credentialsUpdate <==>
                 view.credentials.None?
                 || (var s := FindUserState(view.credentials, lookup);
                     s == Done(Normal) || s == Done(Converted) || (s.Failed? && s.failure.IOFailure?)
                     || (s.Failed? && s.failure.SaasFailure? && s.failure.status == 401)))
    ensures r.Some? ==> !(r.value.convert && r.value.credentialsUpdate)
    ensures r.Some? ==> !(r.value.enable && (r.value.convert || r.value.credentialsUpdate))
  {
    var base := Forms(false, false, false, false, false, !view.apiKeyOverridden,
                      view.apiKeyOverridden, "");
    if view.isOnPremise then Some(base)
    else if view.apiKey.None? then Some(base.(enable := true))
    else
      var checking := base.(connectionCheck := true);
      if view.credentials.None? then Some(checking.(credentialsUpdate := true))
      else
        var named := checking.(currentUsername := view.credentials.value.username);
        match FindUserState(view.credentials, lookup)
        case Done(Anonymous) => Some(named.(convert := true))
        case Done(_) => Some(named.(credentialsUpdate := true))
        case Failed(IOFailure(_)) => Some(named.(credentialsUpdate := true))
        case Failed(SaasFailure(status, _, _)) =>
          if status == 401 then Some(named.(invalidCredentials := true, credentialsUpdate := true))
          else Some(named)
        case Failed(MissingCredentials(_)) => Some(named.(credentialsUpdate := true))
        case Failed(ClassCast) => None
        case Failed(_) => assert false; None
  }

  /** A message in the page's feedback panel; `Required` lists the ids of the required
   *  fields Wicket found blank. */
  datatype Feedback = Info(text: string) | Error(text: string) | Required(fields: seq<string>)

  /** What the connection-check button shows for the outcome of the storage check; `None`
   *  when the exception is one the page does not catch. */
  function StorageCheckFeedback(c: Outcome<SR.StorageResult>): (r: Option<Feedback>)
    ensures c.Done? ==>
              (c.value.IsError() ==> r == Some(Error("Mapmeter error: " + c.value.GetError())))
              && (!c.value.IsError() && !c.value.isValidApiKey ==> r == Some(Error("Invalid API key")))
              && (!c.value.IsError() && c.value.isValidApiKey ==>
                    r == Some(Info("Valid API key. Mapmeter will accept messages with this API key.")))
    ensures c.Failed? && c.failure.IOFailure? ==> r == Some(Error("IO Failure connecting to mapmeter"))
    ensures c.Failed? && c.failure.SaasFailure? ==> r == Some(Error("Failure response from mapmeter"))
    ensures c.Failed? && c.failure.MissingApiKey? ==> r == Some(Error("Missing api key"))
    ensures r.None? <==> c.Failed? && !c.failure.IOFailure? && !c.failure.SaasFailure?
                         && !c.failure.MissingApiKey?
    ensures r.Some? && r.value.Info? ==> c.Done? && !c.value.IsError() && c.value.isValidApiKey
  {
    match c
    case Done(result) =>
      if result.IsError() then Some(Error("Mapmeter error: " + result.GetError()))
      else if !result.isValidApiKey then Some(Error("Invalid API key"))
      else Some(Info("Valid API key. Mapmeter will accept messages with this API key."))
    case Failed(IOFailure(_)) => Some(Error("IO Failure connecting to mapmeter"))
    case Failed(SaasFailure(_, _, _)) => Some(Error("Failure response from mapmeter"))
    case Failed(MissingApiKey(_)) => Some(Error("Missing api key"))
    case Failed(_) => None
  }

  /** The connection-check button: the feedback shown, or `None` when an exception the page
   *  does not catch escapes. The key is read twice: by the page, under the configuration's
   *  lock (`pageKey`), and again by the service when the check runs (`serviceKey`); a REST
   *  call may remove it in between. */
  function ConnectionCheckFeedback(pageKey: Option<string>, serviceKey: Option<string>,
                                   reply: Reply): (r: Option<Feedback>)
    ensures pageKey.None? ==> r == Some(Error("API key must be set first."))
    ensures pageKey.Some? ==> r == StorageCheckFeedback(CheckMessageStorage(serviceKey, reply))
    ensures pageKey.Some? && serviceKey.None? ==> r == Some(Error("Missing api key"))
    ensures var c := CheckMessageStorage(serviceKey, reply);
      pageKey.Some? && c.Done? && c.value.isValidApiKey ==>
        r == Some(Info("Valid API key. Mapmeter will accept messages with this API key."))
    ensures pageKey.Some? && serviceKey.Some? && reply.IOError? ==>
              r == Some(Error("IO Failure connecting to mapmeter"))
    ensures pageKey.Some? && serviceKey.Some? && reply.Responded? && reply.response.isErrorStatus ==>
              r == Some(Error("Failure response from mapmeter"))
    ensures r.Some? && r.value.Info? ==>
              serviceKey.Some? && CheckMessageStorage(serviceKey, reply) == Done(SR.Success(serviceKey.value))
    ensures r.None? <==> pageKey.Some? && CheckMessageStorage(serviceKey, reply) == Failed(NullPointer)
  {
    if pageKey.None? then Some(Error("API key must be set first."))
    else StorageCheckFeedback(CheckMessageStorage(serviceKey, reply))
  }

  /** Both password fields must agree once trimmed. */
  predicate PasswordsMatch(password1: string, password2: string)
  {
    Trim(password1) == Trim(password2)
  }

  const PasswordMismatch := Error("Passwords do not match")

  // ---------------------------------------------------------------------------------------
  // Required fields: Wicket refuses a blank entry before the submit handler runs
  // ---------------------------------------------------------------------------------------

  /** Wicket's required check: an entry with no visible character is missing. */
  predicate Blank(entry: string)
  {
    Trim(entry) == ""
  }

  /** Every entry of a form passes the required check. */
  predicate Filled(entries: seq<string>)
  {
    forall k :: 0 <= k < |entries| ==> !Blank(entries[k])
  }

  const ApiKeyField := "apikey-field"
  const ConvertFields := ["mapmeter-credentials-convert-username",
                          "mapmeter-credentials-convert-password1",
                          "mapmeter-credentials-convert-password2"]
  const SaveFields := ["mapmeter-credentials-save-username",
                       "mapmeter-credentials-save-password1",
                       "mapmeter-credentials-save-password2"]

  /** The ids of the required fields whose entries are blank, in the form's order. */
  function MissingFields(ids: seq<string>, entries: seq<string>): (r: seq<string>)
    requires |ids| == |entries|
    ensures r == [] <==> Filled(entries)
    ensures |r| <= |ids|
    ensures forall id :: id in r ==> id in ids
    ensures forall k :: 0 <= k < |ids| && Blank(entries[k]) ==> ids[k] in r
  {
    if ids == [] then []
    else
      var rest := MissingFields(ids[1..], entries[1..]);
      assert forall k :: 1 <= k < |entries| ==> entries[k] == entries[1..][k - 1];
      (if Blank(entries[0]) then [ids[0]] else []) + rest
  }

  // ---------------------------------------------------------------------------------------
  // The convert form's failure messages
  // ---------------------------------------------------------------------------------------

  /** `getErrorMessage()` of a SaaS failure: the reply's own "message" entry, when it is text. */
  function ErrorMessage(f: Failure): (m: Option<string>)
    requires f.SaasFailure?
    ensures m.Some? <==> Get(f.response, "message").JStr?
    ensures m.Some? ==> Get(f.response, "message") == JStr(m.value)
  {
    match Get(f.response, "message")
    case JStr(text) => Some(text)
    case _ => None
  }

  /** What the convert form shows for an exception the service ends with; `None` for the
   *  exceptions the page does not catch. */
  function ConvertFailureFeedback(f: Failure): (r: Option<Feedback>)
    ensures r.Some? <==> f.IOFailure? || f.SaasFailure?
    ensures r.Some? ==> r.value.Error?
    ensures f.IOFailure? ==>
              r == Some(Error("Error converting mapmeter credentials: " + JavaText(f.ioMessage)))
    ensures f.SaasFailure? && ErrorMessage(f).Some? ==>
              r == Some(Error(f.message + ": " + ErrorMessage(f).value))
    ensures f.SaasFailure? && ErrorMessage(f).None? ==>
              r == Some(Error("Error response from mapmeter: " + f.message))
  {
    match f
    case IOFailure(m) => Some(Error("Error converting mapmeter credentials: " + JavaText(m)))
    case SaasFailure(_, _, message) =>
      if ErrorMessage(f).Some? then Some(Error(message + ": " + ErrorMessage(f).value))
      else Some(Error("Error response from mapmeter: " + message))
    case _ => None
  }

  /** What the free-trial button shows for an exception the service ends with; `None` for
   *  the exceptions the page does not catch. */
  function EnableFailureFeedback(f: Failure): (r: Option<Feedback>)
    ensures r.Some? <==> f.IOFailure? || f.SaasFailure?
    ensures f.IOFailure? ==>
              r == Some(Error("IO Error activating mapmeter: " + JavaText(f.ioMessage)))
    ensures f.SaasFailure? ==> r == Some(Error("Error activating mapmeter: " + f.message))
  {
    match f
    case IOFailure(m) => Some(Error("IO Error activating mapmeter: " + JavaText(m)))
    case SaasFailure(_, _, message) => Some(Error("Error activating mapmeter: " + message))
    case _ => None
  }

  /** The page's mutable part: form visibility, the feedback panel and the pre-filled fields. */
  class Page {
    var forms: Forms
    var feedback: Option<Feedback>
    var apiKeyField: string

    constructor (forms: Forms, apiKey: Option<string>)
      ensures this.forms == forms && feedback.None? && apiKeyField == apiKey.Or("")
    {
      this.forms := forms;
      feedback := None;
      apiKeyField := apiKey.Or("");
    }

    /** The API-key form: a blank key is refused by Wicket and only reported; otherwise the
     *  trimmed key is stored and saved, and the connection check becomes available. */
    method SubmitApiKey(config: Configuration, entered: string, encode: string -> string)
      modifies this, config`apiKeyProperties, config`file
      ensures Blank(entered) ==>
                feedback == Some(Required([ApiKeyField])) && forms == old(forms)
                && apiKeyField == old(apiKeyField)
                && config.apiKeyProperties == old(config.apiKeyProperties)
                && config.file == old(config.file)
      ensures !Blank(entered) ==>
                config.apiKeyProperties == Some(Trim(entered))
                && config.file == Some(SaveProperties(config.Current(), encode))
                && forms == old(forms).(connectionCheck := true)
                && feedback == Some(Info("API key saved")) && apiKeyField == Trim(entered)
    {
      if Blank(entered) {
        feedback := Some(Required([ApiKeyField]));
        return;
      }
      apiKeyField := Trim(entered);
      config.SetApiKey(apiKeyField);
      config.Save(encode);
      feedback := Some(Info("API key saved"));
      forms := forms.(connectionCheck := true);
    }

    /** The free-trial button. */
    method SubmitEnable(config: Configuration, reply: Reply, encode: string -> string)
      returns (ok: bool)
      modifies this, config
      ensures ok <==> !TrialOutcome(old(config.GetApiKey()), reply).Failed?
      ensures var t := TrialOutcome(old(config.GetApiKey()), reply);
        t.Done? ==>
          config.Current() == old(config.Current()).(apiKey := Some(t.value.apiKey),
                                                     credentials := Some(Credentials(t.value.username, t.value.password)))
          && config.file == Some(SaveProperties(config.Current(), encode))
          && apiKeyField == t.value.apiKey && feedback == Some(Info("Mapmeter trial activated"))
          && forms == old(forms).(enable := false, convert := true, connectionCheck := true)
      ensures var t := TrialOutcome(old(config.GetApiKey()), reply);
        t.Failed? ==>
          config.Current() == old(config.Current()) && config.file == old(config.file)
          && forms == old(forms) && apiKeyField == old(apiKeyField)
          && (t.failure.IOFailure? ==>
                feedback == Some(Error("IO Error activating mapmeter: " + JavaText(t.failure.ioMessage))))
          && (t.failure.SaasFailure? ==>
                feedback == Some(Error("Error activating mapmeter: " + t.failure.message)))
          && (!t.failure.IOFailure? && !t.failure.SaasFailure? ==> feedback == old(feedback))
      ensures config.legacyFile == old(config.legacyFile)
    {
      var r := StartFreeTrial(config, reply, encode);
      ok := r.Done?;
      if r.Done? {
        apiKeyField := r.value.apiKey;
        feedback := Some(Info("Mapmeter trial activated"));
        forms := forms.(enable := false, convert := true, connectionCheck := true);
      } else {
        // an IllegalStateException is not caught by the page: nothing is shown
        var shown := EnableFailureFeedback(r.failure);
        if shown.Some? {
          feedback := shown;
        }
      }
    }

    /** The convert form: blank fields are refused by Wicket and mismatching passwords by the
     *  handler, both before the service is called; a conversion shows the credentials-update
     *  form pre-filled with the new user name, and a failure shows the exception's text. */
    method SubmitConvert(config: Configuration, username: string, password1: string,
                         password2: string, lookup: Reply, convert: Reply,
                         encode: string -> string)
      modifies this, config
      ensures !Filled([username, password1, password2]) ==>
                feedback == Some(Required(MissingFields(ConvertFields, [username, password1, password2])))
                && forms == old(forms)
                && config.Current() == old(config.Current()) && config.file == old(config.file)
      ensures Filled([username, password1, password2]) && !PasswordsMatch(password1, password2) ==>
                feedback == Some(PasswordMismatch) && forms == old(forms)
                && config.Current() == old(config.Current()) && config.file == old(config.file)
      ensures var c := ConvertOutcome(old(config.credentials), lookup, convert);
        Filled([username, password1, password2]) && PasswordsMatch(password1, password2) ==>
          (c.Done? ==>
             config.Current() == old(config.Current()).(credentials :=
                                    Some(Credentials(Trim(username), Trim(password2))))
             && config.file == Some(SaveProperties(config.Current(), encode))
             && forms == old(forms).(convert := false, credentialsUpdate := true,
                                     currentUsername := Trim(username))
             && feedback == Some(Info("Mapmeter credentials converted")))
          && (c.Failed? && ConvertFailureFeedback(c.failure).Some? ==>
                feedback == ConvertFailureFeedback(c.failure))
          && (c.Failed? && ConvertFailureFeedback(c.failure).None? ==> feedback == old(feedback))
      ensures ConvertOutcome(old(config.credentials), lookup, convert).Failed? ==>
                forms == old(forms) && config.Current() == old(config.Current())
                && config.file == old(config.file)
      ensures config.legacyFile == old(config.legacyFile)
    {
      var missing := MissingFields(ConvertFields, [username, password1, password2]);
      if missing != [] {
        feedback := Some(Required(missing));
        return;
      }
      if !PasswordsMatch(password1, password2) {
        feedback := Some(PasswordMismatch);
        return;
      }
      var newCredentials := Credentials(Trim(username), Trim(password2));
      var r := ConvertMapmeterCredentials(config, newCredentials, lookup, convert, encode);
      match r
      case Done(_) =>
        forms := forms.(convert := false, credentialsUpdate := true,
                        currentUsername := Trim(username));
        feedback := Some(Info("Mapmeter credentials converted"));
      case Failed(f) =>
        // an IllegalStateException or ClassCastException is not caught by the page
        var shown := ConvertFailureFeedback(f);
        if shown.Some? {
          feedback := shown;
        }
    }

    /** The credentials-update form: blank fields are refused by Wicket, mismatching passwords
     *  by the handler; otherwise the account is stored and saved. */
    method SubmitSaveCredentials(config: Configuration, username: string, password1: string,
                                 password2: string, encode: string -> string)
      modifies this`feedback, config`credentials, config`file
      ensures !Filled([username, password1, password2]) ==>
                feedback == Some(Required(MissingFields(SaveFields, [username, password1, password2])))
                && config.credentials == old(config.credentials) && config.file == old(config.file)
      ensures Filled([username, password1, password2]) && !PasswordsMatch(password1, password2) ==>
                feedback == Some(PasswordMismatch)
                && config.credentials == old(config.credentials) && config.file == old(config.file)
      ensures Filled([username, password1, password2]) && PasswordsMatch(password1, password2) ==>
                config.credentials == Some(Credentials(Trim(username), Trim(password2)))
                && config.file == Some(SaveProperties(config.Current(), encode))
                && feedback == Some(Info("Credentials saved"))
    {
      var missing := MissingFields(SaveFields, [username, password1, password2]);
      if missing != [] {
        feedback := Some(Required(missing));
        return;
      }
      if !PasswordsMatch(password1, password2) {
        feedback := Some(PasswordMismatch);
        return;
      }
      config.SetCredentials(Credentials(Trim(username), Trim(password2)));
      config.Save(encode);
      feedback := Some(Info("Credentials saved"));
    }
  }

  /** A lookup the SaaS refuses shows its status text followed by the reply's own message. */
  lemma LookupRefusalShowsReplyMessage(existing: Credentials, found: SaasResponse, convert: Reply,
                                       detail: string)
    requires found.isErrorStatus && Get(found.body, "message") == JStr(detail)
    ensures var c := ConvertOutcome(Some(existing), Responded(found), convert);
      c.Failed? && ConvertFailureFeedback(c.failure)
                   == Some(Error("Failure looking up user in mapmeter: " + detail))
  {
    assert "Failure looking up user in mapmeter" + ": " == "Failure looking up user in mapmeter: ";
  }

  /** A lookup reply without an id and without a message shows the fixed fallback text. */
  lemma MissingIdWithoutMessageShowsFallback(existing: Credentials, found: SaasResponse,
                                             convert: Reply)
    requires !found.isErrorStatus && "id" !in found.body && "message" !in found.body
    ensures var c := ConvertOutcome(Some(existing), Responded(found), convert);
      c.Failed? && ConvertFailureFeedback(c.failure)
                   == Some(Error("Error response from mapmeter: "
                                 + "Unexpected user lookup response ... no id found"))
  {
  }

  /** An exception the service raises for a malformed reply shows both of its texts. */
  lemma UnexpectedReplyShowsBothTexts(status: int)
    ensures ConvertFailureFeedback(Unexpected(status))
            == Some(Error("Unexpected mapmeter saas response: "
                          + "Unexpected json response from mapmeter saas"))
  {
    assert "Unexpected mapmeter saas response" + ": " == "Unexpected mapmeter saas response: ";
  }

  /** A form whose every entry is blank reports every one of its required fields. */
  lemma {:induction false} AllBlankReportsEveryField(ids: seq<string>, entries: seq<string>)
    requires |ids| == |entries|
    requires forall k :: 0 <= k < |entries| ==> Blank(entries[k])
    ensures MissingFields(ids, entries) == ids
  {
    if ids != [] {
      AllBlankReportsEveryField(ids[1..], entries[1..]);
      assert ids == [ids[0]] + ids[1..];
    }
  }
}
