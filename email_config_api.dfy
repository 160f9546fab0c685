/**
 * The e-mail integration endpoints of src/lib/api/emailConfigApi.ts and the records
 * of src/types/emailConfig.types.ts.  The HTTP client is not part of this model: each
 * endpoint is described by the call it hands to the client, and what the client
 * answers is a parameter.
 */
module EmailConfigApi {
  import opened Outcomes

  datatype AuthMethod = Password | OAuth2

  /** `EmailConfig`: what the server holds for a company (never the password). */
  datatype EmailConfig = EmailConfig(
    id: string, companyId: string, authMethod: AuthMethod,
    imapHost: string, imapPort: int, imapUsername: string,
    inboxFolder: string, pollIntervalSecs: int, isEnabled: bool, lastSyncAt: Option<string>)

  /** `EmailConfigRequest`: every field present. */
  datatype ConfigRequest = ConfigRequest(
    imapHost: string, imapPort: int, imapUsername: string, imapPassword: string,
    inboxFolder: string, pollIntervalSecs: int)

  /** `Partial<EmailConfigRequest>`: a `None` field is a key left out of the body. */
  datatype ConfigPatch = ConfigPatch(
    imapHost: Option<string>, imapPort: Option<int>, imapUsername: Option<string>,
    imapPassword: Option<string>, inboxFolder: Option<string>, pollIntervalSecs: Option<int>)

  /** `EmailConfigTestResponse`. */
  datatype TestResponse = TestResponse(success: bool, message: string)

  /** The JSON body of a call, if it has one. */
  datatype Payload = NoPayload | ConfigBody(patch: ConfigPatch) | EnabledBody(enabled: bool) | CompanyBody(companyId: string)

  /** What an endpoint asks the client for: an HTTP verb, a path and a body. */
  datatype ApiCall = ApiCall(verb: string, path: string, payload: Payload)

  /** A rejected client call: the response status when there was a response, and the
      `message` of the response data ("" when absent). */
  datatype ApiError = ApiError(status: Option<int>, message: string)

  const BasePath: string := "/companies"

  /** The path shared by the configuration endpoints of a company. */
  function ConfigPath(companyId: string): string {
    BasePath + "/" + companyId + "/email-config"
  }

  /** The body of a full request. */
  function Whole(r: ConfigRequest): (p: ConfigPatch)
    ensures p.imapHost == Some(r.imapHost) && p.imapPort == Some(r.imapPort)
    ensures p.imapUsername == Some(r.imapUsername) && p.imapPassword == Some(r.imapPassword)
    ensures p.inboxFolder == Some(r.inboxFolder) && p.pollIntervalSecs == Some(r.pollIntervalSecs)
  {
    ConfigPatch(Some(r.imapHost), Some(r.imapPort), Some(r.imapUsername), Some(r.imapPassword),
      Some(r.inboxFolder), Some(r.pollIntervalSecs))
  }

  function GetConfigCall(companyId: string): ApiCall {
    ApiCall("GET", ConfigPath(companyId), NoPayload)
  }

  function CreateConfigCall(companyId: string, data: ConfigRequest): ApiCall {
    ApiCall("POST", ConfigPath(companyId), ConfigBody(Whole(data)))
  }

  function UpdateConfigCall(companyId: string, data: ConfigPatch): ApiCall {
    ApiCall("PUT", ConfigPath(companyId), ConfigBody(data))
  }

  function DeleteConfigCall(companyId: string): ApiCall {
    ApiCall("DELETE", ConfigPath(companyId), NoPayload)
  }

  function TestConnectionCall(companyId: string): ApiCall {
    ApiCall("POST", ConfigPath(companyId) + "/test", NoPayload)
  }

  function ToggleEnabledCall(companyId: string, enabled: bool): ApiCall {
    ApiCall("PATCH", ConfigPath(companyId) + "/toggle", EnabledBody(enabled))
  }

  function DisconnectGmailCall(companyId: string): ApiCall {
    ApiCall("POST", "/auth/google/disconnect", CompanyBody(companyId))
  }

  /** `getConfig`: the data on success, `null` for a 404, any other error passed on as
      it came. */
  function GetConfigOutcome(reply: Result<EmailConfig, ApiError>): (r: Result<Option<EmailConfig>, ApiError>)
    ensures reply.Success? ==> r == Success(Some(reply.value))
    ensures r == Success(None) <==> reply.Failure? && reply.error.status == Some(404)
    ensures r.Failure? <==> reply.Failure? && reply.error.status != Some(404)
    ensures r.Failure? ==> r.error == reply.error
  {
    match reply
    case Success(data) => Success(Some(data))
    case Failure(error) => if error.status == Some(404) then Success(None) else Failure(error)
  }

  /** Two companies share configuration endpoints only if they are the same company. */
  lemma ConfigPathInjective(a: string, b: string)
    ensures ConfigPath(a) == ConfigPath(b) <==> a == b
  {
    if ConfigPath(a) == ConfigPath(b) {
      var s := ConfigPath(a);
      var start := |BasePath| + 1;
      assert |a| == |b|;
      assert s == (BasePath + "/") + (a + "/email-config");
      assert s == (BasePath + "/") + (b + "/email-config");
      assert a == s[start..start + |a|];
      assert b == s[start..start + |b|];
    }
  }

  /** Reading, creating, updating and deleting address the same resource with four
      different verbs; testing and toggling address sub-resources of it, and only the
      toggle and the writes carry a body. */
  lemma EndpointsOfCompany(companyId: string, create: ConfigRequest, update: ConfigPatch, enabled: bool)
    ensures var p := GetConfigCall(companyId).path;
      p == "/companies/" + companyId + "/email-config" &&
      CreateConfigCall(companyId, create).path == p && UpdateConfigCall(companyId, update).path == p &&
      DeleteConfigCall(companyId).path == p &&
      TestConnectionCall(companyId).path == p + "/test" &&
      ToggleEnabledCall(companyId, enabled).path == p + "/toggle"
    ensures [GetConfigCall(companyId).verb, CreateConfigCall(companyId, create).verb,
             UpdateConfigCall(companyId, update).verb, DeleteConfigCall(companyId).verb] ==
            ["GET", "POST", "PUT", "DELETE"]
    ensures ToggleEnabledCall(companyId, enabled).verb == "PATCH" &&
            ToggleEnabledCall(companyId, enabled).payload.enabled == enabled
    ensures GetConfigCall(companyId).payload.NoPayload? && DeleteConfigCall(companyId).payload.NoPayload? &&
            TestConnectionCall(companyId).payload.NoPayload?
    ensures CreateConfigCall(companyId, create).payload == ConfigBody(Whole(create))
    ensures UpdateConfigCall(companyId, update).payload == ConfigBody(update)
  {
    assert BasePath + "/" == "/companies/";
  }

  /** Disconnecting always posts to one fixed path: the company travels in the body. */
  lemma DisconnectNamesCompanyInBody(a: string, b: string)
    ensures DisconnectGmailCall(a).path == DisconnectGmailCall(b).path == "/auth/google/disconnect"
    ensures DisconnectGmailCall(a) == DisconnectGmailCall(b) <==> a == b
    ensures DisconnectGmailCall(a).verb == "POST" && DisconnectGmailCall(a).payload.companyId == a
  {
  }
}
