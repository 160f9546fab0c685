/**
 * The e-mail integration settings form, src/components/EmailConfigForm.tsx: the form
 * record filled from a loaded configuration, the save rules and the body they send,
 * the status badge, the enable switch, and the resets after deleting the
 * configuration or disconnecting Gmail.
 */
module EmailConfigForm {
  import opened Outcomes
  import opened Toasts
  import opened EmailConfigApi

  const DefaultHost: string := "imap.gmail.com"
  const DefaultPort: int := 993
  const DefaultFolder: string := "INBOX"
  const DefaultPoll: int := 300

  /** The record the form starts from and returns to. */
  const DefaultForm: ConfigRequest := ConfigRequest(DefaultHost, DefaultPort, "", "", DefaultFolder, DefaultPoll)

  /** The form filled from a loaded configuration: falsy fields fall back to the
      defaults, and the password, which the server never returns, is blank. */
  function FormFromConfig(data: EmailConfig): (f: ConfigRequest)
    ensures f.imapPassword == "" && f.imapUsername == data.imapUsername
    ensures f.imapHost != "" && f.inboxFolder != "" && f.imapPort != 0 && f.pollIntervalSecs != 0
    ensures data.imapHost != "" ==> f.imapHost == data.imapHost
    ensures data.imapHost == "" ==> f.imapHost == DefaultHost
    ensures data.imapPort != 0 ==> f.imapPort == data.imapPort
    ensures data.imapPort == 0 ==> f.imapPort == DefaultPort
    ensures data.inboxFolder != "" ==> f.inboxFolder == data.inboxFolder
    ensures data.inboxFolder == "" ==> f.inboxFolder == DefaultFolder
    ensures data.pollIntervalSecs != 0 ==> f.pollIntervalSecs == data.pollIntervalSecs
    ensures data.pollIntervalSecs == 0 ==> f.pollIntervalSecs == DefaultPoll
  {
    ConfigRequest(
      if data.imapHost != "" then data.imapHost else DefaultHost,
      if data.imapPort != 0 then data.imapPort else DefaultPort,
      if data.imapUsername != "" then data.imapUsername else "",
      "",
      if data.inboxFolder != "" then data.inboxFolder else DefaultFolder,
      if data.pollIntervalSecs != 0 then data.pollIntervalSecs else DefaultPoll)
  }

  /** What the port and poll-interval inputs store: the parsed number (`None` when it
      does not parse), or the fallback when that is falsy. */
  function NumberInput(parsed: Option<int>, fallback: int): (n: int)
    ensures parsed.Some? && parsed.value != 0 ==> n == parsed.value
    ensures parsed.None? || parsed.value == 0 ==> n == fallback
  {
    if parsed.Some? && parsed.value != 0 then parsed.value else fallback
  }

  /** Neither number input can ever hold 0 nor lose a number that parsed. */
  lemma NumberInputsNeverZero(parsed: Option<int>)
    ensures NumberInput(parsed, DefaultPort) != 0 && NumberInput(parsed, DefaultPoll) != 0
    ensures NumberInput(parsed, DefaultPort) == DefaultPort <==>
      parsed.None? || parsed.value == 0 || parsed.value == DefaultPort
  {
  }

  const RequiredToast := Toast("Validation error", "Please fill in all required fields", true)
  const PasswordRequiredToast := Toast("Validation error", "Password is required for initial setup", true)
  const UpdatedToast := Toast("✓ Configuration updated", "Email configuration has been updated successfully", false)
  const SavedToast := Toast("✓ Configuration saved", "Email configuration has been created successfully", false)
  const DeletedToast := Toast("✓ Configuration deleted", "Email configuration has been removed", false)
  const DisconnectedToast := Toast("✓ Gmail Disconnected", "Gmail has been disconnected successfully", false)
  const EnabledToast := Toast("✓ Email sync enabled", "Email monitoring will resume within 10 minutes", false)
  const DisabledToast := Toast("Email sync disabled", "Email monitoring has been stopped", false)

  /** The toast of a failed call: the server's message, else the fallback text. */
  function ErrorToast(error: ApiError, fallback: string): Toast {
    MessageOr("Error", error.message, fallback)
  }

  /** The two validation steps of `handleSave`, in order; `None` lets the save through. */
  function SaveGate(form: ConfigRequest, hasConfig: bool): Option<Toast> {
    if form.imapUsername == "" || form.imapHost == "" then Some(RequiredToast)
    else if !hasConfig && form.imapPassword == "" then Some(PasswordRequiredToast)
    else None
  }

  /** A save goes ahead exactly when username and host are filled and, for a first
      setup, a password is given; missing fields are reported first. */
  lemma SaveGateCases(form: ConfigRequest, hasConfig: bool)
    ensures SaveGate(form, hasConfig).None? <==>
      form.imapUsername != "" && form.imapHost != "" && (hasConfig || form.imapPassword != "")
    ensures form.imapUsername == "" || form.imapHost == "" ==> SaveGate(form, hasConfig) == Some(RequiredToast)
    ensures hasConfig && form.imapUsername != "" && form.imapHost != "" ==> SaveGate(form, hasConfig).None?
  {
  }

  /** The body of an update: the whole form, without the password key when it is blank. */
  function UpdatePatch(form: ConfigRequest): (p: ConfigPatch)
    ensures p.imapPassword.None? <==> form.imapPassword == ""
    ensures form.imapPassword != "" ==> p == Whole(form)
    ensures p == Whole(form).(imapPassword := p.imapPassword)
  {
    var whole := Whole(form);
    if form.imapPassword == "" then whole.(imapPassword := None) else whole
  }

  /** The call `handleSave` makes: an update of an existing configuration, else a
      creation with the full form. */
  function SaveCall(companyId: string, form: ConfigRequest, config: Option<EmailConfig>): ApiCall {
    if config.Some? then UpdateConfigCall(companyId, UpdatePatch(form)) else CreateConfigCall(companyId, form)
  }

  /** A save always targets the company's configuration; it is a `PUT` exactly when a
      configuration exists, and it carries a password exactly when one was typed. */
  lemma SaveCallShape(companyId: string, form: ConfigRequest, config: Option<EmailConfig>)
    ensures SaveCall(companyId, form, config).path == ConfigPath(companyId)
    ensures SaveCall(companyId, form, config).verb == (if config.Some? then "PUT" else "POST")
    ensures SaveCall(companyId, form, config).payload.ConfigBody?
    ensures SaveCall(companyId, form, config).payload.patch.imapPassword.Some? <==>
      config.None? || form.imapPassword != ""
    ensures config.None? ==> SaveCall(companyId, form, config).payload.patch == Whole(form)
  {
  }

  /** A form that passed the gate never sends a body without a password to create a
      configuration. */
  lemma SavedCreationHasPassword(companyId: string, form: ConfigRequest)
    ensures SaveGate(form, false).None? ==>
      SaveCall(companyId, form, None).payload.patch.imapPassword.Some? &&
      SaveCall(companyId, form, None).payload.patch.imapPassword.value != ""
  {
  }

  datatype Badge = NotConfigured | Disabled | GmailConnected | ActiveImap

  /** `getStatusBadge`. */
  function StatusBadge(config: Option<EmailConfig>): Badge {
    if config.None? then NotConfigured
    else if !config.value.isEnabled then Disabled
    else if config.value.authMethod == OAuth2 then GmailConnected
    else ActiveImap
  }

  /** The badge's priority: no configuration, then disabled, then the sign-in method. */
  lemma StatusBadgeCases(config: Option<EmailConfig>)
    ensures StatusBadge(config) == NotConfigured <==> config.None?
    ensures StatusBadge(config) == Disabled <==> config.Some? && !config.value.isEnabled
    ensures StatusBadge(config) == GmailConnected <==>
      config.Some? && config.value.isEnabled && config.value.authMethod == OAuth2
    ensures StatusBadge(config) == ActiveImap <==>
      config.Some? && config.value.isEnabled && config.value.authMethod == Password
  {
  }

  datatype TestStatus = Idle | Succeeded | Failed

  /** The form's state. */
  class SettingsForm {
    const companyId: string
    var loading: bool
    var saving: bool
    var testing: bool
    var config: Option<EmailConfig>
    var formData: ConfigRequest
    var isEnabled: bool
    var testStatus: TestStatus
    var useManualImap: bool

    /** The switch shows the stored flag whenever there is a configuration. */
    predicate Valid()
      reads this
    {
      config.Some? ==> isEnabled == config.value.isEnabled
    }

    constructor(companyId: string)
      ensures this.companyId == companyId && loading && !saving && !testing
      ensures config == None && formData == DefaultForm && isEnabled && testStatus == Idle && !useManualImap
      ensures Valid()
    {
      this.companyId := companyId;
      loading := true;
      saving := false;
      testing := false;
      config := None;
      formData := DefaultForm;
      isEnabled := true;
      testStatus := Idle;
      useManualImap := false;
    }

    /** `loadConfig`; `reply` is what the client answers to `getConfig`'s request.
        Returns the toast shown, if any. */
    method LoadConfig(reply: Result<EmailConfig, ApiError>) returns (toast: Option<Toast>)
      requires Valid()
      modifies this
      ensures Valid() && !loading
      ensures saving == old(saving) && testing == old(testing) && testStatus == old(testStatus)
      ensures reply.Success? ==>
        config == Some(reply.value) && formData == FormFromConfig(reply.value) &&
        isEnabled == reply.value.isEnabled && toast.None? &&
        useManualImap == (old(useManualImap) && reply.value.authMethod != OAuth2)
      ensures reply.Failure? && reply.error.status == Some(404) ==>
        config == old(config) && formData == old(formData) && isEnabled == old(isEnabled) &&
        !useManualImap && toast.None?
      ensures reply.Failure? && reply.error.status != Some(404) ==>
        config == old(config) && formData == old(formData) && isEnabled == old(isEnabled) &&
        useManualImap == old(useManualImap) &&
        toast == Some(ErrorToast(reply.error, "Failed to load email configuration"))
    {
      loading := true;
      var outcome := GetConfigOutcome(reply);
      toast := None;
      if outcome.Success? {
        if outcome.value.Some? {
          var data := outcome.value.value;
          config := Some(data);
          formData := FormFromConfig(data);
          isEnabled := data.isEnabled;
          if data.authMethod == OAuth2 {
            useManualImap := false;
          }
        } else {
          useManualImap := false;
        }
      } else {
        if outcome.error.status != Some(404) {
          toast := Some(ErrorToast(outcome.error, "Failed to load email configuration"));
        }
      }
      loading := false;
    }

    /** `handleSave`; `saveReply` is the outcome of the create or update call and
        `reloadReply` that of the `getConfig` made afterwards.  Returns the call made,
        if any, the toast of the save and the one of the reload. */
    method HandleSave(saveReply: Result<(), ApiError>, reloadReply: Result<EmailConfig, ApiError>)
      returns (sent: Option<ApiCall>, toast: Toast, reloadToast: Option<Toast>)
      requires Valid()
      modifies this
      ensures Valid()
      ensures sent.Some? <==> SaveGate(old(formData), old(config).Some?).None?
      ensures sent.Some? ==> sent.value == SaveCall(companyId, old(formData), old(config)) && !saving
      ensures sent.None? ==>
        Some(toast) == SaveGate(old(formData), old(config).Some?) && reloadToast.None? &&
        saving == old(saving) && config == old(config) && formData == old(formData) && testStatus == old(testStatus) &&
        isEnabled == old(isEnabled) && useManualImap == old(useManualImap)
      ensures sent.Some? && saveReply.Failure? ==>
        toast == ErrorToast(saveReply.error, "Failed to save configuration") && reloadToast.None? &&
        config == old(config) && formData == old(formData) && testStatus == old(testStatus) &&
        isEnabled == old(isEnabled) && useManualImap == old(useManualImap)
      ensures sent.Some? && saveReply.Success? ==>
        toast == (if old(config).Some? then UpdatedToast else SavedToast) && testStatus == Idle
      ensures sent.Some? && saveReply.Success? && reloadReply.Success? ==>
        config == Some(reloadReply.value) && formData == FormFromConfig(reloadReply.value) &&
        isEnabled == reloadReply.value.isEnabled && reloadToast.None?
      ensures sent.Some? && saveReply.Success? && reloadReply.Failure? ==>
        config == old(config) && formData == old(formData) && isEnabled == old(isEnabled)
      ensures sent.Some? && saveReply.Success? && reloadReply.Failure? && reloadReply.error.status == Some(404) ==>
        reloadToast.None? && !useManualImap
      ensures sent.Some? && saveReply.Success? && reloadReply.Failure? && reloadReply.error.status != Some(404) ==>
        reloadToast == Some(ErrorToast(reloadReply.error, "Failed to load email configuration")) &&
        useManualImap == old(useManualImap)
    {
      if formData.imapUsername == "" || formData.imapHost == "" {
        return None, RequiredToast, None;
      }
      if config.None? && formData.imapPassword == "" {
        return None, PasswordRequiredToast, None;
      }
      saving := true;
      sent := Some(SaveCall(companyId, formData, config));
      reloadToast := None;
      if saveReply.Success? {
        toast := if config.Some? then UpdatedToast else SavedToast;
        reloadToast := LoadConfig(reloadReply);
        testStatus := Idle;
      } else {
        toast := ErrorToast(saveReply.error, "Failed to save configuration");
      }
      saving := false;
    }

    /** `handleTestConnection`; `reply` is the client's answer to the test call. */
    method HandleTestConnection(reply: Result<TestResponse, ApiError>) returns (sent: ApiCall, toast: Toast)
      requires Valid()
      modifies this
      ensures Valid() && !testing && sent == TestConnectionCall(companyId)
      ensures config == old(config) && formData == old(formData) && isEnabled == old(isEnabled)
      ensures useManualImap == old(useManualImap) && loading == old(loading) && saving == old(saving)
      ensures testStatus == Succeeded <==> reply.Success? && reply.value.success
      ensures testStatus != Idle
      ensures toast.destructive <==> testStatus == Failed
      ensures reply.Success? ==> toast.description == reply.value.message
    {
      testing := true;
      testStatus := Idle;
      sent := TestConnectionCall(companyId);
      if reply.Success? {
        if reply.value.success {
          testStatus := Succeeded;
          toast := Toast("✓ Connection successful", reply.value.message, false);
        } else {
          testStatus := Failed;
          toast := Toast("✗ Connection failed", reply.value.message, true);
        }
      } else {
        testStatus := Failed;
        toast := Toast("✗ Connection failed",
          if reply.error.message != "" then reply.error.message else "Failed to test connection", true);
      }
      testing := false;
    }

    /** `handleToggleEnabled(enabled)`; `reply` is the outcome of the toggle call. */
    method HandleToggleEnabled(enabled: bool, reply: Result<(), ApiError>) returns (sent: ApiCall, toast: Toast)
      requires Valid()
      modifies this
      ensures Valid() && sent == ToggleEnabledCall(companyId, enabled)
      ensures formData == old(formData) && testStatus == old(testStatus) && useManualImap == old(useManualImap)
      ensures loading == old(loading) && saving == old(saving) && testing == old(testing)
      ensures reply.Success? ==>
        isEnabled == enabled && config.Some? == old(config).Some? &&
        (config.Some? ==> config.value == old(config).value.(isEnabled := enabled)) &&
        toast == (if enabled then EnabledToast else DisabledToast)
      ensures reply.Success? && config.Some? ==> (StatusBadge(config) == Disabled <==> !enabled)
      ensures reply.Failure? ==>
        config == old(config) && isEnabled == old(isEnabled) &&
        toast == ErrorToast(reply.error, "Failed to toggle email sync")
    {
      sent := ToggleEnabledCall(companyId, enabled);
      if reply.Success? {
        isEnabled := enabled;
        config := if config.Some? then Some(config.value.(isEnabled := enabled)) else None;
        toast := if enabled then EnabledToast else DisabledToast;
      } else {
        toast := ErrorToast(reply.error, "Failed to toggle email sync");
      }
    }

    /** `handleDelete`; `confirmed` is the answer to the confirmation dialog. */
    method HandleDelete(confirmed: bool, reply: Result<(), ApiError>) returns (sent: Option<ApiCall>, toast: Option<Toast>)
      requires Valid()
      modifies this
      ensures Valid()
      ensures sent.Some? <==> confirmed
      ensures sent.Some? ==> sent.value == DeleteConfigCall(companyId)
      ensures !confirmed ==> toast.None? && unchanged(this)
      ensures isEnabled == old(isEnabled) && loading == old(loading) && saving == old(saving) && testing == old(testing)
      ensures confirmed && reply.Success? ==>
        config == None && formData == DefaultForm && testStatus == Idle && !useManualImap &&
        toast == Some(DeletedToast) && StatusBadge(config) == NotConfigured
      ensures confirmed && reply.Failure? ==>
        config == old(config) && formData == old(formData) && testStatus == old(testStatus) &&
        useManualImap == old(useManualImap) &&
        toast == Some(ErrorToast(reply.error, "Failed to delete configuration"))
    {
      if !confirmed {
        return None, None;
      }
      sent := Some(DeleteConfigCall(companyId));
      if reply.Success? {
        toast := Some(DeletedToast);
        config := None;
        formData := DefaultForm;
        testStatus := Idle;
        useManualImap := false;
      } else {
        toast := Some(ErrorToast(reply.error, "Failed to delete configuration"));
      }
    }

    /** `handleDisconnectGmail`; `confirmed` is the answer to the confirmation dialog. */
    method HandleDisconnectGmail(confirmed: bool, reply: Result<(), ApiError>)
      returns (sent: Option<ApiCall>, toast: Option<Toast>)
      requires Valid()
      modifies this
      ensures Valid()
      ensures sent.Some? <==> confirmed
      ensures sent.Some? ==> sent.value == DisconnectGmailCall(companyId)
      ensures !confirmed ==> toast.None? && unchanged(this)
      ensures testStatus == old(testStatus) && useManualImap == old(useManualImap) && isEnabled == old(isEnabled)
      ensures loading == old(loading) && saving == old(saving) && testing == old(testing)
      ensures confirmed && reply.Success? ==>
        config == None && formData == DefaultForm && toast == Some(DisconnectedToast)
      ensures confirmed && reply.Failure? ==>
        config == old(config) && formData == old(formData) &&
        toast == Some(ErrorToast(reply.error, "Failed to disconnect Gmail"))
    {
      if !confirmed {
        return None, None;
      }
      sent := Some(DisconnectGmailCall(companyId));
      if reply.Success? {
        toast := Some(DisconnectedToast);
        config := None;
        formData := DefaultForm;
      } else {
        toast := Some(ErrorToast(reply.error, "Failed to disconnect Gmail"));
      }
    }
  }

  /** After a delete or a disconnect the form cannot be saved as it stands: the reset
      record has no username, and with no configuration a password is needed too. */
  lemma ResetFormNeedsInput()
    ensures SaveGate(DefaultForm, false) == Some(RequiredToast)
    ensures SaveGate(DefaultForm.(imapUsername := "agent@example.com"), false) == Some(PasswordRequiredToast)
  {
  }

  /** Loading a configuration and saving it straight back as an update sends every
      field the server returned (after the fallbacks) and no password. */
  lemma ReloadedFormUpdatesWithoutPassword(companyId: string, data: EmailConfig)
    ensures data.imapUsername != "" ==> SaveGate(FormFromConfig(data), true).None?
    ensures var p := UpdatePatch(FormFromConfig(data));
      p.imapPassword.None? && p.imapUsername == Some(data.imapUsername) &&
      (data.imapHost != "" ==> p.imapHost == Some(data.imapHost)) &&
      (data.imapPort != 0 ==> p.imapPort == Some(data.imapPort))
  {
  }
}
