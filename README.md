# myestatia CRM front end — a Dafny model of its core

This project models the rules at the core of the myestatia real-estate CRM browser
application: the HTTP client every request passes through, the property search and
upload endpoints, the session kept in `localStorage`, the e-mail integration
endpoints and the settings form that drives them, and the pages that hold state
of their own. Those pages cover login, registration by invitation, password reset,
the lead list, the lead-creation form, the property-selection dialog, the public
presentation carousel, the profile card and the AI chat. Each page is a Dafny `class`
whose fields are the component's state variables and whose methods are its event
handlers. What a handler sends to the server is returned as a value. What the
server answers is a parameter (`Result<…>`). Pure rules are functions, and the
lemmas beside them state what they guarantee.

Modules, one per source file, plus the helpers they share:

| module | models |
|---|---|
| `HttpClient` | `src/api/client.ts`: base URL, header merge, success and error of `fetchClient` |
| `Properties` | `src/api/properties.ts`: search query, property upload, subtypes, update |
| `AuthContext` | `src/context/AuthContext.tsx`: session restored from and written to `localStorage` |
| `EmailConfigApi` | `src/lib/api/emailConfigApi.ts` and its record types |
| `EmailConfigForm` | `src/components/EmailConfigForm.tsx`: the IMAP/Gmail settings form |
| `AuthPage` | `src/pages/Auth.tsx`: login and its error toast |
| `Register` | `src/pages/Register.tsx`: invitation check and sign-up |
| `ResetPassword` | `src/pages/ResetPassword.tsx`: strength meter and submit |
| `Leads` | `src/pages/Leads.tsx`: KPI filter and stage colours |
| `LeadCreateModal` | `src/components/LeadCreateModal.tsx`: field validation and submit |
| `PropertySelection` | `src/components/PropertySelectionModal.tsx`: selection toggling and presentation generation |
| `PresentationView` | `src/pages/PresentationView.tsx`: carousel, WhatsApp and call links |
| `ProfileTab` | `src/components/ProfileTab.tsx`: name editing and role badge |
| `AIActions` | `src/pages/AIActions.tsx`: lead summary seeding and the chat input |
| `JsText` | the JavaScript string operations the pages use (`trim`, `includes`, `toLowerCase`, `replace(/\D/g, '')`) |
| `Json` | `JSON.stringify` and `JSON.parse` on the flat objects the client sends and stores |
| `FormEncoding` | `URLSearchParams` serialisation (application/x-www-form-urlencoded, section 5 of the WHATWG URL Standard), UTF-8 encoding and `encodeURIComponent` (section 19.2.6 of ECMA-262) |
| `Outcomes`, `Toasts` | `Option`/`Result` and the toast record |

Behaviour worth knowing, as modelled:

- `fetchClient` adds `Content-Type: application/json` unless the caller sets that
  key. `createProperty` passes `headers: {}` with a `FormData` body, so the upload is
  labelled JSON. This is the first entry under Findings.
- Auth's error toast tests the message for "401" or "Unauthorized". `fetchClient`'s
  error carries only the status text, never the status code, so only a server
  that sends the reason phrase "Unauthorized" gets "Access Denied". An empty status
  text gives the toast "Error" / "API Error: " (`AuthPage.RefusalNeedsStatusText`).
- `getConfig` turns a 404 into `null`, so the form's own 404 test on load
  failures never sees a 404. The model keeps both tests.
- Toggling a selected property twice gives back the same set of ids. The list is
  the same only when the id was absent at first: a present id moves to the end
  (`PropertySelection.ToggleTwiceMovesToEnd`).
- The WhatsApp share text ends in `).}`, exactly as written.
- A session whose token is the empty string is stored without a token, so a reload
  brings the agent back but not the token (`AuthContext.ReloadRestores`).
- The carousel's arrow keys are wired once, on the first render, and act on that
  render's state: the second entry under Findings.
- The profile card's success title begins with the three characters the source file
  holds in place of a check mark ("âœ“"), exactly as written.

## Model

| member | source | states |
|---|---|---|
| HttpClient.BaseUrl | src/api/client.ts:1 | the environment's URL when it is set and non-empty, else the local default; never empty |
| HttpClient.Url | src/api/client.ts:4 | the request URL is the base followed by the endpoint, nothing added |
| HttpClient.MergeHeadersAsWritten | src/api/client.ts:6-9 | as written: every caller header is kept, nothing else is added except `Content-Type`, which is always present and is `application/json` unless the caller set it |
| HttpClient.MergeHeaders | src/api/client.ts:6-9 | corrected: the same merge, except that a `FormData` body without a caller `Content-Type` gets none |
| HttpClient.MergeHeadersAgreeOffMultipart | src/api/client.ts:6-9 | for every body that is not `FormData`, the corrected merge equals the merge as written |
| HttpClient.MultipartKeepsJsonContentTypeAsWritten | src/api/client.ts:6-9 | as written, a `FormData` body with empty caller headers is sent as `application/json` |
| HttpClient.MultipartHasNoContentType | src/api/client.ts:6-9 | corrected, that request carries no `Content-Type`, so the browser can set the multipart boundary |
| HttpClient.BuildRequest | src/api/client.ts:4-10 | as written: the request has the joined URL, the caller's verb and body (none without options) and the headers of the merge as written, so a caller that does not set `Content-Type` is sent `application/json`, whatever the body |
| HttpClient.BuildRequestFixed | src/api/client.ts:4-10 | corrected: the same request as the one built as written, except that its headers come from the corrected merge |
| HttpClient.BuildRequestFixedAgreesOffMultipart | src/api/client.ts:4-10 | for every call whose body is not `FormData`, the corrected request is exactly the request built as written |
| HttpClient.SettleIsErrorIffNotOk | src/api/client.ts:12-16 | a response fails exactly when its status is outside 200–299, and the failure message holds the status text, not the code; a success yields the parsed body unchanged |
| HttpClient.ErrorIgnoresStatus | src/api/client.ts:12-14 | two error responses with the same status text are indistinguishable to the caller, whatever their codes |
| HttpClient.FormData.Append | src/api/properties.ts:57-61 | appending adds exactly one entry at the end |
| FormEncoding.SearchParams.Append | src/api/properties.ts:39-46 | appending adds exactly one pair at the end |
| FormEncoding.Utf8RoundTrip | src/api/properties.ts:49 | UTF-8 decoding of the UTF-8 encoding of any text gives the text back |
| FormEncoding.FormRoundTrip | src/api/properties.ts:49 | form-decoding the form-encoding of any text gives the text back |
| FormEncoding.FormEncodeConcat | src/api/properties.ts:49 | form-encoding distributes over concatenation |
| FormEncoding.FormEncodeSafe | src/api/properties.ts:49 | text made only of unreserved characters is sent unchanged |
| FormEncoding.FormEncodeSpace | src/api/properties.ts:49 | a space is sent as `+` |
| FormEncoding.FormEncodeNoSeparators | src/api/properties.ts:49 | an encoded key or value never contains `&` or `=`, so a query cannot be split wrongly |
| FormEncoding.QueryRoundTrip | src/api/properties.ts:49 | parsing a serialised query gives back exactly the pairs, in order |
| Json.Get | src/pages/Auth.tsx:27-30 | reading a key of a parsed object gives the value of the last member with that key (a later duplicate wins, as in `JSON.parse`); a key not found names no member |
| Json.StringifyRoundTrip | src/context/AuthContext.tsx:37-43 | `JSON.parse(JSON.stringify(o))` gives back the same object, member by member |
| Properties.FilterParams | src/api/properties.ts:37-47 | a fresh parameter list holding exactly the filter pairs |
| Properties.GetProperties | src/api/properties.ts:36-50 | the search endpoint is `/properties/search?` followed by the serialised filter pairs |
| Properties.FilterPairsInOrder | src/api/properties.ts:39-46 | the keys come in the fixed order minBudget, maxBudget, minRooms, address, status, q, source, each at most once |
| Properties.FilterPairsSendExactly | src/api/properties.ts:39-46 | each key is sent with a given value iff its filter is set (non-zero number, non-empty text, not `all` for status and source) and holds that value |
| Properties.NoFiltersEmptyQuery | src/api/properties.ts:36-49 | with no filters, or all of them empty, the endpoint is `/properties/search?` |
| Properties.FilterQueryReadsBack | src/api/properties.ts:49 | the server parsing the query reads back exactly the filter pairs |
| Properties.ZoneOnlyPairs | src/api/properties.ts:42 | a non-empty zone alone is sent as the single key `address` |
| Properties.ZoneOnlyQuery | src/api/properties.ts:42-49 | a zone alone is sent as `address=` followed by its form encoding |
| Properties.TwoWordZoneQuery | src/api/properties.ts:42-49 | a two-word zone is sent as `address=` with the words joined by `+` |
| Properties.CreateProperty | src/api/properties.ts:56-69 | the upload is a POST of the form built from the data and optional image |
| Properties.CreatePropertyBody | src/api/properties.ts:57-61 | the form has a `data` entry whose JSON reads back as the property, then an `image` entry exactly when a file is given |
| Properties.CreatePropertyContentType | src/api/properties.ts:63-68 | as written the upload is labelled `application/json`; with the corrected merge it carries no `Content-Type` |
| Properties.GetSubtypes | src/api/properties.ts:78-84 | `?type=` and the type are appended, unencoded, only when a type is given |
| Properties.RawSubtypeCutAtAmpersand | src/api/properties.ts:81 | an unencoded `&` in the type ends the `type` parameter the server reads |
| Properties.UpdateProperty | src/api/properties.ts:86-91 | a PUT to `/properties/<id>` whose JSON body reads back as the data and is labelled `application/json` |
| AuthContext.InitialSession | src/context/AuthContext.tsx:23-27 | the token is the stored one; an absent or empty stored agent gives no agent; the restore fails exactly when a non-empty stored agent does not parse as a flat JSON object or `null` |
| AuthContext.SyncedEntries | src/context/AuthContext.tsx:29-43 | after syncing, `token` is stored iff the session is authenticated, `agent` iff there is an agent, as JSON that reads back, and all other keys are untouched |
| AuthContext.SyncedIdempotent | src/context/AuthContext.tsx:29-43 | syncing the same session twice stores the same as syncing once |
| AuthContext.ReloadRestores | src/context/AuthContext.tsx:23-48 | a page reload after syncing restores the agent, and the token exactly when it was non-empty; an empty token comes back as none |
| AuthContext.UseAuth | src/context/AuthContext.tsx:65-71 | the hook fails, with the source's message, exactly when there is no provider; otherwise it returns the provider's value |
| AuthContext.AuthProvider.Value | src/context/AuthContext.tsx:56 | `isAuthenticated` holds exactly for a non-empty token |
| AuthContext.AuthProvider.constructor | src/context/AuthContext.tsx:22-43 | the provider starts with the restored session and storage synced to it |
| AuthContext.AuthProvider.SyncToken | src/context/AuthContext.tsx:29-35 | the token effect stores or removes `token` and changes nothing else |
| AuthContext.AuthProvider.SyncAgent | src/context/AuthContext.tsx:37-43 | the agent effect stores or removes `agent` and changes nothing else |
| AuthContext.AuthProvider.Login | src/context/AuthContext.tsx:45-48 | the session becomes the new token and agent, storage is synced, authenticated iff the token is non-empty |
| AuthContext.AuthProvider.Logout | src/context/AuthContext.tsx:50-54 | the session is cleared and exactly the `token` and `agent` keys are removed |
| EmailConfigApi.GetConfigOutcome | src/lib/api/emailConfigApi.ts:14-26 | success gives the data; a 404 gives `null`, and only a 404 does; every other error is rethrown unchanged |
| EmailConfigApi.ConfigPathInjective | src/lib/api/emailConfigApi.ts:17 | two companies share a configuration path iff they are the same company |
| EmailConfigApi.EndpointsOfCompany | src/lib/api/emailConfigApi.ts:8-80 | read, create, update and delete use one path with GET, POST, PUT and DELETE; test and toggle use its `/test` and `/toggle` sub-paths; which calls carry which body |
| EmailConfigApi.DisconnectNamesCompanyInBody | src/lib/api/emailConfigApi.ts:85-87 | disconnecting posts to one fixed path for every company and names the company in the body |
| EmailConfigForm.FormFromConfig | src/components/EmailConfigForm.tsx:70-77 | the form takes each loaded field, falling back to the default for an empty or zero field, and the password is empty |
| EmailConfigForm.NumberInputsNeverZero | src/components/EmailConfigForm.tsx:425-473 | the port input (line 425) and the poll-interval input (lines 471-473) never store 0, and fall back to 993 and 300 exactly on unparsable or zero input |
| EmailConfigForm.SaveGateCases | src/components/EmailConfigForm.tsx:177-193 | saving proceeds iff username and host are filled and, when no configuration exists yet, a password is given; missing fields are reported first |
| EmailConfigForm.UpdatePatch | src/components/EmailConfigForm.tsx:199-203 | an update leaves the password key out iff the password field is empty, and otherwise sends every field |
| EmailConfigForm.SaveCallShape | src/components/EmailConfigForm.tsx:195-212 | saving PUTs a patch when a configuration exists and POSTs the whole form otherwise, always to the company's path |
| EmailConfigForm.SavedCreationHasPassword | src/components/EmailConfigForm.tsx:186-210 | a creation that passes the gate always carries a password |
| EmailConfigForm.StatusBadgeCases | src/components/EmailConfigForm.tsx:281-311 | the four badges correspond exactly to: no configuration, disabled, enabled OAuth2, enabled password login |
| EmailConfigForm.ResetFormNeedsInput | src/components/EmailConfigForm.tsx:177-193 | the default form cannot be saved, and with only a username it still needs a password |
| EmailConfigForm.ReloadedFormUpdatesWithoutPassword | src/components/EmailConfigForm.tsx:199-203 | a form loaded from a configuration with a username can be saved, and the update leaves the stored password alone |
| EmailConfigForm.SettingsForm.constructor | src/components/EmailConfigForm.tsx:20-40 | the form starts loading, with defaults, enabled and no test result |
| EmailConfigForm.SettingsForm.LoadConfig | src/components/EmailConfigForm.tsx:64-98 | a loaded configuration sets the configuration, fills the form and the enabled switch; a 404 (which reaches the form as `null`) keeps the configuration, the form and the switch, only turns manual IMAP off, and shows no toast; any other error shows the server's message, else "Failed to load email configuration", and changes nothing else; loading ends |
| EmailConfigForm.SettingsForm.HandleSave | src/components/EmailConfigForm.tsx:175-228 | the save call is sent iff the gate passes, else the gate's toast and nothing changes; a failed save shows its error and changes nothing else; a successful save shows "updated" or "saved", clears the test result and reloads: a successful reload refills configuration, form and switch, a failed one keeps them and behaves as a failed load (404 silent and manual IMAP off, otherwise the load toast); saving ends |
| EmailConfigForm.SettingsForm.HandleTestConnection | src/components/EmailConfigForm.tsx:144-173 | the result is "succeeded" iff the server answers with success; the toast is destructive iff it failed; configuration, form, switch, manual-IMAP choice, loading and saving flags are untouched and testing ends |
| EmailConfigForm.SettingsForm.HandleToggleEnabled | src/components/EmailConfigForm.tsx:261-279 | on success the switch and the stored configuration take the new value, so the badge says disabled iff it was switched off; on failure configuration and switch keep their values; either way the form, the test result, the manual-IMAP choice and the loading, saving and testing flags are untouched |
| EmailConfigForm.SettingsForm.HandleDelete | src/components/EmailConfigForm.tsx:230-259 | nothing is sent unless confirmed, and then nothing changes; a successful delete leaves no configuration, resets the form and test result and turns manual IMAP off; a failed one shows the error and changes nothing; the switch and the loading, saving and testing flags never change |
| EmailConfigForm.SettingsForm.HandleDisconnectGmail | src/components/EmailConfigForm.tsx:115-142 | nothing is sent unless confirmed; a successful disconnect clears the configuration and resets the form |
| AuthPage.LoginBodyReadsBack | src/pages/Auth.tsx:27-30 | the login call POSTs to `/auth/login` a JSON body that reads back as exactly the email and password |
| AuthPage.AuthErrorCases | src/pages/Auth.tsx:41-47 | the title is "Access Denied" iff the message mentions 401 or Unauthorized, with the credentials text; otherwise the message, or the fallback for an empty one |
| AuthPage.DefaultNotDenied | src/pages/Auth.tsx:42-44 | the fallback message itself is not taken as a refusal |
| AuthPage.RefusalNeedsStatusText | src/pages/Auth.tsx:41-47 | a refusal is recognised from the status text "Unauthorized"; with an empty status text the toast is "Error" / "API Error: " |
| AuthPage.LoginPage.HandleAuth | src/pages/Auth.tsx:22-57 | a successful login stores the session, welcomes and goes to `/ai-actions`; a failure shows the error toast and leaves the session alone; loading ends |
| Register.InvitationErrorCases | src/pages/Register.tsx:41-50 | the invitation error is "not found" iff the message contains 404, "already used" iff 410 or "already used" without 404, "expired" next, "invalid" otherwise |
| Register.NotFoundWinsOverUsed | src/pages/Register.tsx:41-49 | a message holding both 404 and 410 counts as not found |
| Register.NotFoundNeedsStatusText | src/pages/Register.tsx:41-49 | the invitation check goes through `fetchClient` (src/api/invitations.ts:31-33), so a 404 answer, whose message is "API Error: Not Found", reads as an invalid invitation, not as a missing one |
| Register.GoneNeedsStatusText | src/pages/Register.tsx:41-49 | likewise a 410 answer ("API Error: Gone") never reads as a missing or an already used invitation |
| Register.RegisterGateCases | src/pages/Register.tsx:60-76 | registration proceeds iff the passwords match and have at least 8 characters; a mismatch is reported first |
| Register.RegisterPage.CheckInvitation | src/pages/Register.tsx:28-52 | without a token the page shows the missing-link error; otherwise the invitation or the classified error; loading ends |
| Register.RegisterPage.HandleRegister | src/pages/Register.tsx:57-105 | the request (token, name, invited email, password) is sent iff the gate passes; success logs in with the returned session |
| ResetPassword.ChecksGrow | src/pages/ResetPassword.tsx:68-74 | typing more characters never fails a check the password already passed |
| ResetPassword.CountTrueGrows | src/pages/ResetPassword.tsx:76 | more passed checks, position by position, never give a smaller count |
| ResetPassword.StrengthGrows | src/pages/ResetPassword.tsx:68-96 | typing more characters never lowers the strength score |
| ResetPassword.CountTrueBounds | src/pages/ResetPassword.tsx:76 | the count of passed checks is at most their number, and equal to it iff all pass |
| ResetPassword.PassedChecksRange | src/pages/ResetPassword.tsx:76 | between 0 and 5 checks pass, and 5 exactly when all do |
| ResetPassword.StrengthScore | src/pages/ResetPassword.tsx:78-96 | the score is 3 iff all checks pass and length ≥ 12, else 2 iff four pass and length ≥ 8, else 1 iff two pass, else 0 |
| ResetPassword.StrongPassesEverything | src/pages/ResetPassword.tsx:82-87 | a strong password has 12 characters and every class; a medium one at least 8 characters |
| ResetPassword.LabelFollowsScore | src/pages/ResetPassword.tsx:78-95 | label and colour depend on the score alone, one per score |
| ResetPassword.BarWidth | src/pages/ResetPassword.tsx:221 | the bar is 25, 50, 75 or 100 per cent and determines the score |
| ResetPassword.SubmitGateCases | src/pages/ResetPassword.tsx:104-120 | the reset proceeds iff the passwords match and have at least 8 characters; a mismatch is reported first |
| ResetPassword.EnabledSubmitPassesGate | src/pages/ResetPassword.tsx:311 | when idle, the button is enabled exactly when the handler's gate would pass |
| ResetPassword.ResetForm.HandleSubmit | src/pages/ResetPassword.tsx:101-140 | `resetPassword(token, password)` is sent iff the gate passes, else the gate's toast and no change; loading ends |
| Leads.FilteredLeads | src/pages/Leads.tsx:78-82 | a lead is shown iff it is in the list and the active card keeps it |
| Leads.FilteredIsSubsequence | src/pages/Leads.tsx:78-82 | the shown leads keep the list's order |
| Leads.FilteredCounts | src/pages/Leads.tsx:78-82 | a kept lead is shown exactly as often as it is listed, any other lead never |
| Leads.FilterMeaning | src/pages/Leads.tsx:78-82 | "todos" shows the whole list; "nuevos" exactly the new leads; "calientes" exactly the qualified, visit and offer stages |
| Leads.MockLeadsFiltered | src/pages/Leads.tsx:11-82 | on the page's data each card leaves exactly one lead |
| Leads.EstadoColor | src/pages/Leads.tsx:65-76 | a known stage gets its colour, any other the "Nuevo" colour |
| Leads.KpiClickTwice | src/pages/Leads.tsx:104-118 | a card click leaves that card or "todos" active; clicking twice restores "todos" or that card |
| Leads.LeadsPage.ClickNuevos | src/pages/Leads.tsx:104 | the new-leads card switches its filter on or back off |
| Leads.LeadsPage.ClickCalientes | src/pages/Leads.tsx:118 | the hot-leads card switches its filter on or back off |
| Leads.LeadsPage.SetSearch | src/pages/Leads.tsx:61-82 | search text and stage filter are stored but do not change the shown leads |
| LeadCreateModal.EmailPatternIntro | src/components/LeadCreateModal.tsx:34-38 | every `a@b.c` whose parts are non-empty and free of spaces and `@` is accepted |
| LeadCreateModal.EmailPatternSplit | src/components/LeadCreateModal.tsx:34-38 | every accepted address splits into such parts |
| LeadCreateModal.FieldError | src/components/LeadCreateModal.tsx:32-47 | only email and phone get errors; email iff the pattern fails; phone iff non-empty and not 9–16 digits, `+`, `-` or spaces |
| LeadCreateModal.SubmitDecisionCases | src/components/LeadCreateModal.tsx:76-103 | a lead is created iff name and email are filled, no error is pending and the email matches; a missing name is reported first |
| LeadCreateModal.LeadForm.ValidateField | src/components/LeadCreateModal.tsx:32-47 | only the named field's error changes |
| LeadCreateModal.LeadForm.HandleChange | src/components/LeadCreateModal.tsx:49-53 | the field takes the value and its error is recomputed |
| LeadCreateModal.LeadForm.HandleSubmit | src/components/LeadCreateModal.tsx:55-104 | the form is sent iff the decision is to create; each refusal shows its toast or email error; a created lead resets the form |
| PropertySelection.Without | src/components/PropertySelectionModal.tsx:60-61 | every copy of the id is removed and everything else kept |
| PropertySelection.WithoutCounts | src/components/PropertySelectionModal.tsx:60-61 | every other id occurs in the result exactly as often as in the list, the removed id never |
| PropertySelection.ToggleEffect | src/components/PropertySelectionModal.tsx:58-64 | an absent id is appended; a present one is removed; no other id changes |
| PropertySelection.ToggleKeepsDistinct | src/components/PropertySelectionModal.tsx:58-64 | a selection without duplicates stays without duplicates |
| PropertySelection.ToggleTwice | src/components/PropertySelectionModal.tsx:58-64 | toggling twice restores the set of ids, and the list itself when the id was absent |
| PropertySelection.ToggleTwiceMovesToEnd | src/components/PropertySelectionModal.tsx:58-64 | toggling a present id twice can change the order |
| PropertySelection.SelectionModal.Toggle | src/components/PropertySelectionModal.tsx:58-64 | the selection becomes the toggled list |
| PropertySelection.SelectionModal.CheckCheckbox | src/components/PropertySelectionModal.tsx:152-157 | a dismissed match's checkbox is disabled and does nothing; any other toggles the property |
| PropertySelection.SelectionModal.ClickCard | src/components/PropertySelectionModal.tsx:148 | a dismissed property's card does nothing; any other toggles it |
| PropertySelection.SelectionModal.Generate | src/components/PropertySelectionModal.tsx:40-76 | the presentation is requested iff something is selected; success stores its URL |
| PropertySelection.SelectionModal.Close | src/components/PropertySelectionModal.tsx:90-95 | closing clears the selection, the URL and the copied flag |
| PresentationView.RunStaysInRange | src/pages/PresentationView.tsx:13-32 | any run of previous, next and dot moves keeps the index on a property |
| PresentationView.KeyAsWritten | src/pages/PresentationView.tsx:46-54 | as written, the listener registered on the first render keeps that render's handlers: the left arrow never moves, and the right arrow sets the index to 1, from any index, and only if the presentation was already loaded on the first render |
| PresentationView.StaleKeyListener | src/pages/PresentationView.tsx:46-54 | two right arrows on three cached properties stop at the second, where the buttons reach the third; a right arrow on the third goes back to the second; after a fresh load the arrows do nothing |
| PresentationView.KeysStayInRange | src/pages/PresentationView.tsx:22-32 | corrected: each arrow does what its button does, keeps the index on a property, and moves only in its own direction |
| PresentationView.Carousel.HandleKey | src/pages/PresentationView.tsx:46-54 | corrected: an arrow key calls the current previous or next handler; any other key does nothing |
| PresentationView.Carousel.constructor | src/pages/PresentationView.tsx:13 | the carousel starts at the first property |
| PresentationView.Carousel.HandlePrevious | src/pages/PresentationView.tsx:22-26 | one back, only past the first property |
| PresentationView.Carousel.HandleNext | src/pages/PresentationView.tsx:28-32 | one forward, only before the last property |
| PresentationView.Carousel.SelectDot | src/pages/PresentationView.tsx:231-236 | a dot selects its property |
| PresentationView.Carousel.Counter | src/pages/PresentationView.tsx:103 | the counter shows a position between 1 and the count |
| PresentationView.Carousel.Buttons | src/pages/PresentationView.tsx:113-123 | previous is shown iff not on the first, next iff not on the last |
| PresentationView.WhatsAppNumber | src/pages/PresentationView.tsx:34-39 | a link opens iff a phone is given; its number is the phone with its non-digits removed, made only of digits, each of them from the phone, followed by the text query; that every digit occurrence is kept, in order, is `JsText.DigitsOnlyChar` with `JsText.DigitsOnlyAppend` |
| FormEncoding.UriRoundTrip | src/pages/PresentationView.tsx:37 | a query parser reading the `text` parameter written by `encodeURIComponent` gets the share text back exactly |
| FormEncoding.EncodeUriComponentNoDelimiters | src/pages/PresentationView.tsx:37 | the encoded share text holds no space, `&`, `=`, `#` or `+`, so it cannot end or alter the link's query |
| PresentationView.CallUrl | src/pages/PresentationView.tsx:41-44 | a `tel:` link to the phone as given, iff one is given |
| ProfileTab.RoleColor | src/components/ProfileTab.tsx:86-94 | a role known in lower case gets its colour, any other the muted one |
| ProfileTab.RoleLabel | src/components/ProfileTab.tsx:95 | the caption upper-cases the first character and keeps the rest |
| ProfileTab.RoleColorIgnoresCase | src/components/ProfileTab.tsx:87-94 | roles that differ only in case share a colour; only admin, agent and manager get one of their own |
| ProfileTab.AdminBadge | src/components/ProfileTab.tsx:86-95 | "ADMIN" is coloured as admin, captioned "Admin" |
| ProfileTab.RoleLabelIdempotent | src/components/ProfileTab.tsx:95 | captioning a caption changes nothing |
| ProfileTab.ProfileCard.constructor | src/components/ProfileTab.tsx:23-26 | the card starts with the agent's name, not editing |
| ProfileTab.ProfileCard.StartEdit | src/components/ProfileTab.tsx:156 | the edit button enters editing |
| ProfileTab.ProfileCard.EditName | src/components/ProfileTab.tsx:136-137 | typing replaces the edited name only |
| ProfileTab.ProfileCard.HandleSaveName | src/components/ProfileTab.tsx:50-79 | the update is sent iff the edited name is not blank; success renames and leaves editing; failure keeps both |
| ProfileTab.ProfileCard.HandleCancelEdit | src/components/ProfileTab.tsx:81-84 | cancelling restores the saved name and leaves editing |
| AIActions.FindLead | src/pages/AIActions.tsx:62 | the first lead with the id, and none iff no lead has it |
| AIActions.Channel | src/pages/AIActions.tsx:67 | "WhatsApp available" iff the lead has a phone |
| AIActions.SummaryNamesChannel | src/pages/AIActions.tsx:67 | the summary contains the channel line, right after its header |
| AIActions.Seeded | src/pages/AIActions.tsx:60-72 | the chat after the effect is either the chat as it was or exactly one message, the known lead's summary; an absent, empty or unknown id leaves it as it was |
| AIActions.SeededIdempotent | src/pages/AIActions.tsx:60-72 | running the effect twice for the same lead gives the same chat as running it once |
| AIActions.SeededFromMockLeads | src/pages/AIActions.tsx:10-72 | lead 2 is summarised as e-mail only, lead 1 has WhatsApp, an unknown id leaves the chat as it was |
| AIActions.Chat.constructor | src/pages/AIActions.tsx:57-72 | the chat starts with an empty prompt and the seeded messages |
| AIActions.Chat.LeadChanged | src/pages/AIActions.tsx:60-72 | a new address id re-seeds the messages; the same id as before reruns nothing; the prompt is kept |
| AIActions.Chat.SetPrompt | src/pages/AIActions.tsx:157 | typing replaces the prompt only |
| AIActions.SendEnabledIffSends | src/pages/AIActions.tsx:166 | the send button is disabled exactly when the prompt is white space only, which is exactly when `handleSend` stops at its guard |
| AIActions.Chat.HandleSend | src/pages/AIActions.tsx:74-89 | a message is sent iff the prompt is not blank, that is iff the send button is enabled; it is appended as the user's and the prompt cleared |
| AIActions.Chat.HandleKeyDown | src/pages/AIActions.tsx:91-96 | Enter without Shift is intercepted and sends; any other key changes nothing |
| Toasts.MessageOr | src/pages/ResetPassword.tsx:131-137 | a caught error's toast is destructive, with the handler's title, and shows the error's message, or the handler's own text when the message is empty, so the description is never empty when that text is not (the same rule at src/pages/Register.tsx:97-103, src/components/ProfileTab.tsx:69-75 and src/components/EmailConfigForm.tsx:220-224) |
| JsText.Blank | src/components/ProfileTab.tsx:51 | `!s.trim()` holds iff every character is white space |
| JsText.TrimEmptyIffAllSpace | src/pages/AIActions.tsx:75 | trimming gives the empty string iff the text is all white space |
| JsText.IncludesIffOccurs | src/pages/Register.tsx:41-45 | `includes` holds iff the substring occurs at some position |
| JsText.Lower | src/components/ProfileTab.tsx:94 | lower-casing keeps the length, maps each character on its own, and leaves no upper-case letter |
| JsText.LowerIdempotent | src/components/ProfileTab.tsx:94 | lower-casing twice is the same as once |
| JsText.DigitsOnlyKeepsDigits | src/pages/PresentationView.tsx:37 | removing non-digits keeps exactly the digits |
| JsText.DigitsOnlyChar | src/pages/PresentationView.tsx:37 | a single character is kept exactly when it is a digit |
| JsText.DigitsOnlyAppend | src/pages/PresentationView.tsx:37 | the digits of `a + b` are the digits of `a` followed by those of `b`, so every digit occurrence is kept in order |
| JsText.DigitsOnlyIdempotent | src/pages/PresentationView.tsx:37 | removing non-digits twice is the same as once |

## Left out

- Text is a sequence of UTF-16 code units, one `char` each. Characters outside the Basic Multilingual Plane, which take two code units, are not modelled, with one exception: the chart emoji U+1F4CA that opens the AI summary is one `char` in the model, where JavaScript holds two code units. `toLowerCase`/`toUpperCase` are modelled for ASCII letters only.
- `JSON.stringify`/`JSON.parse` are modelled on flat objects of strings, integers, booleans and `null`. Nested values, floating-point numbers and white space in JSON text are not modelled. A stored agent that parses as something other than an object is not modelled.
- Header names are compared exactly. HTTP's case-insensitivity of header names is not modelled.
- A `response.json()` that fails on a successful status is not modelled. The parsed body is a parameter.
- `decodeURIComponent`, the server's handling of invalid UTF-8 and `encodeURIComponent` on lone surrogates are not modelled.
- `src/lib/api/emailConfigApi.ts` calls a default-exported axios `client` that `src/api/client.ts` does not define. That client is not part of this model. Each endpoint is described by the call it makes, and the client's outcome is a parameter.
- createConfig, updateConfig, testConnection, toggleEnabled, deleteConfig and disconnectGmail pass the client's answer on unchanged. The model gives their calls and lets the form consume the outcome.
- Timers are not modelled: the AI assistant's delayed reply (`setTimeout`), the copied flag's reset and the navigations after a delay. Rendering and toasts' display are not modelled either; a toast is a value.
- Navigation is not modelled except in `AuthPage.LoginPage.HandleAuth`'s returned route.
- `confirm` dialogs, `window.open`, the clipboard and the OAuth popup's `message` listener are not modelled. The dialog's answer is a parameter. `handleGoogleConnect` and the popup geometry are left out.
- react-query caching, retries and invalidation are not modelled. A mutation's outcome is a parameter.
- Handlers run to completion one at a time. Interleavings of overlapping `async` handlers are not modelled, and neither are the `saving`/`testing`/`isPending` flags' effect on buttons.
- `parseInt` is modelled as an `Option<int>` parse result given to the input handler.
- ProfileTab's `loadCompanyData` fetch and its toast are not modelled.
- ProfileTab.RoleColor: a role named after an `Object.prototype` member such as `constructor` would find an inherited value in the source's object lookup. The model knows only the three own keys.
- AuthContext.AuthProvider.constructor: requires the stored agent to parse. The source's mount-time `JSON.parse` would throw instead, and that crash is not modelled.
- Leads: the mock leads' contact and date fields, which no rule reads, are left out.
- ResetPassword's token validation on mount (`validateToken`) and the paste blocker are not modelled.
- PresentationView's loading of the presentation is not modelled: the carousel is given the property count. The keyboard listener is modelled by the values its stale handlers see (`PresentationView.KeyAsWritten`), not as a registration; the listener is also never removed, which is not modelled.
- AuthContext.InitialSession: a stored agent that is valid JSON but not a flat object of strings, integers, booleans and `null` (a nested object, a float, white space) makes the model's restore fail, while the source would restore it.
- Properties.FilterPairs: numeric filters are integers. The text the source's `toString` gives for fractions, `NaN` or very large numbers is not modelled.
- Leads.EstadoColor: the stages are fixed literals; a stage named after an inherited `Object.prototype` member is not modelled.

## Findings

| source | as written | input that shows it | evidently intended | confidence | as-written member | corrected member |
|---|---|---|---|---|---|---|
| src/api/client.ts:6-9 | the default `Content-Type: application/json` is added to every request whose caller did not set that key, including `createProperty`'s `FormData` upload, whose caller passes empty headers so that the browser can set the type (src/api/properties.ts:63-68) | `createProperty(data, None)`: the upload goes out with `Content-Type: application/json` and a multipart body without its boundary | a `FormData` body gets no default `Content-Type`, so the browser sends `multipart/form-data` with its boundary | high, not executed | Properties.CreatePropertyContentType | HttpClient.BuildRequestFixed |
| src/pages/PresentationView.tsx:46-54 | the keyboard listener is registered inside a `useState` initializer, so it runs once, on the first render, and its handlers see that render's presentation and index 0 | with the presentation cached, three properties and the index on the third, ArrowRight sets the index to 1; with the presentation still loading on the first render, no arrow ever moves | the arrows call the current `handlePrevious`/`handleNext` (an effect over the handlers) | high, not executed | PresentationView.StaleKeyListener | PresentationView.Carousel.HandleKey |
