/**
 * `fetchClient` (src/api/client.ts): the base URL, the request it hands to `fetch`
 * (endpoint appended to the base, caller options spread, a default JSON
 * `Content-Type` merged under the caller's headers) and the way the response becomes
 * a value or an error.  `fetch` itself is a parameter: a function from the request
 * to either a network failure or a response.
 */
module HttpClient {
  import opened Outcomes

  /** A plain-object `HeadersInit`: header name to value. */
  type Headers = map<string, string>

  datatype FormValue = Field(text: string) | File(fileName: string)

  datatype FormEntry = FormEntry(name: string, value: FormValue)

  datatype Body = NoBody | Text(text: string) | Multipart(entries: seq<FormEntry>)

  /** The parts of a `RequestInit` the application sets. */
  datatype RequestInit = RequestInit(verb: Option<string>, body: Body, headers: Option<Headers>)

  /** What an API function hands to `fetchClient`: an endpoint and optional options. */
  datatype Call = Call(endpoint: string, options: Option<RequestInit>)

  datatype Request = Request(url: string, verb: Option<string>, body: Body, headers: Headers)

  datatype Response<T> = Response(status: int, statusText: string, json: T)

  /** A `FormData` object: an ordered list of named entries that `append` extends. */
  class FormData {
    var entries: seq<FormEntry>

    constructor()
      ensures entries == []
    {
      entries := [];
    }

    method Append(name: string, value: FormValue)
      modifies this
      ensures entries == old(entries) + [FormEntry(name, value)]
    {
      entries := entries + [FormEntry(name, value)];
    }
  }

  const DefaultBaseUrl: string := "http://localhost:8080/api/v1"

  /** `import.meta.env.VITE_API_URL || DefaultBaseUrl`: an unset or empty variable
      falls back to the default. */
  function BaseUrl(env: Option<string>): (r: string)
    ensures env.Some? && env.value != "" ==> r == env.value
    ensures env.None? || env.value == "" ==> r == DefaultBaseUrl
    ensures r != ""
  {
    if env.Some? && env.value != "" then env.value else DefaultBaseUrl
  }

  /** The request URL: base and endpoint side by side, with no separator logic. */
  function Url(base: string, endpoint: string): (r: string)
    ensures |r| == |base| + |endpoint|
    ensures r[..|base|] == base && r[|base|..] == endpoint
  {
    base + endpoint
  }

  const ContentType: string := "Content-Type"
  const ApplicationJson: string := "application/json"

  function CallerHeaders(options: Option<RequestInit>): Headers {
    if options.Some? && options.value.headers.Some? then options.value.headers.value else map[]
  }

  /** The header merge as written: `{'Content-Type': 'application/json', ...options?.headers}`. */
  function MergeHeadersAsWritten(options: Option<RequestInit>): (h: Headers)
    ensures ContentType in h
    ensures ContentType !in CallerHeaders(options) ==> h[ContentType] == ApplicationJson
    ensures forall k :: k in CallerHeaders(options) ==> k in h && h[k] == CallerHeaders(options)[k]
    ensures forall k :: k in h ==> k == ContentType || k in CallerHeaders(options)
  {
    map[ContentType := ApplicationJson] + CallerHeaders(options)
  }

  predicate IsMultipart(options: Option<RequestInit>) {
    options.Some? && options.value.body.Multipart?
  }

  /** The merge as the multipart callers expect it: a `FormData` body gets no default
      `Content-Type`, so the browser can supply one with the multipart boundary. */
  function MergeHeaders(options: Option<RequestInit>): (h: Headers)
    ensures forall k :: k in CallerHeaders(options) ==> k in h && h[k] == CallerHeaders(options)[k]
    ensures forall k :: k in h ==> k == ContentType || k in CallerHeaders(options)
    ensures !IsMultipart(options) ==> ContentType in h
    ensures !IsMultipart(options) && ContentType !in CallerHeaders(options) ==> h[ContentType] == ApplicationJson
    ensures IsMultipart(options) && ContentType !in CallerHeaders(options) ==> ContentType !in h
  {
    if IsMultipart(options) then CallerHeaders(options) else MergeHeadersAsWritten(options)
  }

  /** The two merges differ only on multipart bodies. */
  lemma MergeHeadersAgreeOffMultipart(options: Option<RequestInit>)
    requires !IsMultipart(options)
    ensures MergeHeaders(options) == MergeHeadersAsWritten(options)
  {
  }

  /** As written, a multipart call whose caller passes `headers: {}` still goes out as
      `application/json`. */
  lemma MultipartKeepsJsonContentTypeAsWritten(entries: seq<FormEntry>, verb: Option<string>)
    ensures MergeHeadersAsWritten(Some(RequestInit(verb, Multipart(entries), Some(map[]))))[ContentType]
            == ApplicationJson
  {
  }

  /** With the corrected merge that multipart call carries no `Content-Type` at all. */
  lemma MultipartHasNoContentType(entries: seq<FormEntry>, verb: Option<string>)
    ensures ContentType !in MergeHeaders(Some(RequestInit(verb, Multipart(entries), Some(map[]))))
  {
  }

  /** The `RequestInit` handed to `fetch`: caller options spread, headers merged as
      written. */
  function BuildRequest(base: string, call: Call): (r: Request)
    ensures r.url == Url(base, call.endpoint)
    ensures call.options.Some? ==> r.verb == call.options.value.verb && r.body == call.options.value.body
    ensures call.options.None? ==> r.verb.None? && r.body == NoBody
    ensures r.headers == MergeHeadersAsWritten(call.options)
  {
    var options := call.options;
    Request(Url(base, call.endpoint),
            if options.Some? then options.value.verb else None,
            if options.Some? then options.value.body else NoBody,
            MergeHeadersAsWritten(options))
  }

  /** The request with the corrected header merge. */
  function BuildRequestFixed(base: string, call: Call): (r: Request)
    ensures r == BuildRequest(base, call).(headers := MergeHeaders(call.options))
  {
    var options := call.options;
    Request(Url(base, call.endpoint),
            if options.Some? then options.value.verb else None,
            if options.Some? then options.value.body else NoBody,
            MergeHeaders(options))
  }

  /** The correction changes only requests with a multipart body: every other request
      goes out exactly as before. */
  lemma BuildRequestFixedAgreesOffMultipart(base: string, call: Call)
    requires !IsMultipart(call.options)
    ensures BuildRequestFixed(base, call) == BuildRequest(base, call)
  {
    MergeHeadersAgreeOffMultipart(call.options);
  }

  /** `response.ok`: a status in the range 200 to 299. */
  predicate Ok(status: int) { 200 <= status <= 299 }

  function ErrorMessage(statusText: string): string {
    "API Error: " + statusText
  }

  /** The result of `fetchClient` once `fetch` has settled: a rejected fetch propagates
      its error, a non-ok response becomes an error, an ok response gives its body. */
  function Settle<T>(reply: Result<Response<T>, string>): (r: Result<T, string>)
    ensures reply.Failure? ==> r == Failure(reply.error)
    ensures reply.Success? && Ok(reply.value.status) ==> r == Success(reply.value.json)
    ensures reply.Success? && !Ok(reply.value.status) ==> r == Failure(ErrorMessage(reply.value.statusText))
  {
    match reply
    case Failure(e) => Failure(e)
    case Success(resp) => if Ok(resp.status) then Success(resp.json) else Failure(ErrorMessage(resp.statusText))
  }

  /** `fetchClient(endpoint, options)` against a server `fetch`. */
  function FetchClient<T>(base: string, call: Call, fetch: Request -> Result<Response<T>, string>): Result<T, string> {
    Settle(fetch(BuildRequest(base, call)))
  }

  /** The error of a non-ok response does not depend on the numeric status: two
      failing responses with the same status text give the same message. */
  lemma ErrorIgnoresStatus<T>(a: Response<T>, b: Response<T>)
    requires !Ok(a.status) && !Ok(b.status) && a.statusText == b.statusText
    ensures Settle(Success(a)) == Settle(Success(b))
  {
  }

  /** Every non-ok response is an error that starts with "API Error: " and ends with the
      status text, and an ok response never is. */
  lemma SettleIsErrorIffNotOk<T>(resp: Response<T>)
    ensures Settle(Success(resp)).Failure? <==> !Ok(resp.status)
    ensures Settle(Success(resp)).Success? ==> Settle(Success(resp)).value == resp.json
    ensures Settle(Success(resp)).Failure? ==>
      var m := Settle(Success(resp)).error;
      m[..11] == "API Error: " && m[11..] == resp.statusText
  {
  }
}
