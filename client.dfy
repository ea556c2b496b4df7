/**
 * The `SentiraAI` client: its configuration and transport state, the error translation
 * of its shared request path, the method and path of each operation, and the multipart
 * form that `summarize` and `transcribe` build from their options.
 */
module Client {
  import opened Wrappers
  import opened Types
  import opened Errors
  import opened Decimal

  const DefaultBaseUrl: string := "https://api.sentiraai.com"
  const ApiKeyHeader: string := "x-api-key"
  const AuthorizationHeader: string := "Authorization"
  const BearerPrefix: string := "Bearer "

  // ---------------------------------------------------------------------------
  // Configuration

  /** JavaScript truthiness of an optional string: present and not empty. */
  predicate Truthy(s: Option<string>)
  {
    s.Some? && s.value != ""
  }

  /** Reading a property: a missing key and an `undefined` value both read as `undefined`. */
  function PropValue<T>(p: Prop<T>): (v: Option<T>)
    ensures v.Some? <==> p.Defined?
    ensures v.Some? ==> v.value == p.value
  {
    match p
    case Defined(x) => Some(x)
    case _ => None
  }

  /**
   * The base URL kept by `{ baseUrl: DefaultBaseUrl, ...config }`: the default survives only
   * when the key is missing; a key present with `undefined` overrides it.
   */
  function MergedBaseUrl(p: Prop<string>): (u: Option<string>)
    ensures p.Missing? ==> u == Some(DefaultBaseUrl)
    ensures !p.Missing? ==> u == PropValue(p)
  {
    if p.Missing? then Some(DefaultBaseUrl) else PropValue(p)
  }

  /** A credential property that reads as falsy: missing, `undefined` or empty. */
  predicate Falsy(p: Prop<string>)
  {
    p.Missing? || p.Undefined? || p == Defined("")
  }

  /** The construction-time check: some credential must be truthy. */
  predicate HasCredential(config: SentiraConfig)
    ensures HasCredential(config) <==> !(Falsy(config.apiKey) && Falsy(config.accessToken))
  {
    Truthy(PropValue(config.apiKey)) || Truthy(PropValue(config.accessToken))
  }

  /**
   * The default headers the transport is built with: at most one authentication header,
   * the API key winning over the access token, none when neither is truthy.
   */
  function AuthHeaders(apiKey: Option<string>, accessToken: Option<string>): (h: map<string, string>)
    ensures h.Keys <= {ApiKeyHeader, AuthorizationHeader}
    ensures ApiKeyHeader in h <==> Truthy(apiKey)
    ensures AuthorizationHeader in h <==> !Truthy(apiKey) && Truthy(accessToken)
    ensures ApiKeyHeader in h ==> h[ApiKeyHeader] == apiKey.value
    ensures AuthorizationHeader in h ==> h[AuthorizationHeader] == BearerPrefix + accessToken.value
    ensures |h| <= 1
  {
    if Truthy(apiKey) then map[ApiKeyHeader := apiKey.value]
    else if Truthy(accessToken) then map[AuthorizationHeader := BearerPrefix + accessToken.value]
    else map[]
  }

  // ---------------------------------------------------------------------------
  // Requests

  datatype HttpMethod = Get | Post | Delete

  /** The six remote operations; only `deleteApiKey` carries a path parameter. */
  datatype Endpoint =
    | CreateApiKeyEndpoint
    | GetApiKeysEndpoint
    | DeleteApiKeyEndpoint(id: string)
    | ValidateApiKeyEndpoint
    | SummarizeEndpoint
    | TranscribeEndpoint

  const ApiKeysPath: string := "/api-keys"
  const ApiKeyItemPrefix: string := "/api-keys/"
  const ValidatePath: string := "/api-keys/validate"
  const SummarizePath: string := "/summarize"
  const TranscribePath: string := "/transcribe"

  /** Only the key listing is a GET and only the key removal a DELETE; all other operations POST. */
  function MethodOf(e: Endpoint): (m: HttpMethod)
    ensures m == Get <==> e.GetApiKeysEndpoint?
    ensures m == Delete <==> e.DeleteApiKeyEndpoint?
  {
    match e
    case GetApiKeysEndpoint => Get
    case DeleteApiKeyEndpoint(_) => Delete
    case _ => Post
  }

  /**
   * The request path: the four key operations live under `/api-keys`, and the key id is
   * spliced in verbatim, without escaping.
   */
  function PathOf(e: Endpoint): (p: string)
    ensures HasPrefix(p, ApiKeysPath) <==> !(e.SummarizeEndpoint? || e.TranscribeEndpoint?)
    ensures e.DeleteApiKeyEndpoint? ==> HasPrefix(p, ApiKeyItemPrefix) && p[|ApiKeyItemPrefix|..] == e.id
  {
    match e
    case CreateApiKeyEndpoint => ApiKeysPath
    case GetApiKeysEndpoint => ApiKeysPath
    case DeleteApiKeyEndpoint(id) => ApiKeyItemPrefix + id
    case ValidateApiKeyEndpoint => ValidatePath
    case SummarizeEndpoint => assert SummarizePath[..|ApiKeysPath|][1] != ApiKeysPath[1]; SummarizePath
    case TranscribeEndpoint => assert TranscribePath[..|ApiKeysPath|][1] != ApiKeysPath[1]; TranscribePath
  }

  /** The operation a method and path belong to, if any: the router the table above implies. */
  function EndpointFor(m: HttpMethod, path: string): (r: Option<Endpoint>)
    ensures r.Some? ==> MethodOf(r.value) == m && PathOf(r.value) == path
  {
    match m
    case Get => if path == ApiKeysPath then Some(GetApiKeysEndpoint) else None
    case Delete =>
      if |ApiKeyItemPrefix| <= |path| && path[..|ApiKeyItemPrefix|] == ApiKeyItemPrefix
      then Some(DeleteApiKeyEndpoint(path[|ApiKeyItemPrefix|..]))
      else None
    case Post =>
      if path == ApiKeysPath then Some(CreateApiKeyEndpoint)
      else if path == ValidatePath then Some(ValidateApiKeyEndpoint)
      else if path == SummarizePath then Some(SummarizeEndpoint)
      else if path == TranscribePath then Some(TranscribeEndpoint)
      else None
  }

  /**
   * Every operation is recovered from its method and path, so no two operations (and no two
   * key ids) share a request line, although `deleteApiKey("validate")` shares the path of
   * `validateApiKey`.
   */
  lemma RouteRoundTrip(e: Endpoint)
    ensures EndpointFor(MethodOf(e), PathOf(e)) == Some(e)
  {
    if e.DeleteApiKeyEndpoint? {
      assert (ApiKeyItemPrefix + e.id)[..|ApiKeyItemPrefix|] == ApiKeyItemPrefix;
      assert (ApiKeyItemPrefix + e.id)[|ApiKeyItemPrefix|..] == e.id;
    }
  }

  /** Operations with the same method and path are the same operation. */
  lemma RouteInjective(e1: Endpoint, e2: Endpoint)
    requires MethodOf(e1) == MethodOf(e2) && PathOf(e1) == PathOf(e2)
    ensures e1 == e2
  {
    RouteRoundTrip(e1);
    RouteRoundTrip(e2);
  }

  /** One part of a multipart form. */
  datatype Part = FilePart(key: string, content: seq<Byte>, filename: string) | FieldPart(key: string, value: Value)

  datatype RequestBody =
    | NoBody
    | KeyRequestBody(keyRequest: ApiKeyRequest)
    | ValidateRequestBody(validateRequest: ValidateApiKeyRequest)
    | FormBody(parts: seq<Part>)

  /** The per-call request description handed to the transport. */
  datatype RequestConfig = RequestConfig(verb: HttpMethod, url: string, body: RequestBody)

  /** What the transport sends: its base URL and default headers, and the per-call request. */
  datatype Dispatched = Dispatched(baseUrl: Option<string>, headers: map<string, string>, config: RequestConfig)

  // ---------------------------------------------------------------------------
  // Failures and their translation

  /** How a request can fail, as the catch block tells the cases apart. */
  datatype Failure =
    | HttpFailure(status: nat, detail: string)  // an axios error that carries a response
    | ErrorFailure(message: string)             // any other `Error`, including a network error
    | OtherFailure                              // a thrown value that is not an `Error`

  /** The transport's answer to one request. */
  datatype Reply<+T> = Received(body: T) | Failed(failure: Failure)

  const ApiErrorPrefix: string := "API error: "
  const StatusSeparator: string := " - "
  const NetworkErrorPrefix: string := "Network error: "
  const UnknownErrorMessage: string := "An unknown error occurred"

  predicate HasPrefix(s: string, prefix: string)
  {
    |prefix| <= |s| && s[..|prefix|] == prefix
  }

  /** The error raised for a failure; only a failure with a response carries a status code. */
  function TranslateFailure(f: Failure): (e: SentiraApiError)
    ensures e.statusCode.Some? <==> f.HttpFailure?
    ensures f.HttpFailure? ==> e.statusCode == Some(f.status)
    ensures f.HttpFailure? ==> e.message == ApiErrorPrefix + NatToString(f.status) + StatusSeparator + f.detail
    ensures f.ErrorFailure? ==> e.message == NetworkErrorPrefix + f.message
    ensures f.OtherFailure? ==> e.message == UnknownErrorMessage
  {
    match f
    case HttpFailure(status, detail) =>
      NewSentiraApiError(ApiErrorPrefix + NatToString(status) + StatusSeparator + detail, Some(status))
    case ErrorFailure(message) => NewSentiraApiError(NetworkErrorPrefix + message)
    case OtherFailure => NewSentiraApiError(UnknownErrorMessage)
  }

  /** The failure an error message would come from, read off its prefix. */
  function MessageFailure(m: string): Failure
  {
    if HasPrefix(m, NetworkErrorPrefix) then ErrorFailure(m[|NetworkErrorPrefix|..])
    else if HasPrefix(m, ApiErrorPrefix) then StatusAndDetail(m[|ApiErrorPrefix|..])
    else OtherFailure
  }

  /** Splits `<status> - <detail>` at the end of the leading digits. */
  function StatusAndDetail(rest: string): Failure
  {
    var k := LeadingDigits(rest);
    HttpFailure(ParseDigits(rest[..k]),
                if k + |StatusSeparator| <= |rest| then rest[k + |StatusSeparator|..] else "")
  }

  /** Reads the failure back from an error, when the error is one the translation produces. */
  function RecoverFailure(e: SentiraApiError): (r: Option<Failure>)
    ensures r.Some? ==> TranslateFailure(r.value) == e
  {
    var candidate := MessageFailure(e.message);
    if TranslateFailure(candidate) == e then Some(candidate) else None
  }

  lemma StatusAndDetailOfMessage(status: nat, detail: string)
    ensures StatusAndDetail(NatToString(status) + StatusSeparator + detail) == HttpFailure(status, detail)
  {
    var digits := NatToString(status);
    var rest := digits + StatusSeparator + detail;
    assert rest == digits + (StatusSeparator + detail);
    LeadingDigitsOfNumeral(digits, StatusSeparator + detail);
    assert rest[..|digits|] == digits;
    ParseNatToString(status);
    assert rest[|digits| + |StatusSeparator|..] == detail;
  }

  lemma MessageOfHttpFailure(status: nat, detail: string)
    ensures MessageFailure(TranslateFailure(HttpFailure(status, detail)).message) == HttpFailure(status, detail)
  {
    var m := TranslateFailure(HttpFailure(status, detail)).message;
    var tail := NatToString(status) + StatusSeparator + detail;
    assert m == ApiErrorPrefix + tail;
    assert m[0] == 'A';
    assert !HasPrefix(m, NetworkErrorPrefix);
    assert m[..|ApiErrorPrefix|] == ApiErrorPrefix;
    assert m[|ApiErrorPrefix|..] == tail;
    StatusAndDetailOfMessage(status, detail);
  }

  /** The translation loses nothing: the failure is read back from the error it produced. */
  lemma {:induction false} RecoverTranslate(f: Failure)
    ensures RecoverFailure(TranslateFailure(f)) == Some(f)
  {
    var m := TranslateFailure(f).message;
    match f
    case HttpFailure(status, detail) =>
      MessageOfHttpFailure(status, detail);
    case ErrorFailure(message) =>
      assert m[..|NetworkErrorPrefix|] == NetworkErrorPrefix;
      assert m[|NetworkErrorPrefix|..] == message;
    case OtherFailure =>
      assert m[0] == 'A' && m[1] == 'n';
      assert !HasPrefix(m, NetworkErrorPrefix);
      assert !HasPrefix(m, ApiErrorPrefix);
  }

  /** Distinct failures are reported as distinct errors. */
  lemma TranslateInjective(f1: Failure, f2: Failure)
    requires TranslateFailure(f1) == TranslateFailure(f2)
    ensures f1 == f2
  {
    RecoverTranslate(f1);
    RecoverTranslate(f2);
  }

  /** The request's result: the response body unchanged, or the translated failure. */
  predicate Settled<T(==)>(reply: Reply<T>, r: Result<T, SentiraApiError>)
  {
    match reply
    case Received(body) => r == Success(body)
    case Failed(f) => r == Failure(TranslateFailure(f))
  }

  // ---------------------------------------------------------------------------
  // Multipart forms

  const SummarizeFileName: string := "document.pdf"
  const TranscribeFileName: string := "audio.mp3"

  /** The part one option entry becomes: binary content under `file` is a file part, anything else a field. */
  function PartFor(entry: Entry, fileName: string): (p: Part)
    ensures p.key == entry.0
    ensures p.FilePart? <==> entry.0 == "file" && entry.1.Bytes?
    ensures p.FilePart? ==> p.content == entry.1.bytes && p.filename == fileName
    ensures p.FieldPart? ==> p.value == entry.1
  {
    if entry.0 == "file" && entry.1.Bytes? then FilePart("file", entry.1.bytes, fileName)
    else FieldPart(entry.0, entry.1)
  }

  /** The form built from the entries: one part per entry, in entry order. */
  function FormParts(entries: seq<Entry>, fileName: string): (parts: seq<Part>)
    ensures |parts| == |entries|
    ensures forall i :: 0 <= i < |entries| ==> parts[i] == PartFor(entries[i], fileName)
  {
    if entries == [] then []
    else FormParts(entries[..|entries| - 1], fileName) + [PartFor(entries[|entries| - 1], fileName)]
  }

  /** Without a binary `file` entry the form has no file part; every file part carries the given name. */
  lemma FormFileParts(entries: seq<Entry>, fileName: string)
    ensures (forall i :: 0 <= i < |entries| ==> !(entries[i].0 == "file" && entries[i].1.Bytes?))
            ==> forall i :: 0 <= i < |entries| ==> FormParts(entries, fileName)[i].FieldPart?
    ensures forall i :: 0 <= i < |entries| && FormParts(entries, fileName)[i].FilePart? ==>
              FormParts(entries, fileName)[i] == FilePart("file", entries[i].1.bytes, fileName)
  {
  }

  /** Appends one part per entry to an empty form, as the loops of `summarize` and `transcribe` do. */
  method AppendEntries(entries: seq<Entry>, fileName: string) returns (parts: seq<Part>)
    ensures parts == FormParts(entries, fileName)
  {
    parts := [];
    var i := 0;
    while i < |entries|
      invariant 0 <= i <= |entries|
      invariant parts == FormParts(entries[..i], fileName)
    {
      var (key, value) := entries[i];
      if key == "file" && value.Bytes? {
        parts := parts + [FilePart("file", value.bytes, fileName)];
      } else {
        parts := parts + [FieldPart(key, value)];
      }
      assert entries[..i + 1][..i] == entries[..i];
      i := i + 1;
    }
    assert entries[..i] == entries;
  }

  /**
   * A typed summarize options object gives a form whose only file part, present exactly when
   * `file` is given, is named `document.pdf`.
   */
  lemma SummarizeFormOfOptions(o: SummarizeOptions)
    ensures var parts := FormParts(SummarizeEntries(o), SummarizeFileName);
      && (forall i :: 0 <= i < |parts| ==> (parts[i].FilePart? <==> parts[i].key == "file"))
      && (o.file.None? ==> forall i :: 0 <= i < |parts| ==> parts[i].FieldPart?)
      && (o.file.Some? ==> parts[if o.text.Some? then 1 else 0] == FilePart("file", o.file.value, SummarizeFileName))
  {
  }

  /**
   * A typed transcribe options object gives a form whose only file part, present exactly when
   * `file` is given, is named `audio.mp3`.
   */
  lemma TranscribeFormOfOptions(o: TranscribeOptions)
    ensures var parts := FormParts(TranscribeEntries(o), TranscribeFileName);
      && (forall i :: 0 <= i < |parts| ==> (parts[i].FilePart? <==> parts[i].key == "file"))
      && (o.file.None? ==> forall i :: 0 <= i < |parts| ==> parts[i].FieldPart?)
      && (o.file.Some? ==> parts[0] == FilePart("file", o.file.value, TranscribeFileName))
  {
  }

  // ---------------------------------------------------------------------------
  // The client

  class SentiraAI {
    // the configuration
    var baseUrl: Option<string>
    var apiKey: Option<string>
    var accessToken: Option<string>
    // the transport, as the two things the client configures on it
    var transportBaseUrl: Option<string>
    var transportHeaders: map<string, string>

    /** The transport always reflects the current configuration. */
    ghost predicate Valid()
      reads this
    {
      transportBaseUrl == baseUrl && transportHeaders == AuthHeaders(apiKey, accessToken)
    }

    /** Merges the configuration over the default base URL and builds the transport. */
    constructor (config: SentiraConfig)
      requires HasCredential(config)
      ensures Valid()
      ensures baseUrl == MergedBaseUrl(config.baseUrl)
      ensures apiKey == PropValue(config.apiKey) && accessToken == PropValue(config.accessToken)
    {
      baseUrl := MergedBaseUrl(config.baseUrl);
      apiKey := PropValue(config.apiKey);
      accessToken := PropValue(config.accessToken);
      transportBaseUrl := None;
      transportHeaders := map[];
      new;
      InitializeTransport();
    }

    /** Construction, which fails exactly when no credential is truthy. */
    static method Create(config: SentiraConfig) returns (r: Result<SentiraAI, ConfigError>)
      ensures r.Failure? <==> !HasCredential(config)
      ensures r.Failure? ==> r.error == MissingCredential
      ensures r.Success? ==> fresh(r.value) && r.value.Valid()
      ensures r.Success? ==> r.value.baseUrl == MergedBaseUrl(config.baseUrl)
      ensures r.Success? ==> r.value.apiKey == PropValue(config.apiKey)
      ensures r.Success? ==> r.value.accessToken == PropValue(config.accessToken)
    {
      if !HasCredential(config) {
        return Failure(MissingCredential);
      }
      var client := new SentiraAI(config);
      return Success(client);
    }

    /** Rebuilds the transport from the current configuration. */
    method InitializeTransport()
      modifies this`transportBaseUrl, this`transportHeaders
      ensures Valid()
    {
      var headers: map<string, string> := map[];
      if Truthy(apiKey) {
        headers := headers[ApiKeyHeader := apiKey.value];
      } else if Truthy(accessToken) {
        headers := headers[AuthorizationHeader := BearerPrefix + accessToken.value];
      }
      transportBaseUrl := baseUrl;
      transportHeaders := headers;
    }

    /** Changes the base URL only; the credentials and the headers stay as they were. */
    method SetBaseUrl(url: string)
      requires Valid()
      modifies this
      ensures Valid()
      ensures baseUrl == Some(url) && apiKey == old(apiKey) && accessToken == old(accessToken)
      ensures transportBaseUrl == Some(url) && transportHeaders == old(transportHeaders)
    {
      baseUrl := Some(url);
      InitializeTransport();
    }

    /** Switches to an API key and clears the access token; an empty key leaves no auth header. */
    method SetApiKey(key: string)
      requires Valid()
      modifies this
      ensures Valid()
      ensures apiKey == Some(key) && accessToken == None && baseUrl == old(baseUrl)
      ensures transportBaseUrl == old(transportBaseUrl)
      ensures transportHeaders == if key != "" then map[ApiKeyHeader := key] else map[]
    {
      apiKey := Some(key);
      accessToken := None;
      InitializeTransport();
    }

    /** Switches to an access token and clears the API key; an empty token leaves no auth header. */
    method SetAccessToken(token: string)
      requires Valid()
      modifies this
      ensures Valid()
      ensures accessToken == Some(token) && apiKey == None && baseUrl == old(baseUrl)
      ensures transportBaseUrl == old(transportBaseUrl)
      ensures transportHeaders == if token != "" then map[AuthorizationHeader := BearerPrefix + token] else map[]
    {
      accessToken := Some(token);
      apiKey := None;
      InitializeTransport();
    }

    /** The request went to the configured base URL with the current credential's header. */
    ghost predicate Sends(sent: Dispatched, e: Endpoint, body: RequestBody)
      reads this
    {
      && sent.baseUrl == baseUrl
      && sent.headers == AuthHeaders(apiKey, accessToken)
      && sent.config == RequestConfig(MethodOf(e), PathOf(e), body)
    }

    /** The shared request path: send through the transport, return the body or raise the translated error. */
    method Request<T(==)>(config: RequestConfig, reply: Reply<T>) returns (sent: Dispatched, r: Result<T, SentiraApiError>)
      requires Valid()
      ensures sent == Dispatched(baseUrl, AuthHeaders(apiKey, accessToken), config)
      ensures Settled(reply, r)
    {
      sent := Dispatched(transportBaseUrl, transportHeaders, config);
      match reply
      case Received(body) =>
        r := Success(body);
      case Failed(f) =>
        r := Failure(TranslateFailure(f));
    }

    method CreateApiKey(request: ApiKeyRequest, reply: Reply<ApiKeyResponse>)
      returns (sent: Dispatched, r: Result<ApiKeyResponse, SentiraApiError>)
      requires Valid()
      ensures Sends(sent, CreateApiKeyEndpoint, KeyRequestBody(request))
      ensures Settled(reply, r)
    {
      sent, r := Request(RequestConfig(Post, ApiKeysPath, KeyRequestBody(request)), reply);
    }

    method GetApiKeys(reply: Reply<GetApiKeysResponse>)
      returns (sent: Dispatched, r: Result<GetApiKeysResponse, SentiraApiError>)
      requires Valid()
      ensures Sends(sent, GetApiKeysEndpoint, NoBody)
      ensures Settled(reply, r)
    {
      sent, r := Request(RequestConfig(Get, ApiKeysPath, NoBody), reply);
    }

    method DeleteApiKey(apiKeyId: string, reply: Reply<DeleteApiKeyResponse>)
      returns (sent: Dispatched, r: Result<DeleteApiKeyResponse, SentiraApiError>)
      requires Valid()
      ensures Sends(sent, DeleteApiKeyEndpoint(apiKeyId), NoBody)
      ensures Settled(reply, r)
    {
      sent, r := Request(RequestConfig(Delete, ApiKeyItemPrefix + apiKeyId, NoBody), reply);
    }

    method ValidateApiKey(request: ValidateApiKeyRequest, reply: Reply<ValidateApiKeyResponse>)
      returns (sent: Dispatched, r: Result<ValidateApiKeyResponse, SentiraApiError>)
      requires Valid()
      ensures Sends(sent, ValidateApiKeyEndpoint, ValidateRequestBody(request))
      ensures Settled(reply, r)
    {
      sent, r := Request(RequestConfig(Post, ValidatePath, ValidateRequestBody(request)), reply);
    }

    /** Posts the options as a multipart form; a binary `file` entry is sent as `document.pdf`. */
    method Summarize(options: seq<Entry>, reply: Reply<SummarizeResponse>)
      returns (sent: Dispatched, r: Result<SummarizeResponse, SentiraApiError>)
      requires Valid()
      ensures Sends(sent, SummarizeEndpoint, FormBody(FormParts(options, SummarizeFileName)))
      ensures Settled(reply, r)
    {
      var parts := AppendEntries(options, SummarizeFileName);
      sent, r := Request(RequestConfig(Post, SummarizePath, FormBody(parts)), reply);
    }

    /** Posts the options as a multipart form; a binary `file` entry is sent as `audio.mp3`. */
    method Transcribe(options: seq<Entry>, reply: Reply<TranscribeResponse>)
      returns (sent: Dispatched, r: Result<TranscribeResponse, SentiraApiError>)
      requires Valid()
      ensures Sends(sent, TranscribeEndpoint, FormBody(FormParts(options, TranscribeFileName)))
      ensures Settled(reply, r)
    {
      var parts := AppendEntries(options, TranscribeFileName);
      sent, r := Request(RequestConfig(Post, TranscribePath, FormBody(parts)), reply);
    }
  }

  // ---------------------------------------------------------------------------
  // Worked cases

  /** A 404 reply with detail `not found` is reported with that status and message. */
  lemma NotFoundExample()
    ensures TranslateFailure(HttpFailure(404, "not found")) == SentiraApiError("API error: 404 - not found", Some(404))
  {
    assert NatToString(404) == NatToString(40) + [DigitChar(4)];
    assert NatToString(40) == NatToString(4) + [DigitChar(0)];
  }

  /** A refused connection is a network error without a status code. */
  lemma ConnectionRefusedExample()
    ensures TranslateFailure(ErrorFailure("ECONNREFUSED")) == SentiraApiError("Network error: ECONNREFUSED", None)
  {
  }

  /** A text-only summarize request has four field parts and no file part. */
  lemma SummarizeTextExample()
    ensures FormParts(SummarizeEntries(SummarizeOptions(Some("hello"), None, "short", "paragraph", "anthropic", None, None)),
                      SummarizeFileName)
         == [FieldPart("text", Str("hello")), FieldPart("summary_length", Str("short")),
             FieldPart("summary_format", Str("paragraph")), FieldPart("model", Str("anthropic"))]
  {
  }

  /**
   * Every configuration whose credentials are each missing, `undefined` or empty is a value of
   * the type that the construction check rejects.
   */
  lemma CredentiallessConfigs(a: Prop<string>, t: Prop<string>, u: Prop<string>)
    requires Falsy(a) && Falsy(t)
    ensures !HasCredential(SentiraConfig(a, t, u))
  {
  }

  /** Switching credentials: only the most recently set one is sent, and the base URL is kept. */
  method CredentialSwitchScenario(key: string, token: string, url: string)
    returns (afterToken: map<string, string>, afterKey: map<string, string>, afterEmpty: map<string, string>,
             finalBaseUrl: Option<string>)
    requires key != "" && token != ""
    ensures afterToken == map[AuthorizationHeader := BearerPrefix + token]
    ensures afterKey == map[ApiKeyHeader := key]
    ensures afterEmpty == map[]
    ensures finalBaseUrl == Some(url)
  {
    var created := SentiraAI.Create(SentiraConfig(Defined(key), Missing, Missing));
    assert HasCredential(SentiraConfig(Defined(key), Missing, Missing));
    var client := created.value;
    assert client.transportBaseUrl == Some(DefaultBaseUrl);
    client.SetAccessToken(token);
    afterToken := client.transportHeaders;
    client.SetBaseUrl(url);
    client.SetApiKey(key);
    afterKey := client.transportHeaders;
    client.SetApiKey("");
    afterEmpty := client.transportHeaders;
    finalBaseUrl := client.transportBaseUrl;
    var sent, r := client.GetApiKeys(Failed(HttpFailure(401, "unauthorized")));
    assert sent.headers == map[] && r.Failure? && r.error.statusCode == Some(401);
  }
}
