# SentiraAI client library, modelled in Dafny

The library is a TypeScript client for a summarization and transcription web service. It holds a configuration (base URL, and an API key or an access token) and mirrors it into an HTTP transport, whose base URL and default authentication header follow that configuration. It exposes four API-key operations (create, list, delete, validate) and two content operations (summarize, transcribe). The content operations post their options as a multipart form. The shared request path turns the failures it classifies into one error kind, `SentiraApiError`. One case escapes as a different error; see "## Left out".

The model has five modules:

- `Wrappers` (`wrappers.dfy`): `Option` and `Result`.
- `Types` (`types.dfy`): the record shapes of `src/types.ts` as datatypes. Each string literal union (`'short' | 'medium' | 'long'`, …) is a subset type of `string`. An optional field is an `Option`. `SentiraConfig` uses `Prop` (missing / `undefined` / defined), because object spread tells a missing key from one set to `undefined`. The entries of a typed options object, in declaration order, are given by `SummarizeEntries` and `TranscribeEntries`.
- `Errors` (`errors.dfy`): `SentiraApiError`, which holds a message, an optional status code and the constant name `"SentiraApiError"`. It also holds `ConfigError`, the plain error raised at construction.
- `Decimal` (`decimal.dfy`): the decimal text of a status code, as `${status}` renders it, and its parser.
- `Client` (`client.dfy`): the class `SentiraAI`.
  - Its configuration fields are `baseUrl`, `apiKey` and `accessToken`.
  - The axios instance is the pair of fields `transportBaseUrl` and `transportHeaders`. `Valid()` keeps this pair equal to what the current configuration implies.
  - The module also holds the operation routing table, the error translation and the form loop.

The transport is a parameter. Each operation method takes the transport's `Reply` (a response body, or a `Failure`) and returns two things: the `Dispatched` request it sent (base URL, default headers, method, path, body) and its `Result`.

The model follows the code on these points:

- The base URL default applies only when `baseUrl` is missing from the configuration object. A configuration that sets `baseUrl: undefined` keeps `undefined`, because the spread overrides the default (`MergedBaseUrl`).
- Truthiness decides the credentials. An empty string counts as absent, so `setApiKey("")` leaves the client with no authentication header at all. A client can therefore end up with no credential, and `Valid()` does not require one.
- `src/examples.ts` passes `model: 'slow'`, a value outside the `SummarizeOptions.model` union. The model follows the union in `src/types.ts`, so `"slow"` is not a `SummaryModel`.

## Model

| member | source | states |
|---|---|---|
| `Types.SummarizeEntries` | src/types.ts:44-52 | the keys are distinct and are among the seven option names; each present option appears under its own key with its own value, and an absent one under no key; the three required options are always there; only `file` carries bytes |
| `Types.SummarizeEntriesShape` | src/types.ts:44-52 | the number of entries follows the present options; only the `file` entry holds bytes, and they are the given buffer |
| `Types.SummarizeEntriesContents` | src/types.ts:44-52 | the keys are distinct option names, and each option is carried under its own key with its own value exactly when present |
| `Types.TranscribeEntries` | src/types.ts:54-61 | the keys are distinct and are among the six option names; each present option (`file`, `input_type`, `transcript_type`, `audio_url`, `use_subtitles`, `model`) appears under its own key with its own value, and an absent one under no key; only `file` carries bytes |
| `Types.TranscribeEntriesShape` | src/types.ts:54-61 | the number of entries follows the present options; only the `file` entry holds bytes, they are the given buffer, and it comes first |
| `Types.TranscribeEntriesContents` | src/types.ts:54-61 | the keys are distinct option names, and each option is carried under its own key with its own value exactly when present |
| `Errors.NewSentiraApiError` | src/errors.ts:1-6 | the message and status code are stored unchanged (absent when omitted); the name is always `SentiraApiError` |
| `Decimal.NatToString` | src/SentiraAI.ts:66 | the status renders as a non-empty string of digits, with no leading zero except for 0, and a status below 10 is its single digit |
| `Decimal.ParseNatToString` | src/SentiraAI.ts:66 | reading the rendered status back gives the status |
| `Client.HasCredential` | src/SentiraAI.ts:17-19 | the check passes exactly when the API key and the access token are not both missing, `undefined` or empty |
| `Client.MergedBaseUrl` | src/SentiraAI.ts:12-15 | a missing base URL becomes `https://api.sentiraai.com`; a supplied one (even `undefined`) is kept |
| `Client.AuthHeaders` | src/SentiraAI.ts:26-31 | at most one auth header; `x-api-key: apiKey` exactly when the key is truthy; otherwise `Authorization: Bearer token` exactly when the token is truthy; otherwise none |
| `Client.MethodOf` | src/SentiraAI.ts:75-135 | only `getApiKeys` is a GET and only `deleteApiKey` a DELETE; the other four operations POST |
| `Client.PathOf` | src/SentiraAI.ts:75-135 | the four key operations use paths under `/api-keys`, summarize and transcribe do not; the delete path is `/api-keys/` followed by the id verbatim |
| `Client.EndpointFor` | src/SentiraAI.ts:75-103 | any operation the router returns for a method and path has exactly that method and path |
| `Client.RouteRoundTrip` | src/SentiraAI.ts:75-103 | every operation, including `deleteApiKey` with any unescaped id, is recovered from its method and path |
| `Client.RouteInjective` | src/SentiraAI.ts:75-103 | two operations with the same method and path are the same operation |
| `Client.TranslateFailure` | src/SentiraAI.ts:65-71 | a status code is present exactly for a failure with a response and equals its status; the three message formats |
| `Client.RecoverFailure` | src/SentiraAI.ts:65-71 | any failure read back from an error translates to that very error |
| `Client.RecoverTranslate` | src/SentiraAI.ts:65-71 | every failure is read back from the error it is translated to |
| `Client.TranslateInjective` | src/SentiraAI.ts:65-71 | distinct failures (different status, detail, message or case) give distinct errors |
| `Client.PartFor` | src/SentiraAI.ts:108-112 | an entry keeps its key; it becomes a file part with the given filename exactly when its key is `file` and its value is bytes, otherwise a field part with the same value |
| `Client.FormParts` | src/SentiraAI.ts:107-113 | one part per entry, in entry order, each given by `PartFor` |
| `Client.FormFileParts` | src/SentiraAI.ts:105-139 | without a binary `file` entry the form has no file part; every file part carries the operation's filename |
| `Client.AppendEntries` | src/SentiraAI.ts:106-113 | the loop builds exactly `FormParts` of the entries |
| `Client.SummarizeFormOfOptions` | src/SentiraAI.ts:105-113 | for typed options, file parts are exactly the `file` entries; with no `file` there is no file part; a given `file` becomes a `document.pdf` part |
| `Client.TranscribeFormOfOptions` | src/SentiraAI.ts:123-131 | for typed options, file parts are exactly the `file` entries; with no `file` there is no file part; a given `file` becomes an `audio.mp3` part |
| `Client.NotFoundExample` | src/SentiraAI.ts:66 | a 404 reply with detail `not found` gives `API error: 404 - not found` with status 404 |
| `Client.ConnectionRefusedExample` | src/SentiraAI.ts:68 | `ECONNREFUSED` gives `Network error: ECONNREFUSED` with no status |
| `Client.SummarizeTextExample` | src/SentiraAI.ts:105-113 | text-only summarize options give the four field parts in order and no file part |
| `Client.CredentiallessConfigs` | src/types.ts:1-5 | every configuration whose two credentials are each missing, `undefined` or empty is a value of the type that the construction check rejects |
| `Client.CredentialSwitchScenario` | src/SentiraAI.ts:39-54 | after `setAccessToken` only the Bearer header is sent; after a later `setApiKey` only the key header; after `setApiKey("")` none; the base URL set in between is kept |
| `Client.SentiraAI.constructor` | src/SentiraAI.ts:11-23 | for a configuration that passes the credential check: merges the base URL default, stores the credentials and leaves the transport matching the configuration |
| `Client.SentiraAI.Create` | src/SentiraAI.ts:11-23 | fails with the missing-credential error exactly when neither credential is truthy; otherwise a fresh, valid client holding the merged configuration |
| `Client.SentiraAI.InitializeTransport` | src/SentiraAI.ts:25-37 | rebuilds the transport from the current configuration and changes nothing else |
| `Client.SentiraAI.SetBaseUrl` | src/SentiraAI.ts:39-42 | only the base URL and the transport's base URL change; the credentials and headers stay the same |
| `Client.SentiraAI.SetApiKey` | src/SentiraAI.ts:44-48 | the key is set and the token cleared; the base URL is kept; the headers are exactly `x-api-key: key`, or none for `""` |
| `Client.SentiraAI.SetAccessToken` | src/SentiraAI.ts:50-54 | the token is set and the key cleared; the base URL is kept; the headers are exactly `Authorization: Bearer token`, or none for `""` |
| `Client.SentiraAI.Request` | src/SentiraAI.ts:56-73 | sends to the configured base URL with the current auth headers; returns the body unchanged, or raises the translated error |
| `Client.SentiraAI.CreateApiKey` | src/SentiraAI.ts:75-81 | `POST /api-keys` with the request as body; result as `Request` |
| `Client.SentiraAI.GetApiKeys` | src/SentiraAI.ts:83-88 | `GET /api-keys` without body; an empty key list is returned as is |
| `Client.SentiraAI.DeleteApiKey` | src/SentiraAI.ts:90-95 | `DELETE /api-keys/` followed by the id verbatim |
| `Client.SentiraAI.ValidateApiKey` | src/SentiraAI.ts:97-103 | `POST /api-keys/validate` with the request as body |
| `Client.SentiraAI.Summarize` | src/SentiraAI.ts:105-121 | `POST /summarize` with the form of the entries, file parts named `document.pdf` |
| `Client.SentiraAI.Transcribe` | src/SentiraAI.ts:123-139 | `POST /transcribe` with the form of the entries, file parts named `audio.mp3` |

## Left out

- HTTP traffic through axios and the internals of the `form-data` library are not modelled: the boundary encoding, and the per-request headers returned by `getHeaders()` (src/SentiraAI.ts:119, 137). These are foreign libraries. The transport is only its base URL and default headers, and its answer is the `Reply` parameter.
- `async` behaviour and races between the setters and in-flight requests are not modelled: this is concurrency, and the code promises nothing about it.
- The `logger.error` call (src/SentiraAI.ts:61-64) is a logging side effect only, and `./utils/logger` is not part of this model.
- Library behaviour is not modelled: how `form-data` turns booleans and numbers into text, and what it does with an entry whose value is `undefined`. The typed entry lists include present properties only.
- The order of `Object.entries` is the order in which the caller's object literal defines its properties. `SummarizeEntries` and `TranscribeEntries` fix declaration order. `AppendEntries`, `Summarize` and `Transcribe` take any sequence of entries and keep its order.
- `HttpFailure.detail` is the already-rendered text of `error.response.data.detail`. When that field is missing, JavaScript renders it as `undefined`, and the model does not re-derive that.
- `HttpFailure.status` is a `nat`. Non-integer or negative statuses, which HTTP does not produce, are not modelled. Nor is JavaScript's exponent notation for integers of 10^21 and above, which `NatToString` does not produce.
- An error reply whose body is `null` or `undefined` is not modelled. For such a reply, reading `error.response.data.detail` (src/SentiraAI.ts:66) throws a `TypeError` inside the catch block, and that `TypeError`, not a `SentiraApiError`, leaves `request`. `HttpFailure` assumes the body exists; its `detail` is the rendered text of the field.
- Numeric response fields are `real`. IEEE double behaviour is not modelled, because the client only passes these values through.
- `src/examples.ts` (a demo script with file I/O and console output) and `src/form-data.d.ts` (an ambient type declaration) are not part of this model.
