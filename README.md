# BIGGER-REPLAYS upload bot — a Dafny model of its decision logic

The bot watches Discord channels for HaxBall replay files (`.hbr2`). It
downloads each one, uploads it to the TheHax replay service, and replies with
the link. Almost all of `index.js` is glue around the Discord client, axios,
FormData and a log file. This project models the small decisions that sit
inside that glue, as pure Dafny functions with proved contracts:

- `TriggerFilter` (trigger_filter.dfy): whether a message starts an upload,
  and which attachment is used. The message must be in a guild. It must not
  come from a bot, unless it came through a webhook. The attachment is the
  first one whose name is a string and, lower-cased, ends in `.hbr2`.
- `UploadRequest` (upload_request.dfy): the configuration the upload reads
  (API key, tenant key, private flag). Also the upload file name and its
  default `replay.hbr2`, the display name with the extension stripped (the
  regular expression `/\.[^/.]+$/`), the three multipart form fields, and the
  request headers. The headers are built entry by entry in
  `BuildUploadHeaders`, and `UploadHeaders` specifies them. Finally, the
  status predicate `validateStatus`.
- `JsValues` (js_values.dfy): JSON values and the JavaScript semantics the
  classification depends on: truthiness, property reads, `String(v)` and
  `Array.prototype.join`.
- `ResponseClassification` (response_classification.dfy): `safeJson`, and the
  classification of the reply into one `UploadResult`. The outcomes are the
  link, the service's error message, an unexpected reply (with a snippet of
  at most 300 characters), an error list that throws a `TypeError` when
  mapped, and a transport error (no response, or a status outside
  [200, 500)). Where the source throws, the model returns the corresponding
  variant.
- `Relay` (relay.dfy): the `messageCreate` handler as one function of its
  inputs. The download and HTTP outcomes are parameters. It also gives the
  messages the bot posts back.

`JSON.parse` and `JSON.stringify` are foreign code. They enter as function
parameters (`Parser`, `Serializer`). The configuration enters as an
`Environment` value instead of `process.env`.

Behaviour that is absent from the code, or differs from what one might expect
of such a bot:

- The code appends no `apiKey`/`tenantKey` form fields. The keys go only into
  headers (index.js:118-140).
- Statuses below 200 are transport failures too, not only 5xx (index.js:147).
- The code has no separate check against the bot's own identity. The bot's
  own messages are rejected because they are bot-authored and carry no
  webhook id (index.js:46-48).
- On failure the handler sends a new failure message (index.js:105). It does
  not edit the status notice. Only success edits it (index.js:95).
- No session, CSRF login or login rate limiting exists in this source. There
  is nothing of that to model.
- An errors list with a `null` entry, or an `errors` value that is a
  non-empty string or an object with a truthy `length`, makes the `map` call
  throw a `TypeError` (index.js:161). The model gives this its own outcome,
  `MalformedErrorList`. In the code it reaches the same catch block as every
  other failure. `ThreeOutcomes` proves that with a well-formed (or absent)
  errors list only the three expected outcomes occur.

## Model

| member | source | states |
|---|---|---|
| TriggerFilter.Lower | index.js:62 | lower-casing keeps the length, turns every upper-case ASCII letter into its lower-case letter, leaves none behind, and keeps every other character as it was |
| TriggerFilter.IsReplayName | index.js:62 | a replay name is a string with at least as many characters as `.hbr2` |
| TriggerFilter.PassesOrigin | index.js:43-48 | a message passes iff it is in a guild and, if its author is a bot, it has a webhook id |
| TriggerFilter.FirstReplay | index.js:61-63 | `find` returns nothing exactly when no attachment has a replay name; otherwise it returns an attachment at some index whose name is a replay name and before which no name is |
| TriggerFilter.SelectReplay | index.js:43-64 | an attachment is chosen iff the message passes the origin checks and some attachment has a replay name; the chosen one is the first such attachment in order |
| TriggerFilter.ReplayNameCharacterisation | index.js:62 | a string name is a replay name iff it has at least five characters and they end in '.', h/H, b/B, r/R, '2' |
| TriggerFilter.ReplayNameExamples | index.js:61-63 | `Game.HBR2` is accepted; `game.hbr2x`, `hbr2` and a non-string name are rejected |
| TriggerFilter.OriginRules | index.js:43-48 | no guild means rejection; a bot author without a webhook id means rejection whatever the attachments; a bot author with a webhook id is treated like a human author |
| TriggerFilter.NoAttachmentsNoUpload | index.js:58 | a message with no attachments starts no upload |
| TriggerFilter.FirstReplaySkipsPrefix | index.js:61-63 | attachments without a replay name in front of a list do not change which attachment is chosen |
| UploadRequest.ConfiguredKey | index.js:12-13 | an unset or empty variable yields the empty key; otherwise the key is the variable's value |
| UploadRequest.PrivateFlag | index.js:14 | the flag is always "1" or "0", and it is "1" exactly when the variable equals "1" |
| UploadRequest.LoadConfig | index.js:12-14 | the private flag is "1" or "0", and "1" iff THEHAX_PRIVATE is "1"; a set, non-empty key is carried through and a non-empty configured key comes from its variable; each field is the fallback or flag rule applied to its own variable |
| UploadRequest.UploadFileName | index.js:119 | the upload name is never empty; it is the given name when that is non-empty, and `replay.hbr2` otherwise |
| UploadRequest.FindExtension | index.js:116 | the backward scan finds a position where the extension pattern matches, or there is no such position |
| UploadRequest.ExtensionUnique | index.js:116 | the pattern `\.[^/.]+$` matches at most one position |
| UploadRequest.StripExtension | index.js:116 | the result is a prefix of the name; it equals the name iff the pattern matches nowhere, and otherwise the pattern matches right after it |
| UploadRequest.StripExtensionRemoves | index.js:116 | the removed part is empty, or a '.' and then one or more characters that are neither '.' nor '/', up to the end |
| UploadRequest.StripExtensionNoDot | index.js:116 | a name without a '.' is unchanged |
| UploadRequest.StripExtensionExamples | index.js:116 | `match.hbr2` gives `match`; `file.` and `a/b.c/d` are unchanged; `a.b.c` gives `a.b`; `.hbr2` gives the empty name |
| UploadRequest.DisplayName | index.js:116 | the display name is a prefix of the upload file name; it equals that name iff the extension pattern matches nowhere in it, and otherwise the pattern matches right after it |
| UploadRequest.DefaultNames | index.js:116-119 | with no name or an empty name, the upload name is `replay.hbr2` and the display name is `replay` |
| UploadRequest.UploadForm | index.js:117-123 | the form has the fields `replay[fileContent]`, `replay[name]`, `replay[private]` in order; the file part carries the bytes as `application/octet-stream` under the upload name; the name field is the display name (a prefix of the upload name); the private field is the flag |
| UploadRequest.BaseHeaders | index.js:126-132 | the base entries are exactly the form content type, User-Agent, Accept, Origin and Referer; content-type is the form's, Accept is `application/json`, and the other three are the fixed browser-like values |
| UploadRequest.ApiKeyHeaders | index.js:133-136 | API-key entries exist exactly when the key is non-empty, and then Authorization is `Bearer ` followed by the key and X-Api-Key is the key |
| UploadRequest.TenantHeaders | index.js:137-140 | tenant entries exist exactly when the tenant key is non-empty, and then X-Tenant-Key and X-Tenant are both the tenant key |
| UploadRequest.UploadHeaders | index.js:126-140 | the base entries are always present with their values; `Authorization = "Bearer " + k` and `X-Api-Key = k` are present iff the API key k is non-empty; `X-Tenant-Key` and `X-Tenant` are present iff the tenant key is non-empty; no other keys |
| UploadRequest.BuildUploadHeaders | index.js:126-140 | building the header object entry by entry yields exactly `UploadHeaders` |
| UploadRequest.HeadersIndependent | index.js:133-140 | changing the API key changes no entry outside its two, and changing the tenant key changes no entry outside its two |
| UploadRequest.AcceptsStatus | index.js:147 | a status is accepted as a response iff it is in the 2xx, 3xx or 4xx class |
| JsValues.Truthy | index.js:155-160 | a JSON value is truthy iff it is not `null`, `false`, `0` or `""` |
| JsValues.TruthyValue | index.js:155-160 | a property read is truthy iff it is defined and not `null`, `false`, `0` or `""` |
| JsValues.JoinAppend | index.js:161 | joining a non-empty list with one more part at the end gives the old join, the separator and that part |
| JsValues.JoinText | index.js:161 | `join` renders `undefined` and `null` as the empty string, and every other element as its `String` conversion |
| JsValues.JsString | index.js:161-162 | `String` gives "null", "true"/"false", the decimal digits of a number (IntToDecimal), a string itself, an array's elements rendered as by `join` and joined with ",", and "[object Object]" for an object |
| JsValues.IntToDecimal | index.js:161-162 | a number renders as a '-' iff it is negative, followed by the digits of its magnitude; never "-0" |
| JsValues.NatToDecimal | index.js:161-162 | the digits denote the number, and there is no leading zero except in "0" |
| ResponseClassification.Snippet | index.js:165 | the snippet is a prefix of the text, the whole text when it has at most 300 characters, and exactly 300 characters otherwise |
| ResponseClassification.SafeJson | index.js:168-170 | text that parses gives the parsed value; text that does not gives the object `{raw: text}` and nothing else |
| ResponseClassification.ResponseData | index.js:150 | a value that is not a string is used as it is; every string, including one axios already parsed from a JSON string literal, is its parsed value, or `{raw: text}` when it does not parse |
| ResponseClassification.Field | index.js:155-160 | `data && data.key` reads an object's own key and is `undefined` on other values for every key but `length` |
| ResponseClassification.HasErrorList | index.js:160 | the error-list guard holds for a non-empty array, a non-empty string or an object with a truthy `length`, and never for a missing, `null`, boolean or number `errors` |
| ResponseClassification.ErrorMessages | index.js:161 | mapping the error list succeeds exactly when it is an array without `null` entries; an empty list gives "", a single entry gives its message as `join` renders it |
| ResponseClassification.ErrorMessagesAppend | index.js:161 | one more entry at the end of a non-empty list adds "; " and that entry's rendered message |
| ResponseClassification.Classify | index.js:155-165 | never a transport error; success only for `success === true` with a truthy `url`, and then always, returning that url; `success === false` with a truthy message always gives that message as the remote error; `success === false` with a falsy message and a present error list gives the joined messages, or a list error exactly when mapping throws; a `success` that is neither true nor false gives an unexpected reply; the snippet is at most 300 characters of the serialised value |
| ResponseClassification.Upload | index.js:142-165 | the outcome is a transport error iff there is no response or the status is outside [200, 500), carrying the status when there is one; otherwise it is the classification of the body |
| ResponseClassification.SuccessBody | index.js:155-157 | `{success: true, url: u}` with non-empty u gives `Success(u)` |
| ResponseClassification.MessageBody | index.js:160-162 | `{success: false, message: m}` with non-empty m gives `RemoteError(m)` |
| ResponseClassification.ErrorListBody | index.js:160-162 | `{success: false, errors: [...]}` with a falsy or missing message and a non-empty list without `null` entries gives the entries' rendered messages joined with "; ", whatever other keys the entries carry |
| ResponseClassification.ClassificationExamples | index.js:155-162 | the expected replies: success with `https://x/y` gives that link, and `limit reached` gives that remote error |
| ResponseClassification.ErrorListExample | index.js:160-162 | errors `a` and `b` give `a; b` |
| ResponseClassification.ErrorListExtraKeysExample | index.js:160-162 | a `null` message with the entry `{message: "a", code: 3}` gives `a` |
| ResponseClassification.UnparsableIsUnexpected | index.js:150-170 | text that does not parse, received with an accepted status, is an unexpected reply whose snippet is at most 300 characters of the serialised `{raw: text}` |
| ResponseClassification.StringBodyParsedAgain | index.js:150-157 | a body that axios hands over as a string, even one it already parsed from a JSON string literal, is parsed again by `safeJson`; a string that parses to `{success: true, url: "u"}` yields the link `u` |
| ResponseClassification.ServerErrorIsTransport | index.js:147 | a status of 500 or more is a transport error whatever the body |
| ResponseClassification.ThreeOutcomes | index.js:155-165 | with an absent errors field, or an array without `null` entries, the outcome is success, remote error or unexpected reply |
| Relay.ReplayDisplayName | index.js:62-86 | an accepted attachment's name is used as the upload name, and its display name is the name without its last five characters |
| Relay.HandleMessage | index.js:41-95 | the handler ignores a message iff the filter rejects it; it fails before uploading iff a replay was chosen and the download failed; otherwise it sends the form and headers built from the chosen attachment, the downloaded bytes and the configuration, and its result is the upload outcome |
| Relay.ReplayUploadForm | index.js:116-123 | the form for an accepted attachment carries its bytes under its own name, the name without its last five characters as display name, and the private flag |
| Relay.Effects | index.js:66-108 | an ignored message posts nothing; any other first posts the status notice and then one more action; an edit happens only on success and shows the returned link |
| Relay.FailureSendsNewNotice | index.js:95-108 | success edits the status notice; every failure instead sends a new failure notice |
| Relay.IgnoredPostsNothing | index.js:43-64 | a message outside a guild, from a non-webhook bot or without attachments posts nothing |

## Left out

- The Discord client: setup, intents, login, the `ready` event, and rendering of the embed (index.js:28-39, 89-93, 172). This is foreign-library I/O.
- Failures of the chat calls themselves (`send`, `edit`). `Effects` assumes they succeed. In the code, a failed status send or edit also lands in the catch block, and a failed failure notice is swallowed.
- The HTTP transfers: the download and upload calls, their 60-second timeouts, the unlimited body sizes and the User-Agent of the download (index.js:73-80, 142-146). This is network I/O. Their outcomes are the `Download` and `HttpResponse` inputs.
- The multipart encoding done by FormData, including the boundary. `form.getHeaders()` appears as one opaque `content-type` entry.
- Logging (`logDebug`, the debug file, the 500-character error-log slice; index.js:16-20, 50-55, 83, 97-103, 151-153). Logging has no effect on the outcome.
- Reading `.env` with dotenv, and the exit when `DISCORD_TOKEN` is missing (index.js:10, 22-26). This is process configuration. The other variables are the `Environment` input.
- Lines 68-70 of index.js: a duplicated string and `);` that do not parse. They are ignored.
- The exact text of `JSON.parse` and `JSON.stringify`: both are parameters. The unexpected-reply snippet is stated as a prefix of at most 300 characters of the serialiser's output.
- Floating-point JSON numbers: `JNum` holds integers. `IntToDecimal` prints every integer in plain decimal, while JavaScript prints integers above 2^53 with the shortest round-tripping digits padded with zeros (`String(2**60)` is `1152921504606847000`), and switches to exponent notation from 10^21 up.
- Key order and prototype properties of JavaScript objects: objects are maps of their own keys.
- Unicode case folding: `toLowerCase` is modelled on ASCII letters only. String `length` is counted in Dafny characters, not UTF-16 code units. Only its being non-zero matters here.
- Snippet: `slice(0, 300)` counts UTF-16 code units, while the model counts Dafny characters, so a snippet of text with characters outside the Basic Multilingual Plane may be longer in the model than in the code.
- Concurrency between simultaneous handlers. There is no shared mutable state in this code to race on.
