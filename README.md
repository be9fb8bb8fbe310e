# gotelebot request building and response checking, in Dafny

gotelebot is a Go client for the Telegram bot HTTP API. This project models the
two parts of it that hold decisions rather than plumbing:

- **Optional parameters** (`optionals.go`). Each `*Optional` struct has one
  pointer field per optional API parameter. Its `AppendPayload` method adds one
  `url.Values` entry per non-nil field to the caller's payload, in place, under a
  fixed key:
  - integers go through `strconv.Itoa`;
  - booleans go through `strconv.FormatBool`, except `is_personal`, which is sent
    as `"True"`/`"False"`;
  - strings are sent verbatim;
  - a reply markup is sent as whatever its `ToJson` returns.
- **The HTTP helper** (`apihelper.go`):
  - the payload `getUpdates` builds from its string arguments;
  - the URL, Content-Type and form fields `sendRequest` produces;
  - the envelope check `checkResult` applies to a reply.

Layout:

- `outcomes.dfy`: `Option` (a Go pointer: nil or set) and `Result` (a Go value/error pair).
- `url_values.dfy`: `url.Values` as `map<string, seq<string>>`.
  - `Append` is `url.Values.Add` on values.
  - `AppendAll` is a run of `Add` calls.
  - class `Payload` is the mutable `*url.Values` that the `AppendPayload` methods receive. Its `Add` method modifies the `values` field.
- `format.dfy`: the strconv encodings and their readers. `ParseDecimal` accepts exactly the texts `Itoa` produces, so the two are inverse both ways. `FormatBool` is read back by `ParseBool`, a model of `strconv.ParseBool`.
- `optionals.dfy`: one datatype per `*Optional` struct.
  - `Fields()` is the struct's field table: each key in declaration order, with the encoded value when the field is set.
  - `AppendPayload` is the in-place method. It runs the same guarded `payload.Add` calls as the Go code, and its postcondition ties the new payload to `AppendAll(old payload, Present(Fields()))`.
  - `Present` keeps the set fields, in order.
  - The lemmas state what this means per key.
- `apihelper.dfy`: `CheckResult` over an abstract `Response`, plus the request side:
  - `RequestUrl`, `ContentType` and the first-value loop `WriteFields`;
  - `BuildRequest`, `SendRequest` and `GetUpdates`.

  Four things are parameters instead of I/O: whether the file at `path` opens,
  the multipart boundary, the transport that maps a `Request` to a reply (or to
  a network failure), and the decoded body of a reply.

Points where the model follows the code closely:

- `checkResult` decodes the body into a `map[string]interface{}`. A body that is
  JSON `null` decodes without error into a nil map. Its `"ok"` then reads as nil, so
  the reply is an API error (`NotOk`), not an invalid-JSON error. Any other
  non-object body is `InvalidJson`. `CheckResult` keeps this distinction.
- A missing `"result"` member reads as nil, so a successful reply yields JSON `null`.
- `"ok"` must be exactly the boolean `true`. A string `"true"` or a number is `NotOk`.
- `sendRequest` always writes the form fields through the multipart writer. When
  no file is attached, it still labels the body
  `application/x-www-form-urlencoded`. The model records the header
  (`ContentType`) and the fields (`FirstValues`), so a `Request` with no file
  carries the form-urlencoded header over fields that the code serialises as
  multipart parts.

## Model

| member | source | states |
|---|---|---|
| `UrlValues.AppendGet` | optionals.go:27 | `url.Values.Add` adds the key if needed, puts the value at the end of that key's list, and leaves every other key's list unchanged |
| `UrlValues.Payload.Add` | optionals.go:27 | adding in place through the pointer: the new payload is the old one with the value appended under the key |
| `UrlValues.Payload.constructor` | apihelper.go:109 | `url.Values{}` starts with no keys |
| `UrlValues.AppendAllGet` | optionals.go:25-42 | after a run of `Add` calls, each key's list is its old list followed by exactly the values the run carried for that key, in order |
| `UrlValues.AppendAllKeys` | optionals.go:25-42 | a run of `Add` calls leaves exactly the old keys plus the keys the run mentions; no key is removed |
| `UrlValues.AppendOnly` | optionals.go:25-42 | only appends: every old key survives with its old list as a prefix of its new list, and keys the run does not mention are unchanged |
| `UrlValues.FromEmpty` | apihelper.go:109-118 | starting from an empty payload, a key is present exactly when some added entry carries it, and it holds exactly those values |
| `Format.Digits` | optionals.go:36 | decimal digits of a natural number: non-empty, all digits, no leading zero except for 0 itself |
| `Format.Itoa` | optionals.go:36 | `strconv.Itoa`: non-empty, and starts with `-` exactly when the number is negative |
| `Format.ItoaRoundTrip` | optionals.go:77 | the text `Itoa` produces parses back as the same integer |
| `Format.ItoaInjective` | optionals.go:193-196 | two different integers never give the same text |
| `Format.ParseDecimalInverse` | optionals.go:36 | every text the decimal reader accepts is the `Itoa` text of its value: no leading zeros, no `-0` |
| `Format.FormatBool` | optionals.go:30 | `strconv.FormatBool`: lower-case `"true"` or `"false"`, which `strconv.ParseBool` reads back as the same boolean |
| `Optionals.Flag` | optionals.go:29-34 | a `*bool` field is stored under its key exactly when set, as text `strconv.ParseBool` reads back as the value |
| `Optionals.Capitalised` | optionals.go:210-216 | is_personal is stored exactly when set, as text that `strconv.ParseBool` reads back as the value but that differs from `strconv.FormatBool`'s |
| `Optionals.Markup` | optionals.go:38-41 | reply_markup is stored exactly when set, as the JSON text `ToJson` returns, whatever error it returned with it |
| `Optionals.SetPositions` | optionals.go:26-41 | the added entries are the set fields in declaration order: their positions increase, every set field appears, and each entry has that field's key and encoded value |
| `Optionals.PresentCount` | optionals.go:25-42 | exactly one entry per non-nil field |
| `Optionals.PresentValues` | optionals.go:25-42 | with distinct keys, the entries under a field's key are that field's encoding if it is set, and nothing if it is nil |
| `Optionals.AppendFields` | optionals.go:25-42 | `AppendPayload`'s effect per key: a field's key gains its encoding if the field is set and nothing if it is nil; keys outside the table keep their lists |
| `Optionals.AllNilUnchanged` | optionals.go:100-124 | a struct whose fields are all nil leaves the payload equal to what it was |
| `Optionals.AddEachIsAppendAll` | optionals.go:25-42 | the guarded `Add` calls, one field after another, add exactly the entries of the set fields in field order |
| `Optionals.NumberReadsBack` | optionals.go:193-196 | an integer field is stored exactly when set, as text that parses back to the field's value |
| `Optionals.SendMessageOptional.AppendPayload` | optionals.go:25-42 | adds parse_mode, disable_web_page_preview, disable_notification, reply_to_message_id and reply_markup for the set fields, in that order, after the existing values |
| `Optionals.SendMessageOptional.NilLeavesPayload` | optionals.go:25-42 | with all five fields nil, the payload is unchanged |
| `Optionals.SendMessageEntries` | optionals.go:25-42 | sendMessage: parse_mode verbatim; both flags as lower-case "true"/"false"; reply id in decimal; markup as the ToJson text, whatever error came with it; one value per set field, none per nil field |
| `Optionals.SendMessageKeyOrder` | optionals.go:26-41 | with every field set, the keys come in the order parse_mode, disable_web_page_preview, disable_notification, reply_to_message_id, reply_markup |
| `Optionals.SendPhotoOptional.AppendPayload` | optionals.go:52-63 | adds caption (verbatim), reply_to_message_id (decimal) and reply_markup (ToJson text) for the set fields, in that order |
| `Optionals.SendPhotoOptional.NilLeavesPayload` | optionals.go:52-63 | with all fields nil, the payload is unchanged |
| `Optionals.SendAudioOptional.AppendPayload` | optionals.go:75-92 | adds duration (decimal), performer and title (verbatim), reply_to_message_id, reply_markup for the set fields, in that order |
| `Optionals.SendAudioOptional.NilLeavesPayload` | optionals.go:75-92 | with all fields nil, the payload is unchanged |
| `Optionals.SendDocumentOptional.AppendPayload` | optionals.go:100-108 | adds reply_to_message_id and reply_markup for the set fields, in that order |
| `Optionals.SendDocumentOptional.NilLeavesPayload` | optionals.go:100-108 | with both fields nil, the payload is unchanged |
| `Optionals.SendStickerOptional.AppendPayload` | optionals.go:116-124 | adds reply_to_message_id and reply_markup for the set fields, in that order |
| `Optionals.SendStickerOptional.NilLeavesPayload` | optionals.go:116-124 | with both fields nil, the payload is unchanged |
| `Optionals.SendVideoOptional.AppendPayload` | optionals.go:134-148 | adds duration, caption, reply_to_message_id and reply_markup for the set fields, in that order |
| `Optionals.SendVideoOptional.NilLeavesPayload` | optionals.go:134-148 | with all fields nil, the payload is unchanged |
| `Optionals.SendVoiceOptional.AppendPayload` | optionals.go:157-168 | adds duration, reply_to_message_id and reply_markup for the set fields, in that order |
| `Optionals.SendVoiceOptional.NilLeavesPayload` | optionals.go:157-168 | with all fields nil, the payload is unchanged |
| `Optionals.SendLocationOptional.AppendPayload` | optionals.go:176-184 | adds reply_to_message_id and reply_markup for the set fields, in that order |
| `Optionals.SendLocationOptional.NilLeavesPayload` | optionals.go:176-184 | with both fields nil, the payload is unchanged |
| `Optionals.GetUserProfilePhotosOptional.AppendPayload` | optionals.go:191-198 | adds offset and limit (decimal) for the set fields, in that order |
| `Optionals.GetUserProfilePhotosOptional.NilLeavesPayload` | optionals.go:191-198 | with both fields nil, the payload is unchanged |
| `Optionals.GetUserProfilePhotosEntries` | optionals.go:191-198 | offset and limit each gain the decimal text of their value when set, and nothing when nil |
| `Optionals.AnswerInlineQueryOptional.AppendPayload` | optionals.go:206-220 | adds cache_time (decimal), is_personal ("True"/"False") and next_offset (verbatim) for the set fields, in that order |
| `Optionals.AnswerInlineQueryOptional.NilLeavesPayload` | optionals.go:206-220 | with all fields nil, the payload is unchanged |
| `Optionals.AnswerInlineQueryEntries` | optionals.go:210-218 | is_personal is sent as capitalised "True" or "False", not FormatBool's lower case; cache_time in decimal; next_offset verbatim |
| `ApiHelper.DecodeEnvelope` | apihelper.go:73-78 | `json.Unmarshal` into a map: a JSON object gives its members, JSON `null` gives a nil map with no error, any other value is an error |
| `ApiHelper.CheckResult` | apihelper.go:64-89 | a status other than 200 is an error whatever the body holds. With 200: an unreadable body is an error; a body that is not a JSON object (or null) is invalid JSON; an `ok` other than exactly `true` is an error. Success happens exactly for a 200 reply whose envelope has `ok: true`, and returns the `result` member alone |
| `ApiHelper.CheckResultUnwraps` | apihelper.go:83-88 | a 200 envelope with `ok: true` yields its `result` member as decoded, not the envelope (for numbers, see `ApiHelper.CheckResultUnwraps` under Left out) |
| `ApiHelper.CheckResultNotOk` | apihelper.go:79-82 | a 200 envelope whose `ok` is missing or is anything but the boolean true is an error |
| `ApiHelper.RequestUrl` | apihelper.go:44 | the URL is the endpoint, then the token, a `/`, then the method name, with nothing else |
| `ApiHelper.RequestUrlRoundTrip` | apihelper.go:44 | the URL is the endpoint, then the token, `/`, the method; a token without `/` and the method read back from it unchanged |
| `ApiHelper.ContentType` | apihelper.go:49-53 | Content-Type is form-urlencoded exactly when no file path is given; otherwise it is the multipart writer's form-data type |
| `ApiHelper.WriteFields` | apihelper.go:36-40 | visiting the keys in arbitrary order, it writes exactly the keys that have a value, each with its first value |
| `ApiHelper.BuildRequest` | apihelper.go:18-53 | a file path that cannot be opened fails before any request exists; otherwise the request has the URL, the Content-Type, the first-value fields and the file part |
| `ApiHelper.SendRequest` | apihelper.go:18-62 | an unopenable file fails first; otherwise the transport's reply to that request, or a transport failure, passed through `checkResult` |
| `ApiHelper.SentWhenNonEmpty` | apihelper.go:110-118 | one getUpdates argument: its key is present exactly when the argument is non-empty, holding the argument alone |
| `ApiHelper.UpdatesParams` | apihelper.go:108-118 | offset, limit and timeout are in the getUpdates payload exactly when the argument is non-empty, each holding the argument unchanged, and the payload holds no other key |
| `ApiHelper.UpdatesKeys` | apihelper.go:109-118 | starting from an empty payload, the three guarded adds introduce no key but offset, limit and timeout |
| `ApiHelper.GetUpdates` | apihelper.go:108-122 | posts that payload as `getUpdates` with no file, and returns what `checkResult` makes of the reply |

## Left out

- The HTTP client, `http.NewRequest` and `client.Do` (apihelper.go:45-60) are network I/O. `SendRequest` takes a transport function from `Request` to an optional reply. The failure of `http.NewRequest` on a malformed URL is not modelled.
- Opening the file and copying its bytes into the multipart body (apihelper.go:21-34) are file I/O. Only whether `os.Open` succeeds is a parameter. The errors of `CreateFormFile`, `io.Copy` and `writer.Close` are not modelled.
- The file name sent with the file part is `filepath.Base(path)`. `FilePart` keeps the whole path; `filepath.Base` is not part of this model.
- Multipart boundary generation: the boundary is a parameter. `FormDataContentType` does not model the quoting that Go applies to boundaries with special characters.
- JSON decoding and encoding are library code, left abstract:
  - a reply body is given already read and decoded (`Body`);
  - `CheckResult` returns the `Json` value of `result`, not the bytes `json.Marshal` makes of it.
- ApiHelper.CheckResultUnwraps: a JSON number keeps its literal text, so the result is the reply's `result` member digit for digit. The program decodes every number into a float64 and marshals that float64 back (apihelper.go:74, 83). It therefore rounds integers above 2^53 (9007199254740993 comes back as 9007199254740992) and normalises the text (1.50 comes back as 1.5). float64 arithmetic is not modelled.
- Nil values are not modelled: a `Payload` always holds a map, and the structs are values, not pointers. In Go, `payload.Add` on a nil `url.Values` panics, and so does `AppendPayload` called on a nil `*…Optional` receiver (optionals.go:26).
- The `json.Marshal` failure branch (apihelper.go:83-87) is not modelled: a value that `json.Unmarshal` produced always re-encodes.
- `types.ReplyMarkup` is not part of this model. A markup value is represented by the text and error its `ToJson` returns.
- The text of error messages (apihelper.go:67, 76, 80) is not modelled. Errors are the variants of `Error`; `HttpStatus` keeps only the status code.
- `getMe` (apihelper.go:95-106) and the decoding of the `getUpdates` result into `[]*types.Update` (apihelper.go:123-128) are not modelled. They only deserialise into types that are not part of this model. `GetUpdates` returns the checked `result` value.
- `makeRequest` (apihelper.go:91-93) only forwards to `sendRequest`, so `SendRequest` stands for both.
- The `Optional` interface (optionals.go:10-12) has no counterpart. Each struct's datatype has its own `AppendPayload`.
- The order in which `sendRequest` visits the parameter map is unspecified in Go. `WriteFields` picks keys in arbitrary order and records the fields as a map.
- Go's `int` is 64 bits wide; the model's integers are unbounded. `strconv.Itoa` is defined for every `int`, so no wrap-around is involved.
