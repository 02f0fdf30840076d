# formodoro `/submit` intake pipeline in Dafny

formodoro is a small FastAPI backend. A web form posts submissions to its
`POST /submit` endpoint. The endpoint:

1. reads the body as JSON or as form data, depending on the Content-Type header;
2. checks the Referer and Origin headers against an allow-list of origin prefixes;
3. turns the body into a flat record;
4. sends a best-effort notification about it;
5. stamps the record with the time and inserts it into a MongoDB collection;
6. answers with the stored record, a redirect, or the store's error.

This project models that pipeline. The source is `formodoro/main.py`.

- `values.dfy` (module `Values`): the submitted values, the record, the responses.
- `content_type.dfy` (module `ContentType`): `get_body`, the Content-Type dispatch and the parse errors.
- `origin.dfy` (module `Origin`): the allow-list built from `CORS_ORIGINS` and the `any(... startswith ...)` check.
- `normalization.dfy` (module `Normalization`): a JSON object or form data becomes the record.
- `submit.dfy` (module `Submit`):
  - `Finish` is the notify, stamp, insert and answer tail of the handler.
  - `Handle` is the whole endpoint, composed in the order the code runs.
  - `Respond` is the same tail written step by step on a `Document` object. That object stands for the Python dictionary `data`, which the handler and the database driver change in place. `Respond` is proved equal to `Finish`.

The collaborators are inputs of type `Collaborators`, so the model is deterministic:
- the JSON parser's outcome: a value, a `JSONDecodeError`, or another exception;
- the form parser's outcome: fields or a failure;
- whether the notification raised;
- whether the insert succeeded;
- the clock reading;
- the identifier the driver would generate.

Each request's observable effects are recorded as a list of `Effect`s: notification calls that returned and documents handed to the store. This lets the model state "nothing happens after a rejection".

Details of the code that the model follows:
- `get_body` catches only `JSONDecodeError` on the JSON path. Any other exception escapes to the framework, which answers a plain 500. The model calls this response `Unhandled`. The form path catches every exception.
- The allow-list is `CORS_ORIGINS.split(",")`. A Python split never returns an empty list, so configuration cannot produce an empty allow-list. Setting `CORS_ORIGINS=""` produces `[""]`, and that list accepts every request carrying a non-empty Referer or Origin.
- An empty header counts as absent, because Python treats `""` as false.
- Starlette's form lookup `body[key]` returns the last value sent for a repeated key.
- `insert_one` adds `"_id"` to the caller's own dictionary when it has none. The handler then pops `"_id"` before echoing. So a client-supplied `"_id"` is stored, but never echoed.
- A non-object JSON body, such as an array or a scalar, passes `get_body`. It is refused with 400 "Unsupported data type" only after the origin check.
- `main.py` writes to a single MongoDB collection. The two-backend switch in `formodoro/db.py` is not imported by `main.py`.
- The 200 echo is rendered by `JSONResponse`, which refuses non-finite numbers (`NaN`, `Infinity`, `-Infinity`, all accepted by Python's JSON decoder). The store encodes such numbers, so the write has already happened, and the rendering error escapes to the framework as a plain 500.
- A record holding an uploaded file never reaches the echo. The store cannot encode it, so `insert_one` raises, and the handler answers 500 with the store's message.

## Model

| member | source | states |
|---|---|---|
| `ContentType.SelectParser` | formodoro/main.py:42-56 | The JSON branch is taken iff the header is exactly "application/json". The form branch is taken iff the header is exactly the url-encoded type or starts with "multipart/form-data". Otherwise no parser runs: the detail is "No Content-Type provided!" for a missing header and "Content-Type not supported!" for any other value. |
| `ContentType.GetBody` | formodoro/main.py:41-56 | A missing header gives 400 "No Content-Type provided!". Any other header that is neither exactly the JSON type nor a form type gives 400 "Content-Type not supported!". A JSON body is returned iff the header is the JSON type and the parse succeeds, and likewise for a form body. 400 "Invalid JSON data" iff the JSON parse raises `JSONDecodeError`. 400 "Invalid Form data" iff the form parse fails. Any other JSON exception is unhandled. Every other error is a 400. |
| `ContentType.OnlyTheSelectedParserRuns` | formodoro/main.py:43-56 | The outcome of a parser the header does not select cannot change the result. With no usable Content-Type, neither parser's outcome matters. |
| `ContentType.CharsetParameterIsNotSupported` | formodoro/main.py:45-56 | "application/json; charset=utf-8" is answered 400 "Content-Type not supported!", whatever the parsers would return. |
| `ContentType.MultipartBoundaryIsForm` | formodoro/main.py:50-52 | "multipart/form-data; boundary=…" selects the form parser (prefix match). |
| `Origin.Split` | formodoro/main.py:28 | Python `split(",")` of the setting: at least one piece, and no piece contains a comma. |
| `Origin.JoinSplit` | formodoro/main.py:28 | Joining the pieces with commas gives the setting back. |
| `Origin.SplitJoin` | formodoro/main.py:28 | Splitting a comma-join of one or more comma-free pieces gives the pieces back. |
| `Origin.AllowList` | formodoro/main.py:28 | The allow-list is never empty, no entry contains a comma, and joining the entries with commas gives `CORS_ORIGINS` back (or the default "https://yourfrontend.com" when the setting is absent). With `SplitJoin`, this makes it exactly the comma-split of the setting. |
| `Origin.DefaultAllowList` | formodoro/main.py:28 | Without the setting, the allow-list is exactly `["https://yourfrontend.com"]`. |
| `Origin.EmptySettingAcceptsAll` | formodoro/main.py:28 | `CORS_ORIGINS=""` gives the allow-list `[""]`, which accepts any request with a non-empty Referer or Origin. |
| `Values.StartsWith` | formodoro/main.py:76 | `startswith` holds iff the string is the prefix followed by the rest of the string. |
| `Origin.Present` | formodoro/main.py:76 | A header takes part iff it is neither missing nor the empty string (Python truthiness). |
| `Origin.Accepts` | formodoro/main.py:75-77 | An empty allow-list accepts nothing. |
| `Origin.AcceptsIffSomeEntry` | formodoro/main.py:75-77 | The `any(...)` holds iff some allow-list entry is a prefix of the non-empty Referer or of the non-empty Origin. |
| `Origin.AcceptsIffSomePrefix` | formodoro/main.py:75-77 | Accepted iff some entry prefixes a non-empty Referer, or some entry prefixes a non-empty Origin. |
| `Origin.NoHeaderIsRejected` | formodoro/main.py:75-79 | With both headers absent or empty, no allow-list accepts the request. |
| `Origin.EmptyEntryAcceptsAll` | formodoro/main.py:75-77 | An empty entry in the allow-list accepts every request that has a non-empty Referer or Origin. |
| `Origin.PrefixIsNotHost` | formodoro/main.py:75-77 | Under entry "https://good.com": "https://good.com.evil.com" and "https://good.com/page" are accepted, and "https://evil.com" is refused. |
| `Normalization.FormToDict` | formodoro/main.py:83-85 | The record built from form data has exactly the form's keys. |
| `Normalization.LastValueWins` | formodoro/main.py:84 | For a repeated key, the record holds the value of the key's last occurrence in the form. |
| `Normalization.FormValues` | formodoro/main.py:84 | Every key of the form maps to the value at its last occurrence, and that occurrence is unique. |
| `Normalization.DistinctKeysKeepValues` | formodoro/main.py:84 | When no key repeats, every field holds exactly the value sent. |
| `Normalization.Normalize` | formodoro/main.py:81-87 | A JSON object is the record unchanged. Form data gives `FormToDict` of the form: exactly the form's keys, each holding the value of its last occurrence. Any other JSON value is 400 "Unsupported data type", and only that is an error. |
| `Values.Renderable` | formodoro/main.py:105 | The check the echo's JSON rendering makes (`allow_nan=False`). Null, booleans and strings always render. An uploaded file never renders. A number renders iff its literal is not `NaN`, `Infinity` or `-Infinity`. An array or object renders iff every item or field value renders, at any depth. |
| `Submit.Stamped` | formodoro/main.py:95 | After `data["timestamp"] = now`, "timestamp" holds the clock reading, overwriting a client value, and every other key and value is unchanged. |
| `Submit.Finish` | formodoro/main.py:89-105 | The notification is recorded iff it returned, and then exactly one insertion follows: the stamped record with its `"_id"`. The answer is a 500 with the store's message iff the write failed, and a redirect iff the write succeeded and `redirect` is non-empty. A 200 echo never holds `"_id"` and is always renderable. |
| `Submit.Handle` | formodoro/main.py:41-105 | The endpoint composed in the order the code runs, with `get_body` as a dependency resolved first (line 62). Effects happen only for admitted requests, and an admitted request, JSON or form, gets exactly the outcome of `Submit.Finish` on its normalised record. An HTTPException is always a 400 or a 403, and a 403 is always "Invalid request source" for a parsed body from a source the allow-list refuses. |
| `Submit.WithId` | formodoro/main.py:96 | The driver's insert leaves `"_id"` present: the document's own `"_id"` if it had one, otherwise the generated one. All other fields are unchanged. |
| `Submit.Document.SetItem` | formodoro/main.py:95 | Assigning a key updates that key and nothing else. |
| `Submit.Document.Pop` | formodoro/main.py:97 | `pop(key, None)` removes the key if it is present. |
| `Submit.InsertOne` | formodoro/main.py:96 | The caller's document gains an `"_id"` in place when it has none, and the written document is that dictionary. |
| `Submit.Respond` | formodoro/main.py:89-105 | The step-by-step handler tail produces the same outcome as `Finish`, including the rendering failure of the echo. After a successful write the dictionary ends up as the written document without `"_id"`; after a failed one it keeps `"_id"`. |
| `Submit.FinishStoresStampedRecord` | formodoro/main.py:94-96 | Exactly one document is handed to the store, whether or not the write then succeeds. Its "timestamp" is the clock reading, overwriting a client value. All other submitted fields are unchanged. It has an `"_id"`: the client's own if one was sent. |
| `Submit.FinishIgnoresNotification` | formodoro/main.py:89-92 | Delivered or raised, the notification changes neither the response nor the documents handed to the store. |
| `Submit.EchoRenderable` | formodoro/main.py:95-97 | The echo can be rendered iff the submitted fields other than "_id" and "timestamp" can: the driver's `"_id"` is popped and the timestamp is a string. |
| `Submit.FinishOnStorageSuccess` | formodoro/main.py:97-105 | After a successful write, a non-empty `redirect` gives a 302 to it. Otherwise, if the submitted fields can be rendered, the answer is a 200 echo with no `"_id"`, "timestamp" set, and the other fields as submitted. If they cannot, the answer is the framework's plain 500. |
| `Submit.FinishOnStorageFailure` | formodoro/main.py:98-102 | A failed write gives 500 with the store's message, and no redirect. |
| `Submit.MissingContentType` | formodoro/main.py:42-44 | With no Content-Type, the answer is 400 "No Content-Type provided!" and there are no effects, whatever the headers. |
| `Submit.ParseErrorsComeFirst` | formodoro/main.py:62 | If `get_body` fails, its error is the answer regardless of origin, nothing is notified or stored, and the request is not admitted. |
| `Submit.InvalidJsonBeforeOrigin` | formodoro/main.py:45-49 | A JSON decode error is answered 400 "Invalid JSON data" even when the source would be refused. |
| `Submit.RejectedSourceStopsEverything` | formodoro/main.py:75-79 | A parsed body from a source that is not allowed gives 403 "Invalid request source" with no notification and no insert. |
| `Submit.UnsupportedDataAfterOrigin` | formodoro/main.py:75-87 | A non-object JSON body gives 400 "Unsupported data type" if the source is accepted, and 403 if it is not. |
| `Submit.EffectsOnlyWhenAdmitted` | formodoro/main.py:62-105 | Effects happen iff the request passes parsing, the origin check and normalisation. An admitted request hands exactly one document to the store: its stamped record with an `"_id"`. |
| `Submit.NotificationDoesNotMatter` | formodoro/main.py:89-92 | The endpoint's answer and the documents handed to the store are the same whether the notification returns or raises. |
| `Submit.JsonObjectIsEchoed` | formodoro/main.py:81-105 | An allowed JSON object, written successfully without a redirect, is handed to the store once, stamped. If its fields can be rendered, it gets a 200 echo: every field except "_id" and "timestamp" as sent, "timestamp" set, and no "_id". If they cannot, it gets the framework's plain 500. |
| `Submit.NonFiniteNumberIsWrittenButNotEchoed` | formodoro/main.py:47-105 | `{"a": NaN}` from an allowed source is written, but the client gets a plain 500 instead of the echo. |
| `Submit.ResponseCodes` | formodoro/main.py:41-105 | Every answer is 200, 302, 400, 403 or 500. A 200 or 302 only happens for admitted requests whose write succeeded. |

## Left out

- Rate limiting (`@limiter.limit`, formodoro/main.py:18-20, 60) is an external limiter with no algorithm in this repository. Its 429 answer is not modelled. Note that FastAPI resolves the `get_body` dependency before it calls the decorated endpoint, so the limiter runs after body parsing.
- CORS middleware setup (formodoro/main.py:30-35) is framework configuration. Only the allow-list it shares with the handler is modelled.
- Printing is I/O and is not modelled: the allowed origins, every environment variable, the rejected source and notification errors.
- JSON and form parsing (`request.json()`, `request.form()`) are not modelled. Only their outcomes are inputs.
- The `notifiers` call and its `json.dumps` message are a foreign library. Only whether the call returned or raised is an input. A failure to serialise an uploaded file counts as "raised".
- MongoDB client configuration, the write itself, `datetime.now().isoformat()` and the generated ObjectId are external. Their results are inputs. `str(e)` of a storage exception is the input message.
- Python dictionaries keep insertion order; Dafny maps do not. The key order of the echoed JSON is not modelled.
- Submit.Finish: the notification and storage outcomes are unconstrained inputs. So the model also allows `Delivered` and `Acknowledged` for a record holding an uploaded file, which the program cannot produce: `json.dumps` in the notification and the store's encoder both raise for it.
- Values.Renderable: a number is recognised as non-finite only by the literals `NaN`, `Infinity` and `-Infinity`. A literal whose value overflows to infinity, such as `1e400`, is treated as renderable, because the model does not do floating-point parsing.
- JSON numbers are kept as their literal text. Uploaded files are known only by their file name.
- formodoro/db.py, the TinyDB/MongoDB startup switch, is not part of this model. `main.py` does not import it.
