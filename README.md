# R2 gateway worker, modelled in Dafny

The system is a Cloudflare Worker that puts an HTTP interface in front of one
R2 object-storage bucket. Every request goes through the same steps:

- An `OPTIONS` request gets the CORS preflight reply before anything else.
- For any other method, the path is percent-decoded into an object key with
  `decodeURIComponent`.
- The key and method pick a handler:
  - `GET list` lists the bucket; any other `GET` reads an object.
  - `PUT` writes an object in one shot, refusing a declared
    `content-length` over 100 000 000 bytes.
  - `DELETE` removes an object.
  - `POST multipart` drives a multipart upload. It initiates, uploads a
    part or completes, depending on which JSON fields are present and
    truthy.
  - Any other POST key is 400; any other method is 405.
- An error thrown anywhere becomes a 500 reply `Error: <message>`.
- Every reply except the preflight leaves through `addCorsHeaders`, which
  writes the four CORS headers over the reply's own.

The model has these modules:

- `Http` (`http.dfy`): Fetch-API headers as a map keyed by lower-cased
  name, and the `Response` constructor's defaulting of the content type
  for string bodies.
- `Cors` (`cors.dfy`): the CORS table, `handleOptions`, and
  `addCorsHeaders` as a loop of `set` calls proved equal to a map merge.
- `Uri` (`uri.dfy`): ECMAScript `decodeURIComponent`, including UTF-8
  decoding and its `URIError`. `encodeURIComponent` is there as its
  partner, with the round trip proved.
- `Numbers` (`numbers.dfy`): ECMAScript `parseInt` (leading white space,
  sign, `0x` prefix, longest digit prefix, NaN).
- `JsValue` (`json.dfy`): JSON values, property access and JavaScript
  truthiness.
- `Storage` (`storage.dfy`): the bucket, as a class whose fields the
  handlers update, with pure step functions for multipart state changes.
- `Worker` (`worker.dfy`): routing, the handlers and the whole request.
  `Handle` is a function giving the reply and the new bucket state.
  `Fetch` is the method doing the same work against a `Bucket`, proved
  equal to `Handle`.
- `WorkerProperties` (`worker_props.dfy`): what the worker promises,
  stated over `Handle`.

Values the storage service invents during a request are parameters
(`Minted`): the etag of a written object or part, and the id of a new
upload. So is the body of the listing reply.

The code departs from the intended behaviour of the gateway (what its API
promises to clients) in several places. The model follows the code:

- The code's single-shot PUT reply holds only `key`, `etag` and `size`.
- The code always takes the key from the path.
- A falsy `uploadId`, the empty string included, starts a new upload, not
  only an absent one.
- An empty `parts` array is truthy, so it completes the upload rather than
  being refused as an empty list.
- The upload-part branch never checks for a missing body.

## Model

| member | source | states |
|---|---|---|
| Http.Set | src/worker.ts:98-99 | `headers.set` makes the name (in any case) read back as the value; the only key added is the lower-cased name |
| Http.Get | src/worker.ts:107-108 | `headers.get` finds a value exactly when the lower-cased name is present, and returns what is stored under it |
| Http.FromEntries | src/cors.ts:8-12 | `new Headers(init)` fills the headers from the entries: every name is present, and when the names are distinct ignoring case each name holds its own entry's value |
| Http.SetKeepsOthers | src/cors.ts:16-18 | a `set` leaves every header of a different name (ignoring case) unchanged |
| Http.GetIgnoresCase | src/worker.ts:107-108 | `headers.get` is case-insensitive |
| Http.FromEntriesKeys | src/cors.ts:8-12 | a `Headers` object built from a record holds exactly the record's names, lower-cased |
| Http.LowerIdempotent | src/worker.ts:107-108 | lower-casing a header name twice is lower-casing it once |
| Http.NewResponse | src/worker.ts:93 | `new Response(body, init)`: the given status, empty status text and body; a string body with no content type gets `text/plain;charset=UTF-8`; otherwise the headers are exactly those of `init` |
| JsValue.Property | src/worker.ts:132-137 | destructuring a field of an object yields that field's value when present and `undefined` when absent; any non-object yields `undefined` |
| JsValue.Truthy | src/worker.ts:139 | a value is truthy exactly when it is not `undefined`, `null`, `false`, `0` or `""`; every array and object, even an empty one, is truthy |
| Cors.CorsHeadersExact | src/cors.ts:1-6 | the CORS header map has exactly the four names, each with its fixed value |
| Cors.CorsNamesDistinct | src/cors.ts:1-6 | no two of the four names coincide ignoring case |
| Cors.ContentTypeNotCors | src/cors.ts:1-6 | `Content-Type` is not one of the four CORS names |
| Cors.HandleOptions | src/cors.ts:8-12 | the preflight reply: status 200, no body, exactly the four CORS headers with their values |
| Cors.AddCorsHeaders | src/cors.ts:14-25 | copying the headers and `set`ting each CORS entry in order yields the reply with the CORS map merged over its headers |
| Cors.WithCors | src/cors.ts:14-25 | the merged reply keeps status, status text and body; its header names are the old ones plus the CORS names |
| Cors.WithCorsSetsEach | src/cors.ts:16-18 | after the merge each CORS name holds its fixed value, whatever it held before |
| Cors.WithCorsKeepsOthers | src/cors.ts:15-18 | headers outside the CORS set keep their values |
| Cors.WithCorsIdempotent | src/cors.ts:14-25 | adding the CORS headers twice is adding them once |
| Uri.DecodeEscape | src/worker.ts:13 | the escape at the start of the input: no `%XY` there throws; a single octet below 0x80 is that character and uses 3 characters; an octet that cannot lead a UTF-8 sequence throws; a success uses three characters per octet of the sequence its lead octet announces; every failure is `URI malformed` |
| Uri.Decode | src/worker.ts:13 | `decodeURIComponent` fails only with `URI malformed`, and the decoded key is never longer than the path |
| Uri.DecodeWithoutEscapes | src/worker.ts:13 | a path without `%` decodes to itself |
| Uri.DecodeRejectsBareEscape | src/worker.ts:13 | any `%` in the path, wherever it stands, that is not followed by two hexadecimal digits makes decoding throw |
| Uri.DecodeRejectsBadUtf8 | src/worker.ts:13 | malformed UTF-8 throws: a continuation octet with no lead (`%80`), a truncated sequence (`%E2%82`), an over-long form (`%C0%80`) and an encoded surrogate (`%ED%A0%80`) |
| Uri.Utf8Decodes | src/worker.ts:13 | the UTF-8 encoding of any character has a lead byte announcing its length and continuation bytes after it |
| Uri.DecodeEscapeOfChar | src/worker.ts:13 | the escaped UTF-8 encoding of a character decodes back to that character |
| Uri.DecodeEncode | src/worker.ts:13 | decoding the percent-encoding of any string gives the string back |
| Numbers.TrimStart | src/worker.ts:110 | `parseInt`'s trim drops exactly the leading white space: every dropped character is white space, what remains is a suffix, and it does not start with white space |
| Numbers.DigitRun | src/worker.ts:110 | the digit prefix `parseInt` reads is all digits and stops at the first non-digit |
| Numbers.ParseInt | src/worker.ts:110 | `parseInt` yields a number only when the first character after white space is a sign or a decimal digit, and a negative number only after a minus sign |
| Numbers.DecimalValue | src/worker.ts:110 | the decimal spelling of `n` denotes `n` |
| Numbers.ParseDecimalPrefix | src/worker.ts:110 | `parseInt` reads a decimal number followed by a non-digit as that number, except the numeral `0` followed by `x` or `X`, which starts a hexadecimal prefix |
| Numbers.ParseDecimal | src/worker.ts:110 | `parseInt` of the decimal spelling of `n` is `n` |
| Numbers.ParseNegativeDecimal | src/worker.ts:110 | `parseInt` of `-` and a decimal spelling is the negated number |
| Numbers.ParseNonNumeric | src/worker.ts:110 | a string that starts, after white space, with no sign and no digit parses to NaN |
| Storage.Assemble | src/worker.ts:163 | the listed parts assemble exactly when every listed part was uploaded with the listed etag |
| Storage.AssembleSingle | src/worker.ts:163 | one listed part assembles to that part's bytes |
| Storage.AssembleAppend | src/worker.ts:163 | assembling two lists in turn gives the first list's bytes followed by the second's, so the object is the listed parts' bytes in the listed order |
| Storage.UploadPartStep | src/worker.ts:149-150 | uploading a part succeeds exactly when the session exists for the key; the new state is the old one with only that session's part number set, so objects and every other session are unchanged; otherwise it throws `NoSuchUpload` |
| Storage.CompleteStep | src/worker.ts:162-163 | completing succeeds exactly when the session exists for the key and every listed part matches; it then stores the assembled bytes under the key with the new etag and no content type, and ends the session; otherwise it fails with `NoSuchUpload` for a missing session and `InvalidPartList` for a part not as listed |
| Storage.Bucket.Get | src/worker.ts:90 | `get` returns the stored object exactly when the key is present |
| Storage.Bucket.Put | src/worker.ts:114-118 | `put` replaces or creates the key's object with the body and content type, and touches nothing else |
| Storage.Bucket.Delete | src/worker.ts:177 | `delete` removes the key, present or not, and touches nothing else |
| Storage.Bucket.CreateMultipartUpload | src/worker.ts:141 | a new, empty session for the key under a fresh id |
| Storage.Bucket.UploadPart | src/worker.ts:149-150 | the part write as `UploadPartStep` states it; an unknown session throws and changes nothing |
| Storage.Bucket.Complete | src/worker.ts:162-163 | completion as `CompleteStep` states it; a failure throws and changes nothing |
| Worker.PathKey | src/worker.ts:12-13 | `pathname.slice(1)` drops exactly the leading character |
| Worker.RouteOf | src/worker.ts:17-47 | the switch: `list` is the listing for GET only, `multipart` the multipart endpoint for POST only, any other POST key is the invalid endpoint, PUT and DELETE take every key, and every other method is not allowed |
| Worker.ErrorReply | src/worker.ts:51 | the catch block's reply is 500 with `Error: ` and the message as plain text |
| Worker.Settle | src/worker.ts:50-52 | a returned reply passes through; a thrown error becomes the 500 `Error: ` reply with its message |
| Worker.GetReply | src/worker.ts:89-104 | a missing key is 404 `Object Not Found`; a present one is 200 with its bytes, its content type, its quoted etag and the one-year cache header |
| Worker.SizeGate | src/worker.ts:110 | a PUT is refused exactly when a `content-length` is present and parses to an integer over 100 000 000 |
| Worker.DeclaredSize | src/worker.ts:123 | the size `parseInt` reads from `content-length`, with `'0'` standing in for a missing or empty header, as serialised: 0 without a header or with an empty one, `null` exactly when the header does not parse, a number otherwise |
| Worker.ContentType | src/worker.ts:107 | the request's non-empty content type; `application/octet-stream` when the header is absent or empty |
| Worker.PutStep | src/worker.ts:106-129 | a refused PUT replies 413 and writes nothing; an accepted one stores the body with its content type under the key |
| Worker.AsPartList | src/worker.ts:136 | `parts` is accepted exactly when it is an array whose every entry has an integral `partNumber` and a string `etag`; entry i of the result is the `(partNumber, etag)` of item i |
| Worker.Classify | src/worker.ts:139-173 | the multipart precedence: initiate exactly when `uploadId` is falsy (`""` included); otherwise upload a part exactly when `partNumber` is anything but `undefined` (`0` and `null` included); otherwise complete exactly when `parts` is truthy (an empty array too); otherwise invalid |
| Worker.MultipartStep | src/worker.ts:131-174 | a thrown error in the multipart handler leaves the bucket unchanged, and a reply it returns is never a 500 |
| Worker.Dispatch | src/worker.ts:17-47 | a handler that throws leaves the bucket unchanged |
| Worker.HandleGet | src/worker.ts:89-104 | reading through the bucket gives `GetReply` of the bucket's objects |
| Worker.HandlePut | src/worker.ts:106-129 | the reply and new bucket are those of `PutStep` |
| Worker.HandleMultipartUpload | src/worker.ts:131-174 | the outcome and new bucket are those of `MultipartStep` |
| Worker.HandleDelete | src/worker.ts:176-183 | replies `{deleted: key}`; the key is removed and nothing else changes |
| Worker.Respond | src/worker.ts:17-47 | the method switch against the bucket has the outcome and new bucket of `Dispatch` on the route |
| Worker.Fetch | src/worker.ts:5-54 | the reply and new bucket are those of `Handle` |
| Worker.Handle | src/worker.ts:5-54 | OPTIONS is the preflight reply and changes nothing; only PUT, POST and DELETE can change the bucket; a 500 reply leaves the bucket unchanged |
| WorkerProperties.EveryReplyHasCors | src/worker.ts:49-52 | every reply (preflight, success or error) carries each CORS header with its value |
| WorkerProperties.OptionsShortCircuits | src/worker.ts:7-9 | OPTIONS on any path, even one that does not decode, is the preflight reply and changes nothing |
| WorkerProperties.BadPathIs500 | src/worker.ts:50-52 | a path that does not decode gives `Error: URI malformed` with status 500 and changes nothing |
| WorkerProperties.ListRoute | src/worker.ts:18-23 | a GET whose key decodes to `list` is the listing and changes nothing; PUT and DELETE treat `list` as an ordinary key |
| WorkerProperties.EscapedListDecodes | src/worker.ts:13 | `/%6Cist` decodes to the key `list`, so the reserved-key test sees the decoded form |
| WorkerProperties.GetMissingIs404 | src/worker.ts:92-94 | a GET of an absent key is 404 `Object Not Found` and changes nothing |
| WorkerProperties.PostElsewhereIs400 | src/worker.ts:29-35 | a POST to any key but `multipart` is 400 `Invalid endpoint` |
| WorkerProperties.OtherMethodIs405 | src/worker.ts:45-46 | any other method on a decodable path is 405 `Method not allowed` |
| WorkerProperties.SizeGateDecimal | src/worker.ts:110 | a decimal `content-length` is refused exactly when it exceeds 100 000 000 |
| WorkerProperties.SizeGateBoundary | src/worker.ts:110 | exactly 100 000 000 passes; 100 000 001 is refused |
| WorkerProperties.SizeGateLetsUnknownThrough | src/worker.ts:110 | an absent or non-numeric `content-length` passes the gate |
| WorkerProperties.DeclaredSizeDecimal | src/worker.ts:123 | a decimal `content-length` is echoed as the number it spells |
| WorkerProperties.PutTooLargeWritesNothing | src/worker.ts:110-112 | an oversized PUT is 413 with its message and writes nothing |
| WorkerProperties.PutWritesOnce | src/worker.ts:114-128 | an accepted PUT writes exactly one object under the key, with its content type or the default, and replies with the key, the quoted etag and the declared size |
| WorkerProperties.PutThenGet | src/worker.ts:89-129 | after a PUT, a GET of the same path returns 200 with the same bytes and content type |
| WorkerProperties.DeleteAlways200 | src/worker.ts:176-183 | DELETE always replies 200 `{deleted: key}` and afterwards the key is absent |
| WorkerProperties.DeleteThenGet | src/worker.ts:176-183 | after a DELETE, a GET of the same path is 404 |
| WorkerProperties.PrecedenceEdgeCases | src/worker.ts:139-173 | the truthiness edge cases: `""` initiates, `0` and `null` part numbers upload, `[]` completes, `null` parts is invalid |
| WorkerProperties.InvalidShapeIs400 | src/worker.ts:173 | a request of no known shape is 400 `Invalid multipart upload request` and changes nothing |
| WorkerProperties.MultipartPathState | src/worker.ts:30-31 | on the multipart endpoint the bucket changes as the multipart handler says |
| WorkerProperties.GetPathReply | src/worker.ts:24-25 | a GET of an object key replies with that object's reply plus CORS |
| WorkerProperties.InitiateState | src/worker.ts:139-145 | any body with a string `key` and a falsy `uploadId` replies `{uploadId}` with the new id and adds an empty session for the key under it |
| WorkerProperties.UploadPartState | src/worker.ts:147-158 | any body with a string `key` and `uploadId` and an integral `partNumber`: with a live session it writes the part and replies `{etag, partNumber}`; without one it throws and changes nothing |
| WorkerProperties.CompleteReply | src/worker.ts:160-171 | any body with a string `key` and `uploadId`, no `partNumber` and a well-formed `parts`: when completion succeeds it stores the object and replies `{key, etag}` with the quoted etag; when it fails it throws that error and changes nothing |
| WorkerProperties.CompleteState | src/worker.ts:160-171 | completing with parts 1 and 2 ends the session and stores their bytes concatenated |
| WorkerProperties.InitiateHandled | src/worker.ts:139-145 | the initiate request, seen through the whole handler |
| WorkerProperties.UploadPartHandled | src/worker.ts:147-158 | the upload-part request, seen through the whole handler, with `data` standing for what the runtime hands on as `request.body` after `request.json()` has read it |
| WorkerProperties.CompleteHandled | src/worker.ts:160-171 | the complete request, seen through the whole handler |
| WorkerProperties.MultipartRoundTrip | src/worker.ts:131-174 | initiate, upload two parts, complete: the session is gone and a GET of the key returns the two parts' bytes in order; `d1` and `d2` stand for what the runtime hands on as `request.body` after `request.json()` has read it, which a client cannot send alongside the JSON |

## Left out

- `handleList` (src/worker.ts:57-87): the listing depends on the service's
  ordering, pagination and timestamps. Its reply body is an input of
  `Handle`; the routing to it is modelled.
- The storage service's internals. The bucket is abstract.
  - Etags and upload ids are chosen by the caller.
  - That a new upload id is fresh is a precondition of `Fetch`.
  - The messages of the errors the service throws are the model's own
    constants.
- `request.json()` consumes the body, and the code then hands the same
  `request.body` to `uploadPart`. The model passes the request's bytes as
  the part data and does not model a consumed stream. The part bytes in
  `UploadPartHandled` and `MultipartRoundTrip` are therefore what the runtime
  hands on after the JSON was read, not a second body the client sends.
- Storage.Bucket.Get, Storage.Bucket.Put, Storage.Bucket.Delete and the
  listing never fail in the model, while the multipart calls can. A
  rejection by the service, which the code would turn into the 500 of
  src/worker.ts:50-52, is not modelled. `PutWritesOnce`, `PutThenGet`,
  `DeleteAlways200` and `DeleteThenGet` hold under that assumption.
- JSON serialisation. A JSON reply carries the `Json` value, not its text.
- `Numbers.ParseInt`: integers only. Floating-point precision of very long
  digit strings is not modelled, and `-0` is 0.
- Http.FromEntries: for a repeated name, the Fetch API appends and joins the
  values as `v1, v2`, while the model keeps the last entry's value. The worker
  builds headers only from distinct names (`Cors.CorsNamesDistinct`, a single
  `Content-Type`, or none), so the two agree on every call it makes.
- `Http.Set`: header-name validation, value trimming and `append`'s
  combining of values are not modelled.
- `writeHttpMetadata` is modelled for the content type only. The other
  HTTP metadata fields are never written by this worker.
- Arguments of the wrong JSON type for the storage calls throw one error,
  `invalid argument`. A `partNumber` that is not an integer is one such
  argument.
- The request method is taken as the runtime normalised it.
- `Worker.NullBodyMessage` stands for the runtime's `TypeError` text when
  the JSON body is `null`; the exact wording is the engine's.
- Concurrency, `async` scheduling and the `ExecutionContext` are not
  modelled. Each request runs alone against the bucket.
- Query parameters (`cursor`, `prefix`, `limit`) are read only by
  `handleList`.
