/** The worker's request handler: routing on method and decoded path, the
    single-shot size gate and write, the multipart dispatch on JSON field
    presence, get and delete, and the error and CORS wrapping around them.
    `Handle` states the whole reply and the new bucket state as a function;
    `Fetch` performs the same work step by step against a `Bucket`. */
module Worker {
  import opened Wrappers
  import opened JsValue
  import opened Http
  import opened Cors
  import Uri
  import opened Numbers
  import opened Storage

  /** The parts of a request the worker looks at. `body` is the byte stream
      the runtime hands on as `request.body`; `json` is what
      `request.json()` yields: a value or the parse error's message. */
  datatype Request = Request(verb: string, pathname: string, headers: Headers, body: Bytes, json: Result<Json>)

  /** The values the storage service invents during one request. */
  datatype Minted = Minted(etag: string, uploadId: string)

  // ---------------------------------------------------------------------
  // Routing

  /** The branch the `switch` in `fetch` takes for a decoded key. */
  datatype Route =
    | List
    | GetObject(key: string)
    | Multipart
    | InvalidEndpoint
    | PutObject(key: string)
    | DeleteObject(key: string)
    | NotAllowed

  /** `pathname.slice(1)`: the path without its leading character. */
  function PathKey(pathname: string): (r: string)
    ensures pathname != [] ==> [pathname[0]] + r == pathname
    ensures pathname == [] ==> r == []
  {
    if pathname == [] then [] else pathname[1..]
  }

  /** The `switch` on the method, with the two reserved keys: `list` is
      reserved for GET only and `multipart` for POST only. */
  function RouteOf(verb: string, key: string): (r: Route)
    ensures r == List <==> verb == "GET" && key == "list"
    ensures r.GetObject? <==> verb == "GET" && key != "list"
    ensures r == Multipart <==> verb == "POST" && key == "multipart"
    ensures r == InvalidEndpoint <==> verb == "POST" && key != "multipart"
    ensures r.PutObject? <==> verb == "PUT"
    ensures r.DeleteObject? <==> verb == "DELETE"
    ensures r == NotAllowed <==> verb !in {"GET", "POST", "PUT", "DELETE"}
    ensures r.GetObject? || r.PutObject? || r.DeleteObject? ==> r.key == key
  {
    if verb == "GET" then (if key == "list" then List else GetObject(key))
    else if verb == "POST" then (if key == "multipart" then Multipart else InvalidEndpoint)
    else if verb == "PUT" then PutObject(key)
    else if verb == "DELETE" then DeleteObject(key)
    else NotAllowed
  }

  // ---------------------------------------------------------------------
  // Replies

  /** `new Response(text, {status})`. */
  function PlainReply(text: string, status: int): Response {
    NewResponse(Text(text), status, [])
  }

  /** `new Response(JSON.stringify(value), {headers: {'Content-Type': 'application/json'}})`. */
  function JsonReply(value: Json): Response {
    NewResponse(JsonText(value), 200, [("Content-Type", "application/json")])
  }

  /** The catch block's reply: 500 with the message as plain text. */
  function ErrorReply(message: string): (r: Response)
    ensures r.status == 500 && r.body == Text("Error: " + message)
    ensures Get(r.headers, "Content-Type") == Some(TextPlain)
  {
    PlainReply("Error: " + message, 500)
  }

  /** A handler's outcome once a thrown error has become its 500 reply. */
  function Settle(outcome: Result<Response>): (r: Response)
    ensures outcome.Success? ==> r == outcome.value
    ensures outcome.Failure? ==> r.status == 500 && r.body == Text("Error: " + outcome.error)
  {
    match outcome
    case Success(r) => r
    case Failure(e) => ErrorReply(e)
  }

  const NotFoundText := "Object Not Found"
  const TooLargeText := "File too large. Use multipart upload for files over 100MB."
  const BadMultipartText := "Invalid multipart upload request"
  const FarFuture := "public, max-age=31536000"

  /** `handleGet`: the object's bytes with its metadata, or 404. */
  function GetReply(objects: map<string, StoredObject>, key: string): (r: Response)
    ensures key !in objects ==> r.status == 404 && r.body == Text(NotFoundText)
    ensures key in objects ==>
      && r.status == 200
      && r.body == Stream(objects[key].data)
      && Get(r.headers, "Content-Type") == objects[key].contentType
      && Get(r.headers, "etag") == Some(HttpEtag(objects[key].etag))
      && Get(r.headers, "Cache-Control") == Some(FarFuture)
  {
    if key !in objects then PlainReply(NotFoundText, 404)
    else
      var o := objects[key];
      var metadata := if o.contentType.Some? then Set(map[], "Content-Type", o.contentType.value) else map[];
      var tagged := Set(metadata, "etag", HttpEtag(o.etag));
      var headers := Set(tagged, "Cache-Control", FarFuture);
      SetKeepsOthers(metadata, "etag", HttpEtag(o.etag), "Content-Type");
      SetKeepsOthers(tagged, "Cache-Control", FarFuture, "Content-Type");
      SetKeepsOthers(tagged, "Cache-Control", FarFuture, "etag");
      Response(200, "", headers, Stream(o.data))
  }

  /** `handleDelete`'s reply, whether or not the key existed. */
  function DeleteReply(key: string): Response {
    JsonReply(Obj(map["deleted" := Str(key)]))
  }

  // ---------------------------------------------------------------------
  // Single-shot upload

  /** The largest declared size a single PUT accepts. */
  const MaxSinglePut := 100_000_000

  datatype Gate = Proceed | TooLarge

  /** `contentLength && parseInt(contentLength) > 100_000_000`. An absent or
      empty header, or one that does not parse, lets the request through. */
  function SizeGate(contentLength: Option<string>): (g: Gate)
    ensures g == TooLarge <==>
      contentLength.Some? && ParseInt(contentLength.value).Int? && ParseInt(contentLength.value).value > MaxSinglePut
  {
    if contentLength.Some? && contentLength.value != "" then
      match ParseInt(contentLength.value)
      case NaN => Proceed
      case Int(n) => if n > MaxSinglePut then TooLarge else Proceed
    else Proceed
  }

  /** `parseInt(contentLength || '0')` as `JSON.stringify` writes it: NaN
      becomes null. */
  function DeclaredSize(contentLength: Option<string>): (r: Json)
    ensures contentLength.None? || contentLength == Some("") ==> r == Num(0.0)
    ensures r == Null <==> contentLength.Some? && contentLength.value != "" && ParseInt(contentLength.value).NaN?
    ensures r.Num? || r.Null?
  {
    assert ParseInt("0") == Int(0) by {
      ParseDecimal(0);
      assert Decimal(0) == "0";
    }
    var text := if contentLength.Some? && contentLength.value != "" then contentLength.value else "0";
    match ParseInt(text)
    case NaN => Null
    case Int(n) => Num(n as real)
  }

  const DefaultContentType := "application/octet-stream"

  /** `request.headers.get('content-type') || 'application/octet-stream'`. */
  function ContentType(headers: Headers): (t: string)
    ensures t != ""
    ensures Get(headers, "content-type").Some? && Get(headers, "content-type").value != "" ==> t == Get(headers, "content-type").value
    ensures Get(headers, "content-type").None? || Get(headers, "content-type") == Some("") ==> t == DefaultContentType
  {
    match Get(headers, "content-type")
    case Some(v) => if v != "" then v else DefaultContentType
    case None => DefaultContentType
  }

  /** The reply to a PUT that passed the gate. */
  function PutReply(key: string, headers: Headers, etag: string): Response {
    JsonReply(Obj(map[
      "key" := Str(key),
      "etag" := Str(HttpEtag(etag)),
      "size" := DeclaredSize(Get(headers, "content-length"))]))
  }

  /** `handlePut`: refuse a declared size over the limit before writing,
      otherwise write the body once under the path key. */
  function PutStep(st: State, key: string, headers: Headers, body: Bytes, etag: string): (out: (Response, State))
    ensures SizeGate(Get(headers, "content-length")) == TooLarge ==>
      out.0 == PlainReply(TooLargeText, 413) && out.1 == st
    ensures SizeGate(Get(headers, "content-length")) == Proceed ==>
      out.1 == st.(objects := st.objects[key := StoredObject(body, Some(ContentType(headers)), etag)])
  {
    if SizeGate(Get(headers, "content-length")) == TooLarge then (PlainReply(TooLargeText, 413), st)
    else
      var o := StoredObject(body, Some(ContentType(headers)), etag);
      (PutReply(key, headers, etag), st.(objects := st.objects[key := o]))
  }

  // ---------------------------------------------------------------------
  // Multipart upload

  /** The three request shapes of the multipart endpoint, decided once. */
  datatype MultipartRequest =
    | Initiate(key: Json)
    | UploadPart(key: Json, uploadId: Json, partNumber: Json)
    | Complete(key: Json, uploadId: Json, parts: Json)
    | InvalidShape

  /** The precedence of `handleMultipartUpload`: a falsy `uploadId` starts
      an upload; otherwise any defined `partNumber` uploads a part;
      otherwise a truthy `parts` completes; otherwise the shape is invalid. */
  function Classify(key: Json, uploadId: Json, partNumber: Json, parts: Json): (r: MultipartRequest)
    ensures r.Initiate? <==> !Truthy(uploadId)
    ensures r.UploadPart? <==> Truthy(uploadId) && partNumber != Undefined
    ensures r.Complete? <==> Truthy(uploadId) && partNumber == Undefined && Truthy(parts)
    ensures r == InvalidShape <==> Truthy(uploadId) && partNumber == Undefined && !Truthy(parts)
    ensures r.Initiate? ==> r.key == key
    ensures r.UploadPart? ==> r == UploadPart(key, uploadId, partNumber)
    ensures r.Complete? ==> r == Complete(key, uploadId, parts)
  {
    if !Truthy(uploadId) then Initiate(key)
    else if partNumber != Undefined then UploadPart(key, uploadId, partNumber)
    else if Truthy(parts) then Complete(key, uploadId, parts)
    else InvalidShape
  }

  /** The message of the TypeError that destructuring a null body throws. */
  const NullBodyMessage := "Cannot destructure property 'key' of null"

  /** The message the storage binding throws for an argument of the wrong type. */
  const BadArgument := "invalid argument"

  function AsString(v: Json): Option<string> {
    if v.Str? then Some(v.s) else None
  }

  /** A JSON number with no fractional part. */
  function AsPartNumber(v: Json): Option<int> {
    if v.Num? && v.n.Floor as real == v.n then Some(v.n.Floor) else None
  }

  /** An entry of `parts` with an integral `partNumber` and a string `etag`. */
  predicate IsPartRef(item: Json) {
    AsPartNumber(Property(item, "partNumber")).Some? && AsString(Property(item, "etag")).Some?
  }

  /** The `(partNumber, etag)` pair of a well-formed entry. */
  function PartRefOf(item: Json): (int, string)
    requires IsPartRef(item)
  {
    (AsPartNumber(Property(item, "partNumber")).value, AsString(Property(item, "etag")).value)
  }

  /** A `parts` array of `{partNumber, etag}` objects, entry by entry; any
      other value, or any malformed entry, is refused. */
  function AsPartList(v: Json): (r: Option<seq<(int, string)>>)
    ensures r.Some? <==> v.Arr? && forall i :: 0 <= i < |v.items| ==> IsPartRef(v.items[i])
    ensures r.Some? ==> |r.value| == |v.items| && forall i :: 0 <= i < |v.items| ==> r.value[i] == PartRefOf(v.items[i])
  {
    if !v.Arr? then None else PartEntries(v.items)
  }

  function PartEntries(items: seq<Json>): (r: Option<seq<(int, string)>>)
    ensures r.Some? <==> forall i :: 0 <= i < |items| ==> IsPartRef(items[i])
    ensures r.Some? ==> |r.value| == |items| && forall i :: 0 <= i < |items| ==> r.value[i] == PartRefOf(items[i])
  {
    if items == [] then Some([])
    else if !IsPartRef(items[0]) then None
    else
      assert forall i :: 1 <= i < |items| ==> items[1..][i - 1] == items[i];
      match PartEntries(items[1..])
      case None => None
      case Some(rest) => Some([PartRefOf(items[0])] + rest)
  }

  /** `handleMultipartUpload`: the outcome (a reply, or a thrown error's
      message) and the new bucket state. */
  function MultipartStep(st: State, json: Result<Json>, body: Bytes, minted: Minted): (out: (Result<Response>, State))
    ensures out.0.Failure? ==> out.1 == st
    ensures out.0.Success? ==> out.0.value.status != 500
  {
    match json
    case Failure(e) => (Failure(e), st)
    case Success(v) =>
      if v == Null || v == Undefined then (Failure(NullBodyMessage), st)
      else match Classify(Property(v, "key"), Property(v, "uploadId"), Property(v, "partNumber"), Property(v, "parts"))
        case Initiate(key) =>
          if !key.Str? then (Failure(BadArgument), st)
          else
            (Success(JsonReply(Obj(map["uploadId" := Str(minted.uploadId)]))),
             st.(uploads := st.uploads[minted.uploadId := Upload(key.s, map[])]))
        case UploadPart(key, uploadId, partNumber) =>
          if !key.Str? || !uploadId.Str? || AsPartNumber(partNumber).None? then (Failure(BadArgument), st)
          else (match UploadPartStep(st, key.s, uploadId.s, AsPartNumber(partNumber).value, body, minted.etag)
            case Failure(e) => (Failure(e), st)
            case Success(st') =>
              (Success(JsonReply(Obj(map["etag" := Str(minted.etag), "partNumber" := partNumber]))), st'))
        case Complete(key, uploadId, parts) =>
          if !key.Str? || !uploadId.Str? || AsPartList(parts).None? then (Failure(BadArgument), st)
          else (match CompleteStep(st, key.s, uploadId.s, AsPartList(parts).value, minted.etag)
            case Failure(e) => (Failure(e), st)
            case Success((o, st')) =>
              (Success(JsonReply(Obj(map["key" := key, "etag" := Str(HttpEtag(o.etag))]))), st'))
        case InvalidShape => (Success(PlainReply(BadMultipartText, 400)), st)
  }

  // ---------------------------------------------------------------------
  // The whole request

  /** The body of the `try` block once the key is decoded: the handler's
      outcome (a reply, or a thrown error's message) and the new bucket
      state. `listing` is the list handler's reply, which is not modelled. */
  function Dispatch(route: Route, req: Request, st: State, minted: Minted, listing: Json): (out: (Result<Response>, State))
    ensures out.0.Failure? ==> out.1 == st
  {
    match route
    case List => (Success(JsonReply(listing)), st)
    case GetObject(key) => (Success(GetReply(st.objects, key)), st)
    case Multipart => MultipartStep(st, req.json, req.body, minted)
    case InvalidEndpoint => (Success(PlainReply("Invalid endpoint", 400)), st)
    case PutObject(key) =>
      var (r, st') := PutStep(st, key, req.headers, req.body, minted.etag);
      (Success(r), st')
    case DeleteObject(key) => (Success(DeleteReply(key)), st.(objects := st.objects - {key}))
    case NotAllowed => (Success(PlainReply("Method not allowed", 405)), st)
  }

  /** `fetch`: the reply and the bucket state after one request. OPTIONS is
      answered before anything else; otherwise the path is decoded and
      dispatched, a thrown error becomes a 500, and the reply gets the CORS
      headers. */
  function Handle(req: Request, st: State, minted: Minted, listing: Json): (out: (Response, State))
    ensures req.verb == "OPTIONS" ==> out == (HandleOptions(), st)
    ensures out.1 != st ==> req.verb in {"PUT", "POST", "DELETE"}
    ensures out.0.status == 500 ==> out.1 == st
  {
    if req.verb == "OPTIONS" then (HandleOptions(), st)
    else match Uri.Decode(PathKey(req.pathname))
      case Failure(e) => (WithCors(ErrorReply(e)), st)
      case Success(key) =>
        var (outcome, st') := Dispatch(RouteOf(req.verb, key), req, st, minted, listing);
        (WithCors(Settle(outcome)), st')
  }

  // ---------------------------------------------------------------------
  // The handlers against a bucket

  method HandleGet(bucket: Bucket, key: string) returns (r: Response)
    ensures r == GetReply(bucket.objects, key)
  {
    var o := bucket.Get(key);
    if o.None? {
      r := PlainReply(NotFoundText, 404);
      return;
    }
    var headers: Headers := map[];
    if o.value.contentType.Some? {
      headers := Set(headers, "Content-Type", o.value.contentType.value);
    }
    headers := Set(headers, "etag", HttpEtag(o.value.etag));
    headers := Set(headers, "Cache-Control", FarFuture);
    r := Response(200, "", headers, Stream(o.value.data));
  }

  method HandlePut(bucket: Bucket, req: Request, key: string, etag: string) returns (r: Response)
    modifies bucket
    ensures (r, bucket.Snapshot()) == PutStep(old(bucket.Snapshot()), key, req.headers, req.body, etag)
  {
    var contentType := ContentType(req.headers);
    var contentLength := Get(req.headers, "content-length");
    if SizeGate(contentLength) == TooLarge {
      r := PlainReply(TooLargeText, 413);
      return;
    }
    var o := bucket.Put(key, req.body, Some(contentType), etag);
    r := PutReply(key, req.headers, o.etag);
  }

  method HandleMultipartUpload(bucket: Bucket, req: Request, minted: Minted) returns (r: Result<Response>)
    requires minted.uploadId !in bucket.uploads
    modifies bucket
    ensures (r, bucket.Snapshot()) == MultipartStep(old(bucket.Snapshot()), req.json, req.body, minted)
  {
    if req.json.Failure? {
      return Failure(req.json.error);
    }
    var v := req.json.value;
    if v == Null || v == Undefined {
      return Failure(NullBodyMessage);
    }
    var key, uploadId, partNumber, parts :=
      Property(v, "key"), Property(v, "uploadId"), Property(v, "partNumber"), Property(v, "parts");
    if !Truthy(uploadId) {
      if !key.Str? {
        return Failure(BadArgument);
      }
      var id := bucket.CreateMultipartUpload(key.s, minted.uploadId);
      return Success(JsonReply(Obj(map["uploadId" := Str(id)])));
    }
    if partNumber != Undefined {
      if !key.Str? || !uploadId.Str? || AsPartNumber(partNumber).None? {
        return Failure(BadArgument);
      }
      var etag := bucket.UploadPart(key.s, uploadId.s, AsPartNumber(partNumber).value, req.body, minted.etag);
      if etag.Failure? {
        return Failure(etag.error);
      }
      return Success(JsonReply(Obj(map["etag" := Str(etag.value), "partNumber" := partNumber])));
    }
    if Truthy(parts) {
      if !key.Str? || !uploadId.Str? || AsPartList(parts).None? {
        return Failure(BadArgument);
      }
      var o := bucket.Complete(key.s, uploadId.s, AsPartList(parts).value, minted.etag);
      if o.Failure? {
        return Failure(o.error);
      }
      return Success(JsonReply(Obj(map["key" := key, "etag" := Str(HttpEtag(o.value.etag))])));
    }
    r := Success(PlainReply(BadMultipartText, 400));
  }

  method HandleDelete(bucket: Bucket, key: string) returns (r: Response)
    modifies bucket
    ensures r == DeleteReply(key)
    ensures bucket.objects == old(bucket.objects) - {key} && bucket.uploads == old(bucket.uploads)
  {
    bucket.Delete(key);
    r := DeleteReply(key);
  }

  /** The `switch` of `fetch` against a bucket, for a decoded key. */
  method Respond(req: Request, bucket: Bucket, key: string, minted: Minted, listing: Json) returns (outcome: Result<Response>)
    requires minted.uploadId !in bucket.uploads
    modifies bucket
    ensures (outcome, bucket.Snapshot()) == Dispatch(RouteOf(req.verb, key), req, old(bucket.Snapshot()), minted, listing)
  {
    if req.verb == "GET" {
      if key == "list" {
        outcome := Success(JsonReply(listing));
      } else {
        var r := HandleGet(bucket, key);
        outcome := Success(r);
      }
    } else if req.verb == "POST" {
      if key == "multipart" {
        outcome := HandleMultipartUpload(bucket, req, minted);
      } else {
        outcome := Success(PlainReply("Invalid endpoint", 400));
      }
    } else if req.verb == "PUT" {
      var r := HandlePut(bucket, req, key, minted.etag);
      outcome := Success(r);
    } else if req.verb == "DELETE" {
      var r := HandleDelete(bucket, key);
      outcome := Success(r);
    } else {
      outcome := Success(PlainReply("Method not allowed", 405));
    }
  }

  /** `fetch` against a bucket. The service's fresh upload id must not name
      a live session. */
  method Fetch(req: Request, bucket: Bucket, minted: Minted, listing: Json) returns (resp: Response)
    requires minted.uploadId !in bucket.uploads
    modifies bucket
    ensures (resp, bucket.Snapshot()) == Handle(req, old(bucket.Snapshot()), minted, listing)
  {
    if req.verb == "OPTIONS" {
      resp := HandleOptions();
      return;
    }
    var decoded := Uri.Decode(PathKey(req.pathname));
    if decoded.Failure? {
      resp := AddCorsHeaders(ErrorReply(decoded.error));
      return;
    }
    var outcome := Respond(req, bucket, decoded.value, minted, listing);
    resp := AddCorsHeaders(Settle(outcome));
  }
}
