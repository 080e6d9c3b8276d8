/** What the handler promises, stated over `Handle`: the routing outcomes,
    the size gate, the write a PUT performs, get and delete, the multipart
    precedence, and the CORS headers on every reply. */
module WorkerProperties {
  import opened Wrappers
  import opened JsValue
  import opened Http
  import opened Cors
  import Uri
  import opened Numbers
  import opened Storage
  import opened Worker

  // ---------------------------------------------------------------------
  // Every reply

  /** Every reply, preflight, success or error, carries each CORS header
      with its fixed value. */
  lemma EveryReplyHasCors(req: Request, st: State, minted: Minted, listing: Json, i: nat)
    requires i < |CorsEntries|
    ensures Get(Handle(req, st, minted, listing).0.headers, CorsEntries[i].0) == Some(CorsEntries[i].1)
  {
    if req.verb != "OPTIONS" {
      match Uri.Decode(PathKey(req.pathname))
      case Failure(e) => WithCorsSetsEach(ErrorReply(e), i);
      case Success(key) =>
        WithCorsSetsEach(Settle(Dispatch(RouteOf(req.verb, key), req, st, minted, listing).0), i);
    }
  }

  /** OPTIONS on any path, even one that does not decode, is the preflight
      reply and touches nothing. */
  lemma OptionsShortCircuits(req: Request, st: State, minted: Minted, listing: Json)
    requires req.verb == "OPTIONS"
    ensures Handle(req, st, minted, listing) == (HandleOptions(), st)
  {
  }

  /** A path that does not decode gives the catch block's 500 for every
      method but OPTIONS, and changes nothing. */
  lemma BadPathIs500(req: Request, st: State, minted: Minted, listing: Json)
    requires req.verb != "OPTIONS" && Uri.Decode(PathKey(req.pathname)).Failure?
    ensures Handle(req, st, minted, listing).0.status == 500
    ensures Handle(req, st, minted, listing).0.body == Text("Error: " + Uri.Malformed)
    ensures Handle(req, st, minted, listing).1 == st
  {
  }

  // ---------------------------------------------------------------------
  // Routing

  /** A GET whose path decodes to `list` is the listing and changes
      nothing; PUT and DELETE treat `list` as an ordinary key. */
  lemma ListRoute(req: Request, st: State, minted: Minted, listing: Json)
    requires Uri.Decode(PathKey(req.pathname)) == Success("list")
    ensures req.verb == "GET" ==> Handle(req, st, minted, listing) == (WithCors(JsonReply(listing)), st)
    ensures RouteOf("PUT", "list") == PutObject("list")
    ensures RouteOf("DELETE", "list") == DeleteObject("list")
  {
  }

  /** The test is on the decoded key, so an escaped spelling of `list`
      selects the listing too. */
  lemma EscapedListDecodes()
    ensures Uri.Decode(PathKey("/%6Cist")) == Success("list")
  {
    var s := "%6Cist";
    assert PathKey("/%6Cist") == s;
    assert Uri.HexValue('6') == Some(6) && Uri.HexValue('C') == Some(12);
    assert Uri.EscapedOctet(s) == Some(0x6C);
    assert Uri.SequenceLength(0x6C) == 1;
    assert Uri.DecodeEscape(s) == Success(('l', 3));
    assert s[3..] == "ist";
    Uri.DecodeWithoutEscapes("ist");
    assert Uri.Decode(s) == Success(['l'] + "ist");
    assert ['l'] + "ist" == "list";
  }

  /** Any other GET key reads that object; a missing one gives 404. */
  lemma GetMissingIs404(req: Request, st: State, minted: Minted, listing: Json, key: string)
    requires req.verb == "GET" && Uri.Decode(PathKey(req.pathname)) == Success(key)
    requires key != "list" && key !in st.objects
    ensures Handle(req, st, minted, listing).0.status == 404
    ensures Handle(req, st, minted, listing).0.body == Text(NotFoundText)
    ensures Handle(req, st, minted, listing).1 == st
  {
  }

  /** POST to any key but `multipart` is 400 `Invalid endpoint`. */
  lemma PostElsewhereIs400(req: Request, st: State, minted: Minted, listing: Json, key: string)
    requires req.verb == "POST" && Uri.Decode(PathKey(req.pathname)) == Success(key) && key != "multipart"
    ensures Handle(req, st, minted, listing).0.status == 400
    ensures Handle(req, st, minted, listing).0.body == Text("Invalid endpoint")
    ensures Handle(req, st, minted, listing).1 == st
  {
  }

  /** A method outside GET, POST, PUT, DELETE and OPTIONS is 405, provided
      the path decodes (decoding comes first). */
  lemma OtherMethodIs405(req: Request, st: State, minted: Minted, listing: Json)
    requires req.verb !in {"GET", "POST", "PUT", "DELETE", "OPTIONS"}
    requires Uri.Decode(PathKey(req.pathname)).Success?
    ensures Handle(req, st, minted, listing).0.status == 405
    ensures Handle(req, st, minted, listing).0.body == Text("Method not allowed")
    ensures Handle(req, st, minted, listing).1 == st
  {
  }

  // ---------------------------------------------------------------------
  // Size gate and single-shot PUT

  /** A decimal `content-length` is refused exactly when it exceeds the limit. */
  lemma SizeGateDecimal(n: nat)
    ensures SizeGate(Some(Decimal(n))) == TooLarge <==> n > MaxSinglePut
  {
    ParseDecimal(n);
  }

  /** Exactly the limit passes; one byte more is refused. */
  lemma SizeGateBoundary()
    ensures SizeGate(Some(Decimal(MaxSinglePut))) == Proceed
    ensures SizeGate(Some(Decimal(MaxSinglePut + 1))) == TooLarge
  {
    SizeGateDecimal(MaxSinglePut);
    SizeGateDecimal(MaxSinglePut + 1);
  }

  /** An absent header, or one that is not a number, passes the gate. */
  lemma SizeGateLetsUnknownThrough(s: string)
    requires ParseInt(s) == NaN
    ensures SizeGate(None) == Proceed
    ensures SizeGate(Some(s)) == Proceed
  {
  }

  /** A decimal header is echoed as the number it spells. */
  lemma DeclaredSizeDecimal(n: nat)
    ensures DeclaredSize(Some(Decimal(n))) == Num(n as real)
  {
    var text := Decimal(n);
    assert text != "";
    ParseDecimal(n);
    assert ParseInt(text) == Int(n);
  }

  /** A PUT whose declared size is over the limit is 413 and writes nothing. */
  lemma PutTooLargeWritesNothing(req: Request, st: State, minted: Minted, listing: Json, key: string)
    requires req.verb == "PUT" && Uri.Decode(PathKey(req.pathname)) == Success(key)
    requires SizeGate(Get(req.headers, "content-length")) == TooLarge
    ensures Handle(req, st, minted, listing).0.status == 413
    ensures Handle(req, st, minted, listing).0.body == Text(TooLargeText)
    ensures Handle(req, st, minted, listing).1 == st
  {
    assert RouteOf(req.verb, key) == PutObject(key);
    var plain := PlainReply(TooLargeText, 413);
    assert Dispatch(PutObject(key), req, st, minted, listing) == (Success(plain), st);
    assert Handle(req, st, minted, listing) == (WithCors(plain), st);
  }

  /** A PUT that passes the gate writes exactly one object, under the path
      key, with the request's content type (or the default), and echoes
      the key, the object's etag and the declared size. */
  lemma PutWritesOnce(req: Request, st: State, minted: Minted, listing: Json, key: string)
    requires req.verb == "PUT" && Uri.Decode(PathKey(req.pathname)) == Success(key)
    requires SizeGate(Get(req.headers, "content-length")) == Proceed
    ensures var (r, st') := Handle(req, st, minted, listing);
      && st'.objects == st.objects[key := StoredObject(req.body, Some(ContentType(req.headers)), minted.etag)]
      && st'.uploads == st.uploads
      && r.status == 200
      && r.body == JsonText(Obj(map[
           "key" := Str(key),
           "etag" := Str(HttpEtag(minted.etag)),
           "size" := DeclaredSize(Get(req.headers, "content-length"))]))
    ensures Get(req.headers, "content-type").None? ==> ContentType(req.headers) == DefaultContentType
  {
    assert RouteOf(req.verb, key) == PutObject(key);
    var plain := PutReply(key, req.headers, minted.etag);
  }

  /** What a PUT stores, a GET of the same path returns, with its type. */
  lemma PutThenGet(put: Request, get: Request, st: State, minted: Minted, minted': Minted, listing: Json, key: string)
    requires put.verb == "PUT" && get.verb == "GET" && get.pathname == put.pathname
    requires Uri.Decode(PathKey(put.pathname)) == Success(key) && key != "list"
    requires SizeGate(Get(put.headers, "content-length")) == Proceed
    ensures var st' := Handle(put, st, minted, listing).1;
      var r := Handle(get, st', minted', listing).0;
      && r.status == 200
      && r.body == Stream(put.body)
      && Get(r.headers, "Content-Type") == Some(ContentType(put.headers))
  {
    var st' := Handle(put, st, minted, listing).1;
    PutWritesOnce(put, st, minted, listing, key);
    assert st'.objects[key] == StoredObject(put.body, Some(ContentType(put.headers)), minted.etag);
    var plain := GetReply(st'.objects, key);
    GetPathReply(get, st', minted', listing, key);
    ContentTypeNotCors();
    WithCorsKeepsOthers(plain, "Content-Type");
  }

  // ---------------------------------------------------------------------
  // Get and delete

  /** DELETE always answers 200 `{deleted: key}` and the key is gone after. */
  lemma DeleteAlways200(req: Request, st: State, minted: Minted, listing: Json, key: string)
    requires req.verb == "DELETE" && Uri.Decode(PathKey(req.pathname)) == Success(key)
    ensures var (r, st') := Handle(req, st, minted, listing);
      && r.status == 200
      && r.body == JsonText(Obj(map["deleted" := Str(key)]))
      && key !in st'.objects
      && st'.objects == st.objects - {key}
      && st'.uploads == st.uploads
  {
  }

  /** After a DELETE, a GET of the same path is 404. */
  lemma DeleteThenGet(del: Request, get: Request, st: State, minted: Minted, listing: Json, key: string)
    requires del.verb == "DELETE" && get.verb == "GET" && get.pathname == del.pathname
    requires Uri.Decode(PathKey(del.pathname)) == Success(key) && key != "list"
    ensures Handle(get, Handle(del, st, minted, listing).1, minted, listing).0.status == 404
  {
  }

  // ---------------------------------------------------------------------
  // Multipart precedence

  /** The edge cases of JavaScript truthiness the precedence turns on. */
  lemma PrecedenceEdgeCases(key: Json)
    ensures Classify(key, Str(""), Num(1.0), Arr([])) == Initiate(key)
    ensures Classify(key, Str("u"), Num(0.0), Arr([])) == UploadPart(key, Str("u"), Num(0.0))
    ensures Classify(key, Str("u"), Null, Undefined) == UploadPart(key, Str("u"), Null)
    ensures Classify(key, Str("u"), Undefined, Arr([])) == Complete(key, Str("u"), Arr([]))
    ensures Classify(key, Str("u"), Undefined, Null) == InvalidShape
  {
  }

  /** A multipart request of no known shape is 400 and changes nothing. */
  lemma InvalidShapeIs400(st: State, v: Json, body: Bytes, minted: Minted)
    requires v != Null && v != Undefined
    requires Classify(Property(v, "key"), Property(v, "uploadId"), Property(v, "partNumber"), Property(v, "parts")) == InvalidShape
    ensures var (outcome, st') := MultipartStep(st, Success(v), body, minted);
      outcome == Success(PlainReply(BadMultipartText, 400)) && st' == st
  {
  }

  // ---------------------------------------------------------------------
  // The multipart flow end to end

  /** The JSON body of a request to the multipart endpoint. */
  function MultipartPost(path: string, fields: map<string, Json>, body: Bytes): Request {
    Request("POST", path, map[], body, Success(Obj(fields)))
  }

  function PartRef(n: real, etag: string): Json {
    Obj(map["partNumber" := Num(n), "etag" := Str(etag)])
  }

  /** On the multipart path, the bucket changes as the multipart step says. */
  lemma MultipartPathState(req: Request, st: State, minted: Minted, listing: Json)
    requires req.verb == "POST" && Uri.Decode(PathKey(req.pathname)) == Success("multipart")
    ensures Handle(req, st, minted, listing).1 == MultipartStep(st, req.json, req.body, minted).1
  {
  }

  /** A GET of an object key replies with that object, CORS added. */
  lemma GetPathReply(req: Request, st: State, minted: Minted, listing: Json, key: string)
    requires req.verb == "GET" && Uri.Decode(PathKey(req.pathname)) == Success(key) && key != "list"
    ensures Handle(req, st, minted, listing).0 == WithCors(GetReply(st.objects, key))
  {
    assert RouteOf(req.verb, key) == GetObject(key);
  }

  /** Any body with a falsy `uploadId` and a string `key` starts a session
      under the service's new id and replies `{uploadId}`. */
  lemma InitiateState(st: State, v: Json, body: Bytes, minted: Minted, k: string)
    requires Property(v, "key") == Str(k) && !Truthy(Property(v, "uploadId"))
    ensures MultipartStep(st, Success(v), body, minted)
         == (Success(JsonReply(Obj(map["uploadId" := Str(minted.uploadId)]))),
             st.(uploads := st.uploads[minted.uploadId := Upload(k, map[])]))
  {
  }

  /** Any body with a string `uploadId` and an integral `partNumber` writes
      that part of a live session and echoes the part's etag and number;
      without the session it throws and changes nothing. */
  lemma UploadPartState(st: State, v: Json, data: Bytes, minted: Minted, k: string, id: string, n: int)
    requires Property(v, "key") == Str(k) && Property(v, "uploadId") == Str(id) && id != ""
    requires Property(v, "partNumber") == Num(n as real)
    ensures HasUpload(st, k, id) ==>
      MultipartStep(st, Success(v), data, minted)
        == (Success(JsonReply(Obj(map["etag" := Str(minted.etag), "partNumber" := Num(n as real)]))),
            UploadPartStep(st, k, id, n, data, minted.etag).value)
    ensures !HasUpload(st, k, id) ==> MultipartStep(st, Success(v), data, minted) == (Failure(NoSuchUpload), st)
  {
    assert AsPartNumber(Num(n as real)) == Some(n);
  }

  /** Any body with a string `uploadId`, no `partNumber` and a well-formed
      `parts` list completes the session: the assembled object is stored
      and the reply is `{key, etag}`; a failure changes nothing. */
  lemma CompleteReply(st: State, v: Json, body: Bytes, minted: Minted, k: string, id: string, listed: seq<(int, string)>)
    requires Property(v, "key") == Str(k) && Property(v, "uploadId") == Str(id) && id != ""
    requires Property(v, "partNumber") == Undefined
    requires AsPartList(Property(v, "parts")) == Some(listed)
    ensures var step := CompleteStep(st, k, id, listed, minted.etag);
      && (step.Success? ==>
           MultipartStep(st, Success(v), body, minted)
             == (Success(JsonReply(Obj(map["key" := Str(k), "etag" := Str(HttpEtag(minted.etag))]))), step.value.1))
      && (step.Failure? ==> MultipartStep(st, Success(v), body, minted) == (Failure(step.error), st))
  {
    assert Truthy(Property(v, "parts"));
  }

  /** Completing with parts 1 and 2 ends the session and stores their
      bytes concatenated. */
  lemma CompleteState(st: State, k: string, id: string, e1: string, e2: string, minted: Minted)
    requires HasUpload(st, k, id) && id != ""
    requires 1 in st.uploads[id].parts && st.uploads[id].parts[1].etag == e1
    requires 2 in st.uploads[id].parts && st.uploads[id].parts[2].etag == e2
    ensures var st' := MultipartStep(st, Success(Obj(map["key" := Str(k), "uploadId" := Str(id), "parts" := Arr([PartRef(1.0, e1), PartRef(2.0, e2)])])), [], minted).1;
      && id !in st'.uploads
      && k in st'.objects
      && st'.objects[k].data == st.uploads[id].parts[1].data + st.uploads[id].parts[2].data
  {
    var parts := Arr([PartRef(1.0, e1), PartRef(2.0, e2)]);
    var v := Obj(map["key" := Str(k), "uploadId" := Str(id), "parts" := parts]);
    assert Property(v, "uploadId") == Str(id);
    assert Property(v, "partNumber") == Undefined;
    assert Property(v, "parts") == parts;
    var listed := [(1, e1), (2, e2)];
    assert AsPartNumber(Num(1.0)) == Some(1);
    assert AsPartNumber(Num(2.0)) == Some(2);
    assert Property(PartRef(1.0, e1), "partNumber") == Num(1.0) && Property(PartRef(1.0, e1), "etag") == Str(e1);
    assert Property(PartRef(2.0, e2), "partNumber") == Num(2.0) && Property(PartRef(2.0, e2), "etag") == Str(e2);
    assert parts.items[0] == PartRef(1.0, e1) && parts.items[1] == PartRef(2.0, e2);
    assert IsPartRef(parts.items[0]) && PartRefOf(parts.items[0]) == (1, e1);
    assert IsPartRef(parts.items[1]) && PartRefOf(parts.items[1]) == (2, e2);
    assert AsPartList(parts).Some?;
    var got := AsPartList(parts).value;
    assert |got| == 2 && got[0] == listed[0] && got[1] == listed[1];
    assert got == listed;
    var u := st.uploads[id];
    assert Assemble(u, listed[1..][1..]) == Some([]);
    assert Assemble(u, listed[1..]) == Some(u.parts[2].data + []);
    assert Assemble(u, listed) == Some(u.parts[1].data + (u.parts[2].data + []));
    CompleteReply(st, v, [], minted, k, id, listed);
  }

  /** The four requests of the flow, one lemma each, at the level of `Handle`. */
  lemma InitiateHandled(st: State, path: string, k: string, minted: Minted, listing: Json)
    requires Uri.Decode(PathKey(path)) == Success("multipart")
    ensures Handle(MultipartPost(path, map["key" := Str(k)], []), st, minted, listing).1
         == st.(uploads := st.uploads[minted.uploadId := Upload(k, map[])])
  {
    var req := MultipartPost(path, map["key" := Str(k)], []);
    MultipartPathState(req, st, minted, listing);
    var v := Obj(map["key" := Str(k)]);
    assert Property(v, "uploadId") == Undefined;
    InitiateState(st, v, [], minted, k);
  }

  lemma UploadPartHandled(st: State, path: string, k: string, id: string, n: nat, data: Bytes, minted: Minted, listing: Json)
    requires Uri.Decode(PathKey(path)) == Success("multipart")
    requires HasUpload(st, k, id) && id != ""
    ensures Handle(MultipartPost(path, map["key" := Str(k), "uploadId" := Str(id), "partNumber" := Num(n as real)], data), st, minted, listing).1
         == UploadPartStep(st, k, id, n, data, minted.etag).value
  {
    var req := MultipartPost(path, map["key" := Str(k), "uploadId" := Str(id), "partNumber" := Num(n as real)], data);
    MultipartPathState(req, st, minted, listing);
    var v := Obj(map["key" := Str(k), "uploadId" := Str(id), "partNumber" := Num(n as real)]);
    assert req.json == Success(v);
    assert Property(v, "key") == Str(k);
    assert Property(v, "uploadId") == Str(id) && Property(v, "partNumber") == Num(n as real);
    UploadPartState(st, v, data, minted, k, id, n);
    assert MultipartStep(st, req.json, req.body, minted).1 == UploadPartStep(st, k, id, n, data, minted.etag).value;
  }

  lemma CompleteHandled(st: State, path: string, k: string, id: string, e1: string, e2: string, minted: Minted, listing: Json)
    requires Uri.Decode(PathKey(path)) == Success("multipart")
    requires HasUpload(st, k, id) && id != ""
    requires 1 in st.uploads[id].parts && st.uploads[id].parts[1].etag == e1
    requires 2 in st.uploads[id].parts && st.uploads[id].parts[2].etag == e2
    ensures var st' := Handle(MultipartPost(path, map["key" := Str(k), "uploadId" := Str(id), "parts" := Arr([PartRef(1.0, e1), PartRef(2.0, e2)])], []), st, minted, listing).1;
      && id !in st'.uploads
      && k in st'.objects
      && st'.objects[k].data == st.uploads[id].parts[1].data + st.uploads[id].parts[2].data
  {
    var req := MultipartPost(path, map["key" := Str(k), "uploadId" := Str(id), "parts" := Arr([PartRef(1.0, e1), PartRef(2.0, e2)])], []);
    MultipartPathState(req, st, minted, listing);
    CompleteState(st, k, id, e1, e2, minted);
  }

  /** Initiate, upload parts 1 and 2, complete with both: the session is
      gone and a GET of the key returns the two parts' bytes in order. */
  lemma MultipartRoundTrip(st: State, path: string, getPath: string, k: string, id: string,
                           e1: string, e2: string, e3: string, d1: Bytes, d2: Bytes, listing: Json)
    requires Uri.Decode(PathKey(path)) == Success("multipart")
    requires Uri.Decode(PathKey(getPath)) == Success(k) && k != "list"
    requires id !in st.uploads && id != ""
    ensures
      var st1 := Handle(MultipartPost(path, map["key" := Str(k)], []), st, Minted(e1, id), listing).1;
      var st2 := Handle(MultipartPost(path, map["key" := Str(k), "uploadId" := Str(id), "partNumber" := Num(1 as real)], d1),
                        st1, Minted(e1, id), listing).1;
      var st3 := Handle(MultipartPost(path, map["key" := Str(k), "uploadId" := Str(id), "partNumber" := Num(2 as real)], d2),
                        st2, Minted(e2, id), listing).1;
      var st4 := Handle(MultipartPost(path, map["key" := Str(k), "uploadId" := Str(id), "parts" := Arr([PartRef(1.0, e1), PartRef(2.0, e2)])], []),
                        st3, Minted(e3, id), listing).1;
      var r := Handle(Request("GET", getPath, map[], [], Success(Null)), st4, Minted(e3, id), listing).0;
      && id !in st4.uploads
      && r.status == 200
      && r.body == Stream(d1 + d2)
  {
    InitiateHandled(st, path, k, Minted(e1, id), listing);
    var st1 := st.(uploads := st.uploads[id := Upload(k, map[])]);
    UploadPartHandled(st1, path, k, id, 1, d1, Minted(e1, id), listing);
    var st2 := UploadPartStep(st1, k, id, 1, d1, e1).value;
    assert st2.uploads[id] == Upload(k, map[1 := Part(d1, e1)]);
    UploadPartHandled(st2, path, k, id, 2, d2, Minted(e2, id), listing);
    var st3 := UploadPartStep(st2, k, id, 2, d2, e2).value;
    assert st3.uploads[id] == Upload(k, map[1 := Part(d1, e1), 2 := Part(d2, e2)]);
    CompleteHandled(st3, path, k, id, e1, e2, Minted(e3, id), listing);
    var st4 := Handle(MultipartPost(path, map["key" := Str(k), "uploadId" := Str(id), "parts" := Arr([PartRef(1.0, e1), PartRef(2.0, e2)])], []),
                      st3, Minted(e3, id), listing).1;
    var get := Request("GET", getPath, map[], [], Success(Null));
    GetPathReply(get, st4, Minted(e3, id), listing, k);
  }
}
