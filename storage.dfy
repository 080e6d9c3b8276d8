/** The R2 bucket behind the worker, as an abstract store: objects by key
    and multipart sessions by upload id. The values the service invents
    (etags and upload ids) are handed in by the caller. Only the effect on
    this state is modelled, not how the service achieves it. */
module Storage {
  import opened Wrappers

  type Bytes = seq<bv8>

  datatype StoredObject = StoredObject(data: Bytes, contentType: Option<string>, etag: string)

  /** The quoted form of an etag, as the service reports it in `httpEtag`. */
  function HttpEtag(etag: string): string {
    "\"" + etag + "\""
  }

  datatype Part = Part(data: Bytes, etag: string)

  /** A multipart session: the key it will complete to and the parts so far. */
  datatype Upload = Upload(key: string, parts: map<int, Part>)

  datatype State = State(objects: map<string, StoredObject>, uploads: map<string, Upload>)

  /** Messages of the errors the bucket throws. */
  const NoSuchUpload := "multipart upload not found"
  const InvalidPartList := "invalid part list"

  /** Every listed part was uploaded, with the etag the list gives for it. */
  predicate PartsMatch(u: Upload, listed: seq<(int, string)>) {
    forall i :: 0 <= i < |listed| ==> listed[i].0 in u.parts && u.parts[listed[i].0].etag == listed[i].1
  }

  /** The listed parts concatenated in the listed order, provided each is
      uploaded with the etag the list gives. */
  function Assemble(u: Upload, listed: seq<(int, string)>): (r: Option<Bytes>)
    ensures r.Some? <==> PartsMatch(u, listed)
  {
    if listed == [] then Some([])
    else
      var n := listed[0].0;
      if n in u.parts && u.parts[n].etag == listed[0].1 then
        match Assemble(u, listed[1..])
        case None => None
        case Some(rest) => Some(u.parts[n].data + rest)
      else None
  }

  /** A single listed part assembles to its own bytes. */
  lemma AssembleSingle(u: Upload, n: int, etag: string)
    requires n in u.parts && u.parts[n].etag == etag
    ensures Assemble(u, [(n, etag)]) == Some(u.parts[n].data)
  {
    assert [(n, etag)][1..] == [];
    assert u.parts[n].data + [] == u.parts[n].data;
  }

  /** Assembling two lists one after the other is assembling each and
      concatenating the bytes in that order: with `AssembleSingle`, the
      object is the listed parts' bytes in the listed order. */
  lemma {:induction false} AssembleAppend(u: Upload, a: seq<(int, string)>, b: seq<(int, string)>)
    requires PartsMatch(u, a) && PartsMatch(u, b)
    ensures Assemble(u, a + b) == Some(Assemble(u, a).value + Assemble(u, b).value)
  {
    if a == [] {
      assert a + b == b;
      assert Assemble(u, a).value + Assemble(u, b).value == Assemble(u, b).value;
    } else {
      assert (a + b)[0] == a[0];
      assert (a + b)[1..] == a[1..] + b;
      assert PartsMatch(u, a[1..]) by {
        forall i | 0 <= i < |a[1..]| ensures a[1..][i].0 in u.parts && u.parts[a[1..][i].0].etag == a[1..][i].1 {
          assert a[1..][i] == a[i + 1];
        }
      }
      AssembleAppend(u, a[1..], b);
      var n := a[0].0;
      assert u.parts[n].data + (Assemble(u, a[1..]).value + Assemble(u, b).value)
          == (u.parts[n].data + Assemble(u, a[1..]).value) + Assemble(u, b).value;
    }
  }

  /** A session exists under `uploadId` for `key`. */
  predicate HasUpload(st: State, key: string, uploadId: string) {
    uploadId in st.uploads && st.uploads[uploadId].key == key
  }

  /** `uploadPart` on the session resumed from `(key, uploadId)`. */
  function UploadPartStep(st: State, key: string, uploadId: string, partNumber: int, data: Bytes, etag: string): (r: Result<State>)
    ensures r.Success? <==> HasUpload(st, key, uploadId)
    ensures r.Success? ==> r.value == st.(uploads := st.uploads[uploadId :=
      Upload(key, st.uploads[uploadId].parts[partNumber := Part(data, etag)])])
    ensures r.Failure? ==> r.error == NoSuchUpload
  {
    if HasUpload(st, key, uploadId) then
      var u := st.uploads[uploadId];
      Success(st.(uploads := st.uploads[uploadId := u.(parts := u.parts[partNumber := Part(data, etag)])]))
    else Failure(NoSuchUpload)
  }

  /** `complete(parts)` on the session resumed from `(key, uploadId)`: the
      object becomes the listed parts in order and the session ends. */
  function CompleteStep(st: State, key: string, uploadId: string, listed: seq<(int, string)>, etag: string): (r: Result<(StoredObject, State)>)
    ensures r.Success? <==> HasUpload(st, key, uploadId) && PartsMatch(st.uploads[uploadId], listed)
    ensures r.Failure? && !HasUpload(st, key, uploadId) ==> r.error == NoSuchUpload
    ensures r.Failure? && HasUpload(st, key, uploadId) ==> r.error == InvalidPartList
    ensures r.Success? ==> Assemble(st.uploads[uploadId], listed) == Some(r.value.0.data)
    ensures r.Success? ==> r.value.0.contentType == None && r.value.0.etag == etag
    ensures r.Success? ==> r.value.1.objects == st.objects[key := r.value.0]
    ensures r.Success? ==> r.value.1.uploads == st.uploads - {uploadId}
  {
    if !HasUpload(st, key, uploadId) then Failure(NoSuchUpload)
    else match Assemble(st.uploads[uploadId], listed)
      case None => Failure(InvalidPartList)
      case Some(data) =>
        var o := StoredObject(data, None, etag);
        Success((o, State(st.objects[key := o], st.uploads - {uploadId})))
  }

  class Bucket {
    var objects: map<string, StoredObject>
    var uploads: map<string, Upload>

    function Snapshot(): State
      reads this
    {
      State(objects, uploads)
    }

    constructor ()
      ensures objects == map[] && uploads == map[]
    {
      objects := map[];
      uploads := map[];
    }

    /** `get(key)`: the object, or null when the key is absent. */
    method Get(key: string) returns (o: Option<StoredObject>)
      ensures key in objects <==> o.Some?
      ensures o.Some? ==> o.value == objects[key]
    {
      o := if key in objects then Some(objects[key]) else None;
    }

    /** `put(key, body, {httpMetadata: {contentType}})`: replaces or creates. */
    method Put(key: string, data: Bytes, contentType: Option<string>, etag: string) returns (o: StoredObject)
      modifies this
      ensures o == StoredObject(data, contentType, etag)
      ensures objects == old(objects)[key := o] && uploads == old(uploads)
    {
      o := StoredObject(data, contentType, etag);
      objects := objects[key := o];
    }

    /** `delete(key)`: removing an absent key is not an error. */
    method Delete(key: string)
      modifies this
      ensures objects == old(objects) - {key} && uploads == old(uploads)
    {
      objects := objects - {key};
    }

    /** `createMultipartUpload(key)`, the service choosing a fresh id. */
    method CreateMultipartUpload(key: string, uploadId: string) returns (id: string)
      requires uploadId !in uploads
      modifies this
      ensures id == uploadId
      ensures uploads == old(uploads)[uploadId := Upload(key, map[])] && objects == old(objects)
    {
      id := uploadId;
      uploads := uploads[uploadId := Upload(key, map[])];
    }

    /** `resumeMultipartUpload(key, uploadId).uploadPart(partNumber, body)`;
        returns the part's etag. */
    method UploadPart(key: string, uploadId: string, partNumber: int, data: Bytes, etag: string) returns (r: Result<string>)
      modifies this
      ensures r.Success? <==> HasUpload(old(Snapshot()), key, uploadId)
      ensures r.Success? ==> r.value == etag && Snapshot() == UploadPartStep(old(Snapshot()), key, uploadId, partNumber, data, etag).value
      ensures r.Failure? ==> r.error == NoSuchUpload && Snapshot() == old(Snapshot())
    {
      if uploadId in uploads && uploads[uploadId].key == key {
        var u := uploads[uploadId];
        uploads := uploads[uploadId := u.(parts := u.parts[partNumber := Part(data, etag)])];
        r := Success(etag);
      } else {
        r := Failure(NoSuchUpload);
      }
    }

    /** `resumeMultipartUpload(key, uploadId).complete(parts)`. */
    method Complete(key: string, uploadId: string, listed: seq<(int, string)>, etag: string) returns (r: Result<StoredObject>)
      modifies this
      ensures var step := CompleteStep(old(Snapshot()), key, uploadId, listed, etag);
        if step.Success? then r == Success(step.value.0) && Snapshot() == step.value.1
        else r == Failure(step.error) && Snapshot() == old(Snapshot())
    {
      if !(uploadId in uploads && uploads[uploadId].key == key) {
        r := Failure(NoSuchUpload);
        return;
      }
      var data := Assemble(uploads[uploadId], listed);
      if data.None? {
        r := Failure(InvalidPartList);
        return;
      }
      var o := StoredObject(data.value, None, etag);
      objects := objects[key := o];
      uploads := uploads - {uploadId};
      r := Success(o);
    }
  }
}
