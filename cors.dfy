/** Cross-origin headers: the fixed header table, the preflight reply and
    the merge that every other reply goes through. */
module Cors {
  import opened Wrappers
  import opened Http

  /** The `corsHeaders` record, in its declaration order. */
  const CorsEntries: seq<(string, string)> := [
    ("Access-Control-Allow-Origin", "*"),
    ("Access-Control-Allow-Methods", "GET, PUT, POST, DELETE, OPTIONS"),
    ("Access-Control-Allow-Headers", "Content-Type, Authorization"),
    ("Access-Control-Max-Age", "86400")
  ]

  /** The four names as a `Headers` object stores them. */
  function CorsNames(): set<string> {
    set i | 0 <= i < |CorsEntries| :: Lower(CorsEntries[i].0)
  }

  /** The record as a header map. */
  function CorsHeaders(): Headers {
    FromEntries(CorsEntries)
  }

  /** No two of the four names coincide once lower-cased, so none of the
      four `set` calls undoes another. */
  lemma CorsNamesDistinct()
    ensures forall i, j :: 0 <= i < j < |CorsEntries| ==> Lower(CorsEntries[i].0) != Lower(CorsEntries[j].0)
  {
    assert Lower(CorsEntries[1].0)[21] == 'm';
    assert Lower(CorsEntries[2].0)[21] == 'h';
  }

  /** The header map holds exactly the four names, each with its value. */
  lemma CorsHeadersExact()
    ensures CorsHeaders().Keys == CorsNames()
    ensures forall i :: 0 <= i < |CorsEntries| ==> Get(CorsHeaders(), CorsEntries[i].0) == Some(CorsEntries[i].1)
  {
    CorsNamesDistinct();
    FromEntriesKeys(CorsEntries);
    forall i | 0 <= i < |CorsEntries|
      ensures Get(CorsHeaders(), CorsEntries[i].0) == Some(CorsEntries[i].1)
    {
      assert LastOfName(CorsEntries, i);
    }
  }

  /** `Content-Type`, the header a stored object's type travels in, is not
      one of the four CORS names. */
  lemma ContentTypeNotCors()
    ensures Lower("Content-Type") !in CorsNames()
  {
    var e := CorsEntries;
    assert CorsNames() == {Lower(e[0].0), Lower(e[1].0), Lower(e[2].0), Lower(e[3].0)} by {
      forall k | k in CorsNames() ensures k in {Lower(e[0].0), Lower(e[1].0), Lower(e[2].0), Lower(e[3].0)} {
        var i :| 0 <= i < |e| && k == Lower(e[i].0);
      }
    }
    assert |Lower("Content-Type")| == 12;
  }

  /** `handleOptions`: a null body with the default status and exactly the
      CORS headers. */
  function HandleOptions(): (r: Response)
    ensures r.body == NoBody && r.status == 200 && r.statusText == ""
    ensures r.headers.Keys == CorsNames()
    ensures forall i :: 0 <= i < |CorsEntries| ==> Get(r.headers, CorsEntries[i].0) == Some(CorsEntries[i].1)
  {
    CorsHeadersExact();
    NewResponse(NoBody, 200, CorsEntries)
  }

  /** What `addCorsHeaders` returns: the response with the CORS map written
      over a copy of its headers. */
  function WithCors(response: Response): (r: Response)
    ensures r.status == response.status
    ensures r.statusText == response.statusText
    ensures r.body == response.body
    ensures r.headers.Keys == response.headers.Keys + CorsNames()
  {
    CorsHeadersExact();
    response.(headers := response.headers + CorsHeaders())
  }

  /** `addCorsHeaders`: copy the headers, then `set` each CORS entry in turn. */
  method AddCorsHeaders(response: Response) returns (r: Response)
    ensures r == WithCors(response)
  {
    var headers := response.headers;
    var i := 0;
    while i < |CorsEntries|
      invariant 0 <= i <= |CorsEntries|
      invariant headers == response.headers + FromEntries(CorsEntries[..i])
    {
      FromEntriesStep(CorsEntries, i);
      OverrideStep(response.headers, FromEntries(CorsEntries[..i]), Lower(CorsEntries[i].0), CorsEntries[i].1);
      headers := Set(headers, CorsEntries[i].0, CorsEntries[i].1);
      i := i + 1;
    }
    assert CorsEntries[..i] == CorsEntries;
    r := Response(response.status, response.statusText, headers, response.body);
  }

  /** After the merge each CORS name holds exactly its fixed value, whatever
      the response held under that name before. */
  lemma WithCorsSetsEach(response: Response, i: nat)
    requires i < |CorsEntries|
    ensures Get(WithCors(response).headers, CorsEntries[i].0) == Some(CorsEntries[i].1)
  {
    CorsHeadersExact();
  }

  /** Headers outside the CORS set keep their values. */
  lemma WithCorsKeepsOthers(response: Response, name: string)
    requires Lower(name) !in CorsNames()
    ensures Get(WithCors(response).headers, name) == Get(response.headers, name)
  {
    CorsHeadersExact();
  }

  /** Merging twice is merging once. */
  lemma WithCorsIdempotent(response: Response)
    ensures WithCors(WithCors(response)) == WithCors(response)
  {
  }
}
