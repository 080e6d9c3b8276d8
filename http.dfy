/** Fetch-API `Headers` and `Response` values. A `Headers` object keeps its
    names lower-cased: `set`, `get` and construction from a record all
    lower-case the name first, which is what makes header names
    case-insensitive. */
module Http {
  import opened Wrappers
  import opened JsValue

  type Headers = map<string, string>

  /** ASCII lower-casing of one character. */
  function LowerChar(c: char): char {
    if 'A' <= c <= 'Z' then (c as int + 32) as char else c
  }

  /** Byte-wise ASCII lower-casing of a header name. */
  function Lower(s: string): string {
    seq(|s|, i requires 0 <= i < |s| => LowerChar(s[i]))
  }

  predicate IsLowerName(s: string) {
    forall i :: 0 <= i < |s| ==> !('A' <= s[i] <= 'Z')
  }

  /** Lower-casing leaves no upper-case letter and keeps the length. */
  lemma LowerIsLower(s: string)
    ensures IsLowerName(Lower(s)) && |Lower(s)| == |s|
  {
  }

  /** A name that is already lower-case is its own lower-case form, so
      lower-casing twice is lower-casing once. */
  lemma LowerIdempotent(s: string)
    ensures Lower(Lower(s)) == Lower(s)
  {
    LowerIsLower(s);
    LowerOfLowerName(Lower(s));
  }

  lemma LowerOfLowerName(s: string)
    requires IsLowerName(s)
    ensures Lower(s) == s
  {
  }

  /** `headers.get(name)` */
  function Get(h: Headers, name: string): (r: Option<string>)
    ensures r.Some? <==> Lower(name) in h
    ensures r.Some? ==> r.value == h[Lower(name)]
  {
    if Lower(name) in h then Some(h[Lower(name)]) else None
  }

  /** `headers.set(name, value)`: replaces, never appends. */
  function Set(h: Headers, name: string, value: string): (r: Headers)
    ensures Get(r, name) == Some(value)
    ensures r.Keys == h.Keys + {Lower(name)}
  {
    h[Lower(name) := value]
  }

  /** `set` leaves every other name as it was. */
  lemma SetKeepsOthers(h: Headers, name: string, value: string, other: string)
    requires Lower(other) != Lower(name)
    ensures Get(Set(h, name, value), other) == Get(h, other)
  {
  }

  /** A header name's spelling does not matter to `get`. */
  lemma GetIgnoresCase(h: Headers, name: string)
    ensures Get(h, name) == Get(h, Lower(name))
  {
    LowerIdempotent(name);
  }

  /** No later entry has the same name as entry `i`, ignoring case. */
  predicate LastOfName(entries: seq<(string, string)>, i: nat)
    requires i < |entries|
  {
    forall j :: i < j < |entries| ==> Lower(entries[j].0) != Lower(entries[i].0)
  }

  /** `new Headers(init)` for a record or list of entries: every name is
      present, and on names that are distinct ignoring case each name holds
      its entry's value. A repeated name keeps its last entry's value here;
      the Fetch API would join the values instead, but the worker never
      passes one. */
  function FromEntries(entries: seq<(string, string)>): (r: Headers)
    ensures forall i :: 0 <= i < |entries| ==> Lower(entries[i].0) in r
    ensures forall i :: 0 <= i < |entries| && LastOfName(entries, i) ==> r[Lower(entries[i].0)] == entries[i].1
  {
    if entries == [] then map[]
    else
      var init := entries[..|entries| - 1];
      var last := entries[|entries| - 1];
      assert forall i :: 0 <= i < |init| ==> init[i] == entries[i];
      Set(FromEntries(init), last.0, last.1)
  }

  /** Setting one more entry extends the map built from the entries before it. */
  lemma FromEntriesStep(entries: seq<(string, string)>, i: nat)
    requires i < |entries|
    ensures FromEntries(entries[..i + 1]) == FromEntries(entries[..i])[Lower(entries[i].0) := entries[i].1]
  {
    assert entries[..i + 1][..i] == entries[..i];
  }

  /** Writing one key over a merged map is writing it into the map on the right. */
  lemma OverrideStep(h: Headers, m: Headers, k: string, v: string)
    ensures (h + m)[k := v] == h + m[k := v]
  {
  }

  /** Every key a `Headers` object holds is a lower-cased name. */
  lemma {:induction false} FromEntriesKeys(entries: seq<(string, string)>)
    ensures FromEntries(entries).Keys == set i | 0 <= i < |entries| :: Lower(entries[i].0)
  {
    if entries != [] {
      var init := entries[..|entries| - 1];
      var k := Lower(entries[|entries| - 1].0);
      FromEntriesKeys(init);
      assert FromEntries(entries).Keys == FromEntries(init).Keys + {k};
      var s := set i | 0 <= i < |entries| :: Lower(entries[i].0);
      var t := set i | 0 <= i < |init| :: Lower(init[i].0);
      forall x | x in s ensures x in t + {k} {
        var i :| 0 <= i < |entries| && x == Lower(entries[i].0);
        if i < |init| { assert init[i] == entries[i]; }
      }
      forall x | x in t ensures x in s {
        var i :| 0 <= i < |init| && x == Lower(init[i].0);
        assert init[i] == entries[i];
      }
      assert s == t + {k};
    }
  }

  /** The body a response carries. `JsonText` stands for the string that
      `JSON.stringify` produces from the value (serialisation itself is not
      modelled); `Stream` is an object body passed through. */
  datatype Body = NoBody | Text(text: string) | JsonText(json: Json) | Stream(data: seq<bv8>) {
    /** The body is a JavaScript string (plain text or serialised JSON). */
    predicate IsString() { Text? || JsonText? }
  }

  datatype Response = Response(status: int, statusText: string, headers: Headers, body: Body)

  const TextPlain := "text/plain;charset=UTF-8"

  /** `new Response(body, {status, headers})`: status defaults to 200 and
      status text to the empty string; a string body with no content type
      gets `text/plain;charset=UTF-8`. */
  function NewResponse(body: Body, status: int, init: seq<(string, string)>): (r: Response)
    ensures r.status == status && r.statusText == "" && r.body == body
    ensures body.IsString() && Get(FromEntries(init), "Content-Type").None? ==>
              Get(r.headers, "Content-Type") == Some(TextPlain)
    ensures !body.IsString() || Get(FromEntries(init), "Content-Type").Some? ==> r.headers == FromEntries(init)
  {
    var h := FromEntries(init);
    var typed := if body.IsString() && Get(h, "Content-Type").None? then Set(h, "Content-Type", TextPlain) else h;
    Response(status, "", typed, body)
  }
}
