/** `decodeURIComponent` as ECMAScript defines it: every `%XY` escape is an
    octet; an octet below 0x80 is a character by itself, any other must
    begin a well-formed UTF-8 sequence of escapes that encodes one Unicode
    scalar value without over-long form. Anything else throws a URIError.
    `encodeURIComponent` is given as the partner the decoder undoes. */
module Uri {
  import opened Wrappers

  /** The message of the URIError the decoder throws. */
  const Malformed := "URI malformed"

  function HexValue(c: char): Option<nat> {
    if '0' <= c <= '9' then Some(c as int - '0' as int)
    else if 'a' <= c <= 'f' then Some(c as int - 'a' as int + 10)
    else if 'A' <= c <= 'F' then Some(c as int - 'A' as int + 10)
    else None
  }

  /** The octet written as `%XY` at the start of `s`, if there is one. */
  function EscapedOctet(s: string): (r: Option<nat>)
    ensures r.Some? ==> r.value < 256 && |s| >= 3 && s[0] == '%'
  {
    if |s| >= 3 && s[0] == '%' && HexValue(s[1]).Some? && HexValue(s[2]).Some? then
      Some(16 * HexValue(s[1]).value + HexValue(s[2]).value)
    else None
  }

  /** How many octets the UTF-8 sequence led by `b` has; 0 when `b` cannot
      lead one (a continuation octet, or five or more leading one bits). */
  function SequenceLength(b: nat): nat {
    if b < 0x80 then 1
    else if b < 0xC0 then 0
    else if b < 0xE0 then 2
    else if b < 0xF0 then 3
    else if b < 0xF8 then 4
    else 0
  }

  predicate IsContinuation(c: nat) { 0x80 <= c < 0xC0 }

  /** The `k` continuation octets escaped at the start of `s`. */
  function Continuations(s: string, k: nat): (r: Option<seq<nat>>)
    ensures r.Some? ==> |r.value| == k && 3 * k <= |s|
    ensures r.Some? ==> forall j :: 0 <= j < k ==> IsContinuation(r.value[j])
    decreases k
  {
    if k == 0 then Some([])
    else match EscapedOctet(s)
      case None => None
      case Some(c) =>
        if !IsContinuation(c) then None
        else match Continuations(s[3..], k - 1)
          case None => None
          case Some(rest) => Some([c] + rest)
  }

  /** The payload bits of the lead octet of an `n`-octet sequence. */
  function LeadBits(b: nat, n: nat): int {
    if n == 2 then b - 0xC0 else if n == 3 then b - 0xE0 else b - 0xF0
  }

  /** Appends six payload bits per continuation octet. */
  function Accumulate(acc: int, cs: seq<nat>): int
    decreases |cs|
  {
    if cs == [] then acc else Accumulate(acc * 64 + (cs[0] as int - 0x80), cs[1..])
  }

  /** The smallest code point that needs `n` octets; less is over-long. */
  function MinCodePoint(n: nat): nat {
    if n == 2 then 0x80 else if n == 3 then 0x800 else 0x10000
  }

  /** A Unicode scalar value: a code point that is not a surrogate. */
  predicate IsScalar(cp: int) {
    0 <= cp < 0xD800 || 0xE000 <= cp < 0x11_0000
  }

  /** Decodes the escape sequence at the start of `s` (which starts with
      `%`) into one character and the number of characters it used. */
  function DecodeEscape(s: string): (r: Result<(char, nat)>)
    ensures r.Success? ==> 3 <= r.value.1 <= |s|
    ensures r.Failure? ==> r.error == Malformed
    ensures EscapedOctet(s).None? ==> r.Failure?
    ensures EscapedOctet(s).Some? && EscapedOctet(s).value < 0x80 ==>
      r == Success((EscapedOctet(s).value as char, 3))
    ensures EscapedOctet(s).Some? && SequenceLength(EscapedOctet(s).value) == 0 ==> r.Failure?
    ensures r.Success? ==> r.value.1 == 3 * SequenceLength(EscapedOctet(s).value)
  {
    match EscapedOctet(s)
    case None => Failure(Malformed)
    case Some(b) =>
      var n := SequenceLength(b);
      if n == 0 then Failure(Malformed)
      else if n == 1 then Success((b as char, 3))
      else match Continuations(s[3..], n - 1)
        case None => Failure(Malformed)
        case Some(cs) =>
          var cp := Accumulate(LeadBits(b, n), cs);
          if cp < MinCodePoint(n) || !IsScalar(cp) then Failure(Malformed)
          else Success((cp as char, 3 * n))
  }

  /** `decodeURIComponent(s)`: the decoded string, or the URIError. */
  function Decode(s: string): (r: Result<string>)
    ensures r.Failure? ==> r.error == Malformed
    ensures r.Success? ==> |r.value| <= |s|
    decreases |s|
  {
    if s == [] then Success([])
    else if s[0] != '%' then
      match Decode(s[1..])
      case Failure(e) => Failure(e)
      case Success(t) => Success([s[0]] + t)
    else
      match DecodeEscape(s)
      case Failure(e) => Failure(e)
      case Success((c, used)) =>
        match Decode(s[used..])
        case Failure(e) => Failure(e)
        case Success(t) => Success([c] + t)
  }

  /** A string without `%` decodes to itself. */
  lemma {:induction false} DecodeWithoutEscapes(s: string)
    requires forall i :: 0 <= i < |s| ==> s[i] != '%'
    ensures Decode(s) == Success(s)
  {
    if s != [] {
      DecodeWithoutEscapes(s[1..]);
      assert [s[0]] + s[1..] == s;
    }
  }

  /** Within the escapes that `Continuations` reads, every `%` is followed
      by two hexadecimal digits. */
  lemma {:induction false} ContinuationsAreEscapes(t: string, k: nat)
    requires Continuations(t, k).Some?
    ensures forall m :: 0 <= m < 3 * k && t[m] == '%' ==> m + 2 < |t| && HexValue(t[m + 1]).Some? && HexValue(t[m + 2]).Some?
    decreases k
  {
    if k > 0 {
      ContinuationsAreEscapes(t[3..], k - 1);
      forall m | 0 <= m < 3 * k && t[m] == '%'
        ensures m + 2 < |t| && HexValue(t[m + 1]).Some? && HexValue(t[m + 2]).Some?
      {
        if m >= 3 {
          assert t[3..][m - 3] == t[m];
          assert t[3..][m - 3 + 1] == t[m + 1] && t[3..][m - 3 + 2] == t[m + 2];
        }
      }
    }
  }

  /** Within the characters one escape sequence consumes, every `%` is
      followed by two hexadecimal digits. */
  lemma EscapeSpan(s: string)
    requires DecodeEscape(s).Success?
    ensures forall m :: 0 <= m < DecodeEscape(s).value.1 && s[m] == '%' ==>
      m + 2 < |s| && HexValue(s[m + 1]).Some? && HexValue(s[m + 2]).Some?
  {
    var b := EscapedOctet(s).value;
    var n := SequenceLength(b);
    assert HexValue('%').None?;
    if n > 1 {
      var t := s[3..];
      ContinuationsAreEscapes(t, n - 1);
      forall m | 3 <= m < 3 * n && s[m] == '%'
        ensures m + 2 < |s| && HexValue(s[m + 1]).Some? && HexValue(s[m + 2]).Some?
      {
        assert t[m - 3] == s[m];
        assert t[m - 3 + 1] == s[m + 1] && t[m - 3 + 2] == s[m + 2];
      }
    }
  }

  /** A `%` that is not followed by two hexadecimal digits makes the
      whole decode fail, wherever it stands. */
  lemma {:induction false} DecodeRejectsBareEscape(s: string, i: nat)
    requires i < |s| && s[i] == '%'
    requires i + 2 >= |s| || HexValue(s[i + 1]).None? || HexValue(s[i + 2]).None?
    ensures Decode(s).Failure?
    decreases |s|
  {
    if s[0] != '%' {
      DecodeRejectsBareEscape(s[1..], i - 1);
    } else if DecodeEscape(s).Success? {
      var used := DecodeEscape(s).value.1;
      EscapeSpan(s);
      if i >= used {
        assert s[used..][i - used] == s[i];
        if i + 2 < |s| {
          assert s[used..][i - used + 1] == s[i + 1] && s[used..][i - used + 2] == s[i + 2];
        }
        DecodeRejectsBareEscape(s[used..], i - used);
      }
    }
  }

  /** The malformed UTF-8 forms are refused: a continuation octet with no
      lead, a lead octet with too few continuations, an over-long form and
      an encoded surrogate. */
  lemma DecodeRejectsBadUtf8()
    ensures Decode("%80").Failure?
    ensures Decode("%E2%82").Failure?
    ensures Decode("%C0%80").Failure?
    ensures Decode("%ED%A0%80").Failure?
  {
    assert HexValue('8') == Some(8) && HexValue('0') == Some(0) && HexValue('2') == Some(2);
    assert HexValue('E') == Some(14) && HexValue('C') == Some(12) && HexValue('D') == Some(13) && HexValue('A') == Some(10);
    assert EscapedOctet("%80") == Some(0x80);
    var s2 := "%E2%82";
    assert EscapedOctet(s2) == Some(0xE2) && s2[3..] == "%82";
    assert "%82"[3..] == [];
    var s3 := "%C0%80";
    assert EscapedOctet(s3) == Some(0xC0) && s3[3..] == "%80";
    assert "%80"[3..] == [];
    assert Continuations("%80"[3..], 0) == Some([]);
    assert [0x80 as nat] + [] == [0x80];
    assert Continuations("%80", 1) == Some([0x80]);
    assert Accumulate(LeadBits(0xC0, 2), [0x80]) == 0;
    var s4 := "%ED%A0%80";
    assert EscapedOctet(s4) == Some(0xED) && s4[3..] == "%A0%80";
    assert EscapedOctet("%A0%80") == Some(0xA0) && "%A0%80"[3..] == "%80";
    assert [0xA0 as nat] + [0x80] == [0xA0, 0x80];
    assert Continuations("%A0%80", 2) == Some([0xA0, 0x80]);
    assert Accumulate(LeadBits(0xED, 3), [0xA0, 0x80]) == 0xD800;
  }

  // ---------------------------------------------------------------------
  // encodeURIComponent, the partner of the decoder

  /** Characters `encodeURIComponent` leaves as they are. */
  predicate Unreserved(c: char) {
    ('A' <= c <= 'Z') || ('a' <= c <= 'z') || ('0' <= c <= '9') || c in "-_.!~*'()"
  }

  function HexDigit(d: nat): char
    requires d < 16
  {
    if d < 10 then ('0' as int + d) as char else ('A' as int + d - 10) as char
  }

  predicate AreOctets(bs: seq<nat>) {
    forall i :: 0 <= i < |bs| ==> bs[i] < 256
  }

  /** `%XY` for one octet, upper-case hexadecimal. */
  function Escape(b: nat): string
    requires b < 256
  {
    ['%', HexDigit(b / 16), HexDigit(b % 16)]
  }

  function EscapeAll(bs: seq<nat>): string
    requires AreOctets(bs)
  {
    if bs == [] then [] else Escape(bs[0]) + EscapeAll(bs[1..])
  }

  /** The UTF-8 octets of one scalar value. */
  function Utf8(c: char): (r: seq<nat>)
    ensures AreOctets(r) && 1 <= |r| <= 4
  {
    var cp := c as int;
    var q1, r1 := cp / 64, cp % 64;
    var q2, r2 := q1 / 64, q1 % 64;
    var q3, r3 := q2 / 64, q2 % 64;
    if cp < 0x80 then [cp]
    else if cp < 0x800 then [0xC0 + q1, 0x80 + r1]
    else if cp < 0x1_0000 then [0xE0 + q2, 0x80 + r2, 0x80 + r1]
    else [0xF0 + q3, 0x80 + r3, 0x80 + r2, 0x80 + r1]
  }

  function EncodeChar(c: char): string {
    if Unreserved(c) then [c] else EscapeAll(Utf8(c))
  }

  /** `encodeURIComponent(s)` (never throws on scalar values). */
  function Encode(s: string): string {
    if s == [] then [] else EncodeChar(s[0]) + Encode(s[1..])
  }

  lemma HexRoundTrip(d: nat)
    requires d < 16
    ensures HexValue(HexDigit(d)) == Some(d)
  {
  }

  lemma EscapedOctetOfEscape(b: nat, t: string)
    requires b < 256
    ensures EscapedOctet(Escape(b) + t) == Some(b)
  {
    HexRoundTrip(b / 16);
    HexRoundTrip(b % 16);
  }

  lemma {:induction false} ContinuationsOfEscapes(cs: seq<nat>, t: string)
    requires AreOctets(cs) && forall j :: 0 <= j < |cs| ==> IsContinuation(cs[j])
    ensures Continuations(EscapeAll(cs) + t, |cs|) == Some(cs)
  {
    if cs != [] {
      var s := EscapeAll(cs) + t;
      assert s == Escape(cs[0]) + (EscapeAll(cs[1..]) + t);
      EscapedOctetOfEscape(cs[0], EscapeAll(cs[1..]) + t);
      assert s[3..] == EscapeAll(cs[1..]) + t;
      ContinuationsOfEscapes(cs[1..], t);
      assert [cs[0]] + cs[1..] == cs;
    }
  }

  /** The lead octet announces the sequence length, the others are
      continuation octets, and their payload bits give back the code point. */
  lemma Utf8Decodes(c: char)
    ensures SequenceLength(Utf8(c)[0]) == |Utf8(c)|
    ensures forall j :: 1 <= j < |Utf8(c)| ==> IsContinuation(Utf8(c)[j])
    ensures |Utf8(c)| > 1 ==>
      Accumulate(LeadBits(Utf8(c)[0], |Utf8(c)|), Utf8(c)[1..]) == c as int &&
      c as int >= MinCodePoint(|Utf8(c)|)
  {
    var cp := c as int;
    if cp < 0x80 {
    } else if cp < 0x800 {
      Utf8Decodes2(cp);
    } else if cp < 0x1_0000 {
      Utf8Decodes3(cp);
    } else {
      Utf8Decodes4(cp);
    }
  }

  lemma Utf8Decodes2(cp: int)
    requires 0x80 <= cp < 0x800
    ensures Accumulate(cp / 64, [0x80 + cp % 64]) == cp
  {
  }

  lemma Utf8Decodes3(cp: int)
    requires 0x800 <= cp < 0x1_0000
    ensures Accumulate(cp / 64 / 64, [0x80 + cp / 64 % 64, 0x80 + cp % 64]) == cp
  {
    var q1 := cp / 64;
    var q2 := q1 / 64;
    var cs: seq<nat> := [0x80 + q1 % 64, 0x80 + cp % 64];
    assert Accumulate(q2, cs) == Accumulate(q2 * 64 + q1 % 64, cs[1..]);
    assert q2 * 64 + q1 % 64 == q1;
  }

  lemma Utf8Decodes4(cp: int)
    requires 0x1_0000 <= cp < 0x11_0000
    ensures Accumulate(cp / 64 / 64 / 64, [0x80 + cp / 64 / 64 % 64, 0x80 + cp / 64 % 64, 0x80 + cp % 64]) == cp
  {
    var q1 := cp / 64;
    var q2 := q1 / 64;
    var q3 := q2 / 64;
    var cs: seq<nat> := [0x80 + q2 % 64, 0x80 + q1 % 64, 0x80 + cp % 64];
    assert Accumulate(q3, cs) == Accumulate(q3 * 64 + q2 % 64, cs[1..]);
    assert q3 * 64 + q2 % 64 == q2;
    assert Accumulate(q2, cs[1..]) == Accumulate(q2 * 64 + q1 % 64, cs[2..]);
    assert q2 * 64 + q1 % 64 == q1;
  }

  /** The escapes of one character decode back to that character. */
  lemma DecodeEscapeOfChar(c: char, t: string)
    ensures DecodeEscape(EscapeAll(Utf8(c)) + t) == Success((c, 3 * |Utf8(c)|))
  {
    var bs := Utf8(c);
    var s := EscapeAll(bs) + t;
    assert s == Escape(bs[0]) + (EscapeAll(bs[1..]) + t);
    EscapedOctetOfEscape(bs[0], EscapeAll(bs[1..]) + t);
    assert s[3..] == EscapeAll(bs[1..]) + t;
    Utf8Decodes(c);
    ContinuationsOfEscapes(bs[1..], t);
  }

  lemma EncodeCharThenRest(c: char, t: string)
    ensures Decode(EncodeChar(c) + t) ==
      (match Decode(t) case Failure(e) => Failure(e) case Success(u) => Success([c] + u))
  {
    var s := EncodeChar(c) + t;
    if Unreserved(c) {
      assert s[0] == c && s[1..] == t;
    } else {
      var bs := Utf8(c);
      DecodeEscapeOfChar(c, t);
      assert s[0] == '%';
      assert |EscapeAll(bs)| == 3 * |bs| by { EscapeAllLength(bs); }
      assert s[3 * |bs|..] == t;
    }
  }

  lemma {:induction false} EscapeAllLength(bs: seq<nat>)
    requires AreOctets(bs)
    ensures |EscapeAll(bs)| == 3 * |bs|
  {
    if bs != [] {
      EscapeAllLength(bs[1..]);
    }
  }

  /** Decoding undoes encoding, for every string. */
  lemma {:induction false} DecodeEncode(s: string)
    ensures Decode(Encode(s)) == Success(s)
  {
    if s != [] {
      DecodeEncode(s[1..]);
      EncodeCharThenRest(s[0], Encode(s[1..]));
      assert Encode(s) == EncodeChar(s[0]) + Encode(s[1..]);
      assert [s[0]] + s[1..] == s;
    }
  }
}
