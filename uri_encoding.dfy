/** `encodeURIComponent` as section 15.1.3.4 of ECMA-262 5.1 defines it: every
    character outside the unreserved set is written as the UTF-8 octets of its
    code point, each in the `%XY` form of section 2.1 of RFC 3986 with
    upper-case hexadecimal digits. A decoder, the inverse used by whoever
    reads the query string, is defined beside it so that the round trip can be
    stated. Dafny's `char` is a Unicode scalar value, so the lone surrogates for
    which the JavaScript function throws cannot occur here. */
module UriEncoding {
  import opened Gateway

  type Byte = b: int | 0 <= b < 256

  /** The characters `encodeURIComponent` leaves as they are: letters, digits
      and `- _ . ! ~ * ' ( )`. */
  predicate IsUnreserved(c: char) {
    ('A' <= c <= 'Z') || ('a' <= c <= 'z') || ('0' <= c <= '9') ||
    c == '-' || c == '_' || c == '.' || c == '!' || c == '~' || c == '*' || c == '\'' || c == '(' || c == ')'
  }

  predicate IsUpperHex(c: char) {
    ('0' <= c <= '9') || ('A' <= c <= 'F')
  }

  function HexDigit(d: int): (c: char)
    requires 0 <= d < 16
    ensures IsUpperHex(c)
  {
    if d < 10 then ('0' as int + d) as char else ('A' as int + d - 10) as char
  }

  /** The value of a hexadecimal digit in either case, as `decodeURIComponent` reads it. */
  function HexValue(c: char): Option<int> {
    if '0' <= c <= '9' then Some(c as int - '0' as int)
    else if 'A' <= c <= 'F' then Some(c as int - 'A' as int + 10)
    else if 'a' <= c <= 'f' then Some(c as int - 'a' as int + 10)
    else None
  }

  /** The UTF-8 octets of a code point. */
  function Utf8(c: char): (bs: seq<Byte>)
    ensures 1 <= |bs| <= 4
  {
    var cp := c as int;
    if cp < 0x80 then [cp]
    else if cp < 0x800 then [0xC0 + cp / 64, 0x80 + cp % 64]
    else if cp < 0x10000 then [0xE0 + cp / 4096, 0x80 + (cp / 64) % 64, 0x80 + cp % 64]
    else [0xF0 + cp / 262144, 0x80 + (cp / 4096) % 64, 0x80 + (cp / 64) % 64, 0x80 + cp % 64]
  }

  /** One octet as `%XY`. */
  function Escape(b: Byte): string {
    ['%', HexDigit(b / 16), HexDigit(b % 16)]
  }

  function EscapeAll(bs: seq<Byte>): (r: string)
    ensures |r| == 3 * |bs|
  {
    if |bs| == 0 then "" else Escape(bs[0]) + EscapeAll(bs[1..])
  }

  function EncodeChar(c: char): string {
    if IsUnreserved(c) then [c] else EscapeAll(Utf8(c))
  }

  /** `encodeURIComponent(s)`. */
  function EncodeUriComponent(s: string): string {
    if |s| == 0 then "" else EncodeChar(s[0]) + EncodeUriComponent(s[1..])
  }

  /** How many octets a UTF-8 sequence has, read off its first octet. */
  function SequenceLength(lead: int): nat {
    if lead < 0x80 then 1
    else if 0xC0 <= lead < 0xE0 then 2
    else if 0xE0 <= lead < 0xF0 then 3
    else if 0xF0 <= lead < 0xF8 then 4
    else 0
  }

  predicate IsContinuation(b: int) {
    0x80 <= b < 0xC0
  }

  /** The code point of a UTF-8 sequence whose length matches its first octet. */
  function CodePoint(bs: seq<Byte>): int
    requires 1 <= |bs| <= 4
  {
    var b0: int := bs[0];
    if |bs| == 1 then b0
    else
      var b1: int := bs[1];
      if |bs| == 2 then (b0 - 0xC0) * 64 + (b1 - 0x80)
      else
        var b2: int := bs[2];
        if |bs| == 3 then ((b0 - 0xE0) * 64 + (b1 - 0x80)) * 64 + (b2 - 0x80)
        else
          var b3: int := bs[3];
          (((b0 - 0xF0) * 64 + (b1 - 0x80)) * 64 + (b2 - 0x80)) * 64 + (b3 - 0x80)
  }

  predicate IsScalarValue(cp: int) {
    (0 <= cp < 0xD800) || (0xE000 <= cp < 0x110000)
  }

  /** The least code point a sequence of `n` octets may carry; a smaller one
      is an overlong form, which the decoder rejects. */
  function MinCodePoint(n: int): int {
    if n == 2 then 0x80
    else if n == 3 then 0x800
    else if n == 4 then 0x10000
    else 0
  }

  /** The character that a UTF-8 sequence stands for, if it is one: the
      length its first octet announces, continuation octets after it, and a
      scalar value in its shortest form. */
  function DecodeUtf8(bs: seq<Byte>): Option<char> {
    if |bs| == 0 || SequenceLength(bs[0]) != |bs| then None
    else if exists i :: 1 <= i < |bs| && !IsContinuation(bs[i]) then None
    else
      var cp := CodePoint(bs);
      if IsScalarValue(cp) && cp >= MinCodePoint(|bs|) then Some(cp as char) else None
  }

  /** Three examples of what the decoder refuses: `%C0%80` (a two-octet NUL)
      and `E0 80 80` are overlong, and `ED A0 80` encodes the surrogate
      U+D800. `DecodeUtf8Exact` states the general fact. */
  lemma DecoderRefusesInvalid()
    ensures DecodeUtf8([0xC0, 0x80]) == None
    ensures DecodeUtf8([0xE0, 0x80, 0x80]) == None
    ensures DecodeUtf8([0xED, 0xA0, 0x80]) == None
    ensures DecodeUriComponent("%C0%80") == None
  {
    assert CodePoint([0xC0, 0x80]) == 0;
    assert CodePoint([0xE0, 0x80, 0x80]) == 0;
    assert CodePoint([0xED, 0xA0, 0x80]) == 0xD800;
    var s := "%C0%80";
    assert UnescapeAt(s) == Some(0xC0);
    var t := s[3..];
    assert t == "%80" && t[3..] == "";
    assert UnescapeAt(t) == Some(0x80);
    var lead: Byte, cont: Byte := 0xC0, 0x80;
    var none: seq<Byte> := [];
    assert UnescapeN(t[3..], 0) == Some(none);
    assert [cont] + none == [cont];
    assert UnescapeN(t, 1) == Some([cont]);
    assert [lead] + [cont] == [lead, cont];
    assert UnescapeN(s, 2) == Some([lead, cont]);
    assert DecodeEscapedChar(s) == None;
  }

  /** The octet written as `%XY` at the start of `s`. */
  function UnescapeAt(s: string): Option<Byte> {
    if |s| < 3 || s[0] != '%' then None
    else match (HexValue(s[1]), HexValue(s[2]))
      case (Some(hi), Some(lo)) => Some(hi * 16 + lo)
      case _ => None
  }

  /** The `n` octets escaped at the start of `s`. */
  function UnescapeN(s: string, n: nat): (r: Option<seq<Byte>>)
    ensures r.Some? ==> |r.value| == n && 3 * n <= |s|
  {
    if n == 0 then Some([])
    else match UnescapeAt(s)
      case None => None
      case Some(b) =>
        match UnescapeN(s[3..], n - 1)
        case None => None
        case Some(rest) => Some([b] + rest)
  }

  /** The character escaped at the start of `s`, and how many characters of
      `s` its escapes take. */
  function DecodeEscapedChar(s: string): (r: Option<(char, nat)>)
    ensures r.Some? ==> 3 <= r.value.1 <= |s|
  {
    match UnescapeAt(s)
    case None => None
    case Some(lead) =>
      var n := SequenceLength(lead);
      if n == 0 then None
      else match UnescapeN(s, n)
        case None => None
        case Some(bs) =>
          match DecodeUtf8(bs)
          case None => None
          case Some(c) => Some((c, 3 * n))
  }

  /** `decodeURIComponent(s)`; `None` where the JavaScript function throws a
      `URIError`. */
  function DecodeUriComponent(s: string): Option<string>
    decreases |s|
  {
    if |s| == 0 then Some("")
    else if s[0] != '%' then
      match DecodeUriComponent(s[1..])
      case None => None
      case Some(rest) => Some([s[0]] + rest)
    else
      match DecodeEscapedChar(s)
      case None => None
      case Some((c, k)) =>
        match DecodeUriComponent(s[k..])
        case None => None
        case Some(rest) => Some([c] + rest)
  }

  // ---- The alphabet of the encoding ----

  /** What the encoder may write: unreserved characters, `%` and upper-case
      hexadecimal digits. */
  predicate IsEncodedChar(c: char) {
    IsUnreserved(c) || c == '%' || IsUpperHex(c)
  }

  lemma {:induction false} EscapeAllAlphabet(bs: seq<Byte>)
    ensures forall i :: 0 <= i < |EscapeAll(bs)| ==> IsEncodedChar(EscapeAll(bs)[i])
  {
    if |bs| > 0 {
      EscapeAllAlphabet(bs[1..]);
    }
  }

  /** The encoded text uses only the encoder's alphabet, so it contains none of
      the query delimiters `&`, `=`, `?` or `#`. */
  lemma {:induction false} EncodedAlphabet(s: string)
    ensures forall i :: 0 <= i < |EncodeUriComponent(s)| ==> IsEncodedChar(EncodeUriComponent(s)[i])
  {
    if |s| > 0 {
      EncodedAlphabet(s[1..]);
      if !IsUnreserved(s[0]) {
        EscapeAllAlphabet(Utf8(s[0]));
      }
    }
  }

  lemma EncodedHasNoAmpersand(s: string)
    ensures '&' !in EncodeUriComponent(s)
  {
    EncodedAlphabet(s);
  }

  /** Text made of unreserved characters only is its own encoding. */
  lemma {:induction false} EncodeUnreserved(s: string)
    requires forall i :: 0 <= i < |s| ==> IsUnreserved(s[i])
    ensures EncodeUriComponent(s) == s
  {
    if |s| > 0 {
      EncodeUnreserved(s[1..]);
    }
  }

  /** Encoding works character by character, so it distributes over concatenation. */
  lemma {:induction false} EncodeConcat(a: string, b: string)
    ensures EncodeUriComponent(a + b) == EncodeUriComponent(a) + EncodeUriComponent(b)
  {
    if |a| > 0 {
      assert (a + b)[1..] == a[1..] + b;
      EncodeConcat(a[1..], b);
    } else {
      assert a + b == b;
    }
  }

  // ---- The round trip ----

  lemma HexRoundTrip(d: int)
    requires 0 <= d < 16
    ensures HexValue(HexDigit(d)) == Some(d)
  {
  }

  lemma EscapeRoundTrip(b: Byte, rest: string)
    ensures UnescapeAt(Escape(b) + rest) == Some(b)
  {
    HexRoundTrip(b / 16);
    HexRoundTrip(b % 16);
  }

  lemma {:induction false} UnescapeNRoundTrip(bs: seq<Byte>, rest: string)
    ensures UnescapeN(EscapeAll(bs) + rest, |bs|) == Some(bs)
  {
    if |bs| > 0 {
      var s := EscapeAll(bs) + rest;
      assert s == Escape(bs[0]) + (EscapeAll(bs[1..]) + rest);
      EscapeRoundTrip(bs[0], EscapeAll(bs[1..]) + rest);
      assert s[3..] == EscapeAll(bs[1..]) + rest;
      UnescapeNRoundTrip(bs[1..], rest);
      assert [bs[0]] + bs[1..] == bs;
    }
  }

  lemma DivMod64(x: int)
    requires 0 <= x
    ensures x == (x / 64) * 64 + x % 64 && 0 <= x % 64 < 64
  {
  }

  lemma Utf8RoundTrip(c: char)
    ensures DecodeUtf8(Utf8(c)) == Some(c)
  {
    var cp := c as int;
    var bs := Utf8(c);
    if cp < 0x80 {
    } else if cp < 0x800 {
      DivMod64(cp);
      assert CodePoint(bs) == cp;
    } else if cp < 0x10000 {
      DivMod64(cp);
      DivMod64(cp / 64);
      assert cp / 64 / 64 == cp / 4096;
      assert CodePoint(bs) == cp;
    } else {
      DivMod64(cp);
      DivMod64(cp / 64);
      DivMod64(cp / 4096);
      assert cp / 64 / 64 == cp / 4096;
      assert cp / 4096 / 64 == cp / 262144;
      assert CodePoint(bs) == cp;
    }
  }

  lemma EncodeCharRoundTrip(c: char, rest: string)
    ensures c == '%' ==> !IsUnreserved(c)
    ensures EncodeChar(c) != [] && (EncodeChar(c)[0] == '%' <==> !IsUnreserved(c))
    ensures !IsUnreserved(c) ==>
      DecodeEscapedChar(EncodeChar(c) + rest) == Some((c, |EncodeChar(c)|))
  {
    if !IsUnreserved(c) {
      var bs := Utf8(c);
      var s := EscapeAll(bs) + rest;
      assert s == Escape(bs[0]) + (EscapeAll(bs[1..]) + rest);
      EscapeRoundTrip(bs[0], EscapeAll(bs[1..]) + rest);
      Utf8RoundTrip(c);
      assert SequenceLength(bs[0]) == |bs|;
      UnescapeNRoundTrip(bs, rest);
    }
  }

  lemma Split64(q: int, r: int)
    requires 0 <= q && 0 <= r < 64
    ensures (q * 64 + r) / 64 == q && (q * 64 + r) % 64 == r
  {
  }

  /** Whatever the decoder accepts is the canonical encoding of what it
      returns: no overlong form, no surrogate and no stray octet gets through. */
  lemma DecodeUtf8Canonical(bs: seq<Byte>)
    requires DecodeUtf8(bs).Some?
    ensures Utf8(DecodeUtf8(bs).value) == bs
  {
    var cp := CodePoint(bs);
    assert forall i :: 1 <= i < |bs| ==> IsContinuation(bs[i]);
    var b0: int := bs[0];
    if |bs| == 2 {
      var b1: int := bs[1];
      Split64(b0 - 0xC0, b1 - 0x80);
      assert Utf8(cp as char) == [b0, b1];
    } else if |bs| == 3 {
      var b1: int, b2: int := bs[1], bs[2];
      var hi := (b0 - 0xE0) * 64 + (b1 - 0x80);
      Split64(hi, b2 - 0x80);
      Split64(b0 - 0xE0, b1 - 0x80);
      assert cp / 64 == hi;
      assert cp / 4096 == cp / 64 / 64;
      assert Utf8(cp as char) == [b0, b1, b2];
    } else if |bs| == 4 {
      var b1: int, b2: int, b3: int := bs[1], bs[2], bs[3];
      var top := (b0 - 0xF0) * 64 + (b1 - 0x80);
      var hi := top * 64 + (b2 - 0x80);
      Split64(hi, b3 - 0x80);
      Split64(top, b2 - 0x80);
      Split64(b0 - 0xF0, b1 - 0x80);
      assert cp / 64 == hi;
      assert cp / 4096 == cp / 64 / 64;
      assert cp / 262144 == cp / 4096 / 64;
      assert Utf8(cp as char) == [b0, b1, b2, b3];
    }
  }

  /** The decoder accepts exactly the UTF-8 encodings of characters, each
      standing for its own character. */
  lemma DecodeUtf8Exact(bs: seq<Byte>, c: char)
    ensures DecodeUtf8(bs) == Some(c) <==> bs == Utf8(c)
  {
    Utf8RoundTrip(c);
    if DecodeUtf8(bs) == Some(c) {
      DecodeUtf8Canonical(bs);
    }
  }

  /** `decodeURIComponent(encodeURIComponent(s)) === s`. */
  lemma {:induction false} DecodeEncode(s: string)
    ensures DecodeUriComponent(EncodeUriComponent(s)) == Some(s)
  {
    if |s| > 0 {
      var e := EncodeUriComponent(s);
      var head := EncodeChar(s[0]);
      var tail := EncodeUriComponent(s[1..]);
      assert e == head + tail;
      EncodeCharRoundTrip(s[0], tail);
      DecodeEncode(s[1..]);
      if IsUnreserved(s[0]) {
        assert e[1..] == tail;
      } else {
        assert e[|head|..] == tail;
      }
      assert [s[0]] + s[1..] == s;
    }
  }
}
