/** `encodeURIComponent`, the built-in of ECMA-262 (section 19.2.6 of recent
    editions, "URI Handling Functions"), which the WhatsApp link builder applies
    to its message, and its inverse `decodeURIComponent`.

    A Dafny `char` is a Unicode scalar value, so the lone surrogates on which
    `encodeURIComponent` throws a URIError cannot be written down here: on every
    string of this model the encoding succeeds. A character outside the
    unreserved set is written as the UTF-8 bytes of its code point, each as `%`
    and two upper-case hexadecimal digits. */
module UriEncoding {
  import opened Wrappers

  /** The characters `encodeURIComponent` keeps as they are: ASCII letters,
      decimal digits and the marks `-_.!~*'()`. */
  predicate IsUnreserved(c: char) {
    ('a' <= c <= 'z') || ('A' <= c <= 'Z') || ('0' <= c <= '9') ||
    c == '-' || c == '_' || c == '.' || c == '!' || c == '~' ||
    c == '*' || c == '\'' || c == '(' || c == ')'
  }

  const HexDigits: string := "0123456789ABCDEF"

  /** What can appear in an encoded string: unreserved characters, `%` and
      upper-case hex digits. In particular never `&`, `#`, `=`, `+` or a space. */
  predicate IsEncodedChar(c: char) {
    IsUnreserved(c) || c == '%' || c in HexDigits
  }

  predicate IsScalarValue(cp: int) {
    (0 <= cp < 0xD800) || (0xE000 <= cp < 0x11_0000)
  }

  predicate IsByte(b: int) {
    0 <= b < 256
  }

  // ---------------------------------------------------------------------------
  // Encoding

  /** The UTF-8 bytes of a code point. Each division by 64 peels off the six
      bits that go into one continuation byte. */
  function Utf8(cp: int): (r: seq<int>)
    requires 0 <= cp < 0x11_0000
    ensures 1 <= |r| <= 4
    ensures forall i :: 0 <= i < |r| ==> IsByte(r[i])
  {
    if cp < 0x80 then [cp]
    else if cp < 0x800 then [0xC0 + cp / 64, 0x80 + cp % 64]
    else if cp < 0x1_0000 then [0xE0 + cp / 64 / 64, 0x80 + cp / 64 % 64, 0x80 + cp % 64]
    else [0xF0 + cp / 64 / 64 / 64, 0x80 + cp / 64 / 64 % 64, 0x80 + cp / 64 % 64, 0x80 + cp % 64]
  }

  function PercentByte(b: int): (r: string)
    requires IsByte(b)
    ensures |r| == 3 && r[0] == '%'
  {
    ['%', HexDigits[b / 16], HexDigits[b % 16]]
  }

  function PercentBytes(bs: seq<int>): (r: string)
    requires forall i :: 0 <= i < |bs| ==> IsByte(bs[i])
    ensures |r| == 3 * |bs|
    ensures forall i :: 0 <= i < |r| ==> r[i] == '%' || r[i] in HexDigits
  {
    if bs == [] then []
    else PercentByte(bs[0]) + PercentBytes(bs[1..])
  }

  function EncodeChar(c: char): (r: string)
    ensures 1 <= |r|
    ensures |r| == 1 <==> IsUnreserved(c)
    ensures forall i :: 0 <= i < |r| ==> IsEncodedChar(r[i])
  {
    if IsUnreserved(c) then [c] else PercentBytes(Utf8(c as int))
  }

  /** `encodeURIComponent(s)`: never shorter than its input, and made only of
      characters that carry no meaning inside a URL query. */
  function EncodeURIComponent(s: string): (r: string)
    ensures |r| >= |s|
    ensures forall i :: 0 <= i < |r| ==> IsEncodedChar(r[i])
  {
    if s == [] then []
    else EncodeChar(s[0]) + EncodeURIComponent(s[1..])
  }

  // ---------------------------------------------------------------------------
  // Decoding (the `Decode` operation with an empty reserved set)

  function HexValue(c: char): (r: Option<int>)
    ensures r.Some? ==> 0 <= r.value < 16
  {
    if '0' <= c <= '9' then Some(c as int - '0' as int)
    else if 'A' <= c <= 'F' then Some(c as int - 'A' as int + 10)
    else if 'a' <= c <= 'f' then Some(c as int - 'a' as int + 10)
    else None
  }

  /** One `%XY` escape: the byte it stands for. */
  function ParseEscape(t: string): (r: Option<int>)
    requires |t| == 3
    ensures r.Some? ==> IsByte(r.value)
  {
    if t[0] != '%' then None
    else
      var hi :- HexValue(t[1]);
      var lo :- HexValue(t[2]);
      Some(16 * hi + lo)
  }

  /** `n` escapes in a row, from the start of `s`. */
  function ReadEscapes(s: string, n: nat): (r: Option<seq<int>>)
    requires 3 * n <= |s|
    ensures r.Some? ==> |r.value| == n && forall i :: 0 <= i < n ==> IsByte(r.value[i])
  {
    if n == 0 then Some([])
    else
      var b :- ParseEscape(s[..3]);
      var rest :- ReadEscapes(s[3..], n - 1);
      Some([b] + rest)
  }

  /** How many bytes a UTF-8 sequence with this first byte has; none for a
      continuation byte or a byte that starts no sequence. */
  function SequenceLength(b: int): Option<nat> {
    if 0 <= b < 0x80 then Some(1)
    else if 0xC0 <= b < 0xE0 then Some(2)
    else if 0xE0 <= b < 0xF0 then Some(3)
    else if 0xF0 <= b < 0xF8 then Some(4)
    else None
  }

  predicate IsContinuation(b: int) {
    0x80 <= b < 0xC0
  }

  /** The code point a UTF-8 sequence encodes; none for an overlong form, a
      surrogate or a value past U+10FFFF. */
  function Utf8Decode(bs: seq<int>): (r: Option<int>)
    ensures r.Some? ==> IsScalarValue(r.value)
  {
    if |bs| == 1 then
      if 0 <= bs[0] < 0x80 then Some(bs[0]) else None
    else if |bs| == 2 then
      var cp := (bs[0] - 0xC0) * 64 + (bs[1] - 0x80);
      if 0xC0 <= bs[0] < 0xE0 && IsContinuation(bs[1]) && 0x80 <= cp then Some(cp) else None
    else if |bs| == 3 then
      var cp := ((bs[0] - 0xE0) * 64 + (bs[1] - 0x80)) * 64 + (bs[2] - 0x80);
      if 0xE0 <= bs[0] < 0xF0 && IsContinuation(bs[1]) && IsContinuation(bs[2]) &&
         0x800 <= cp && !(0xD800 <= cp < 0xE000)
      then Some(cp) else None
    else if |bs| == 4 then
      var cp := (((bs[0] - 0xF0) * 64 + (bs[1] - 0x80)) * 64 + (bs[2] - 0x80)) * 64 + (bs[3] - 0x80);
      if 0xF0 <= bs[0] < 0xF8 && IsContinuation(bs[1]) && IsContinuation(bs[2]) &&
         IsContinuation(bs[3]) && 0x1_0000 <= cp < 0x11_0000
      then Some(cp) else None
    else None
  }

  /** `decodeURIComponent(s)`; `None` where it throws a URIError. */
  function DecodeURIComponent(s: string): (r: Option<string>)
    decreases |s|
  {
    if s == [] then Some([])
    else if s[0] != '%' then
      var rest :- DecodeURIComponent(s[1..]);
      Some([s[0]] + rest)
    else if |s| < 3 then None
    else
      var lead :- ParseEscape(s[..3]);
      var n :- SequenceLength(lead);
      if |s| < 3 * n then None
      else
        var bytes :- ReadEscapes(s, n);
        var cp :- Utf8Decode(bytes);
        var rest :- DecodeURIComponent(s[3 * n..]);
        Some([cp as char] + rest)
  }

  // ---------------------------------------------------------------------------
  // Properties

  lemma HexRoundTrip(d: int)
    requires 0 <= d < 16
    ensures HexValue(HexDigits[d]) == Some(d)
  {
  }

  lemma EscapeRoundTrip(b: int, t: string)
    requires IsByte(b)
    ensures ParseEscape((PercentByte(b) + t)[..3]) == Some(b)
  {
    assert (PercentByte(b) + t)[..3] == PercentByte(b);
    HexRoundTrip(b / 16);
    HexRoundTrip(b % 16);
  }

  lemma {:induction false} ReadEscapesRoundTrip(bs: seq<int>, t: string)
    requires forall i :: 0 <= i < |bs| ==> IsByte(bs[i])
    ensures ReadEscapes(PercentBytes(bs) + t, |bs|) == Some(bs)
  {
    if bs != [] {
      var rest := PercentBytes(bs[1..]) + t;
      var s := PercentBytes(bs) + t;
      assert s == PercentByte(bs[0]) + rest;
      EscapeRoundTrip(bs[0], rest);
      assert s[3..] == rest;
      ReadEscapesRoundTrip(bs[1..], t);
      assert ReadEscapes(s, |bs|) == Some([bs[0]] + bs[1..]);
      assert [bs[0]] + bs[1..] == bs;
    }
  }

  lemma Utf8RoundTrip(cp: int)
    requires IsScalarValue(cp)
    ensures Utf8Decode(Utf8(cp)) == Some(cp)
    ensures SequenceLength(Utf8(cp)[0]) == Some(|Utf8(cp)|)
  {
  }

  /** A string that starts with the escapes of a whole UTF-8 sequence decodes
      to that code point followed by the decoding of the rest. */
  lemma DecodeEscapedSequence(cp: int, t: string)
    requires IsScalarValue(cp)
    ensures var s := PercentBytes(Utf8(cp)) + t;
      DecodeURIComponent(s) ==
        match DecodeURIComponent(t)
        case Some(rest) => Some([cp as char] + rest)
        case None => None
  {
    var bs := Utf8(cp);
    var n := |bs|;
    var s := PercentBytes(bs) + t;
    assert s == PercentByte(bs[0]) + (PercentBytes(bs[1..]) + t);
    EscapeRoundTrip(bs[0], PercentBytes(bs[1..]) + t);
    Utf8RoundTrip(cp);
    ReadEscapesRoundTrip(bs, t);
    assert s[3 * n..] == t;
    assert s[0] == '%' && |s| >= 3 * n >= 3;
    assert ParseEscape(s[..3]) == Some(bs[0]);
    assert SequenceLength(bs[0]) == Some(n);
    assert ReadEscapes(s, n) == Some(bs);
    assert Utf8Decode(bs) == Some(cp);
  }

  /** Decoding the encoding of one character gives the character back, and
      decoding then carries on with whatever follows. */
  lemma DecodeEncodedChar(c: char, t: string)
    ensures DecodeURIComponent(EncodeChar(c) + t) ==
      match DecodeURIComponent(t)
      case Some(rest) => Some([c] + rest)
      case None => None
  {
    var s := EncodeChar(c) + t;
    if IsUnreserved(c) {
      assert s[0] == c && s[1..] == t;
    } else {
      DecodeEscapedSequence(c as int, t);
      assert (c as int) as char == c;
    }
  }

  /** `decodeURIComponent(encodeURIComponent(s)) == s`: the encoding loses nothing. */
  lemma {:induction false} DecodeEncode(s: string)
    ensures DecodeURIComponent(EncodeURIComponent(s)) == Some(s)
  {
    if s != [] {
      DecodeEncode(s[1..]);
      DecodeEncodedChar(s[0], EncodeURIComponent(s[1..]));
      assert [s[0]] + s[1..] == s;
    }
  }

  /** Two strings with the same encoding are equal. */
  lemma EncodeInjective(s: string, t: string)
    requires EncodeURIComponent(s) == EncodeURIComponent(t)
    ensures s == t
  {
    DecodeEncode(s);
    DecodeEncode(t);
  }

  /** The encoding leaves a string unchanged exactly when every character of it
      is unreserved. */
  lemma {:induction false} EncodeIsIdentityIff(s: string)
    ensures EncodeURIComponent(s) == s <==> forall i :: 0 <= i < |s| ==> IsUnreserved(s[i])
  {
    if s != [] {
      EncodeIsIdentityIff(s[1..]);
      var e := EncodeURIComponent(s);
      assert e == EncodeChar(s[0]) + EncodeURIComponent(s[1..]);
      if IsUnreserved(s[0]) {
        assert e[1..] == EncodeURIComponent(s[1..]);
        assert (forall i :: 0 <= i < |s| ==> IsUnreserved(s[i])) <==>
               (forall i :: 0 <= i < |s[1..]| ==> IsUnreserved(s[1..][i]));
      } else {
        assert |e| > |s|;
      }
    }
  }

  /** Encoding a concatenation encodes each part. */
  lemma {:induction false} EncodeConcat(a: string, b: string)
    ensures EncodeURIComponent(a + b) == EncodeURIComponent(a) + EncodeURIComponent(b)
  {
    if a == [] {
      assert a + b == b;
    } else {
      assert (a + b)[0] == a[0] && (a + b)[1..] == a[1..] + b;
      EncodeConcat(a[1..], b);
      calc {
        EncodeURIComponent(a + b);
        EncodeChar(a[0]) + EncodeURIComponent(a[1..] + b);
        EncodeChar(a[0]) + (EncodeURIComponent(a[1..]) + EncodeURIComponent(b));
        (EncodeChar(a[0]) + EncodeURIComponent(a[1..])) + EncodeURIComponent(b);
      }
    }
  }
}
