/** `encodeURIComponent` of the URI handling functions of ECMA-262 (section 19.2.6): every
    character outside the unescaped set becomes the `%XY` escapes of its UTF-8 bytes, with
    upper-case hexadecimal digits. `Decode` is the matching `decodeURIComponent`, which fails
    (a `URIError`) on a malformed escape or an invalid UTF-8 sequence. */
module UriComponent {
  import opened Wrappers

  /** The characters `encodeURIComponent` leaves as they are: ASCII letters and digits and
      `- _ . ! ~ * ' ( )`. */
  predicate IsUnescaped(c: char) {
    ('A' <= c <= 'Z') || ('a' <= c <= 'z') || ('0' <= c <= '9') || c in "-_.!~*'()"
  }

  const HexDigits: string := "0123456789ABCDEF"

  predicate IsByte(b: int) {
    0 <= b < 256
  }

  /** A Unicode scalar value: what Dafny's `char` holds. */
  predicate IsScalarValue(cp: int) {
    (0 <= cp < 0xD800) || (0xE000 <= cp < 0x11_0000)
  }

  /** The value of a hexadecimal digit, either case. */
  function HexValue(c: char): (r: Option<int>)
    ensures r.Some? ==> 0 <= r.value < 16
  {
    if '0' <= c <= '9' then Some(c as int - '0' as int)
    else if 'A' <= c <= 'F' then Some(c as int - 'A' as int + 10)
    else if 'a' <= c <= 'f' then Some(c as int - 'a' as int + 10)
    else None
  }

  /** One byte as `%XY`. */
  function Escape(b: int): string
    requires IsByte(b)
  {
    ['%', HexDigits[b / 16], HexDigits[b % 16]]
  }

  /** A sequence of bytes as consecutive escapes. */
  function EscapeAll(bytes: seq<int>): (r: string)
    requires forall i :: 0 <= i < |bytes| ==> IsByte(bytes[i])
    ensures |r| == 3 * |bytes|
  {
    if bytes == [] then [] else Escape(bytes[0]) + EscapeAll(bytes[1..])
  }

  /** The UTF-8 encoding of a code point, one to four bytes. */
  function Utf8(cp: int): (r: seq<int>)
    requires IsScalarValue(cp)
    ensures 1 <= |r| <= 4
    ensures forall i :: 0 <= i < |r| ==> IsByte(r[i])
  {
    var q1, r0 := cp / 64, cp % 64;
    var q2, r1 := q1 / 64, q1 % 64;
    var q3, r2 := q2 / 64, q2 % 64;
    if cp < 0x80 then [cp]
    else if cp < 0x800 then [0xC0 + q1, 0x80 + r0]
    else if cp < 0x1_0000 then [0xE0 + q2, 0x80 + r1, 0x80 + r0]
    else [0xF0 + q3, 0x80 + r2, 0x80 + r1, 0x80 + r0]
  }

  function EncodeChar(c: char): (r: string)
    ensures 1 <= |r|
  {
    if IsUnescaped(c) then [c] else EscapeAll(Utf8(c as int))
  }

  /** `encodeURIComponent`. Dafny strings hold no lone surrogates, so it cannot fail here. */
  function Encode(s: string): (r: string)
    ensures |r| >= |s|
  {
    if s == [] then [] else EncodeChar(s[0]) + Encode(s[1..])
  }

  /** The byte of a leading `%XY`. */
  function ReadEscape(s: string): (r: Option<int>)
    ensures r.Some? ==> |s| >= 3 && IsByte(r.value)
  {
    if |s| < 3 || s[0] != '%' then None
    else match (HexValue(s[1]), HexValue(s[2]))
      case (Some(hi), Some(lo)) => Some(hi * 16 + lo)
      case _ => None
  }

  /** `n` leading escapes. */
  function ReadEscapes(s: string, n: nat): (r: Option<seq<int>>)
    ensures r.Some? ==> |r.value| == n && 3 * n <= |s|
    ensures r.Some? ==> forall i :: 0 <= i < n ==> IsByte(r.value[i])
  {
    if n == 0 then Some([])
    else match ReadEscape(s)
      case None => None
      case Some(b) =>
        match ReadEscapes(s[3..], n - 1)
        case None => None
        case Some(bs) => Some([b] + bs)
  }

  /** The length of the UTF-8 sequence a lead byte announces, or 0 for a byte that cannot lead. */
  function SequenceLength(lead: int): (n: nat)
    ensures n <= 4
  {
    if lead < 0x80 then 1
    else if 0xC0 <= lead < 0xE0 then 2
    else if 0xE0 <= lead < 0xF0 then 3
    else if 0xF0 <= lead < 0xF8 then 4
    else 0
  }

  predicate IsContinuation(b: int) {
    0x80 <= b < 0xC0
  }

  /** The code point a UTF-8 sequence encodes, rejecting bad continuation bytes, overlong
      forms, surrogates and values past U+10FFFF. */
  function CodePoint(bytes: seq<int>): (r: Option<int>)
    requires 1 <= |bytes| <= 4 && SequenceLength(bytes[0]) == |bytes|
    requires forall i :: 0 <= i < |bytes| ==> IsByte(bytes[i])
    ensures r.Some? ==> IsScalarValue(r.value)
  {
    if |bytes| == 1 then assert IsByte(bytes[0]) && bytes[0] < 0x80; Some(bytes[0])
    else if exists i :: 1 <= i < |bytes| && !IsContinuation(bytes[i]) then None
    else if |bytes| == 2 then
      var cp := (bytes[0] - 0xC0) * 64 + (bytes[1] - 0x80);
      if cp < 0x80 then None else Some(cp)
    else if |bytes| == 3 then
      var cp := ((bytes[0] - 0xE0) * 64 + (bytes[1] - 0x80)) * 64 + (bytes[2] - 0x80);
      if cp < 0x800 || (0xD800 <= cp < 0xE000) then None else Some(cp)
    else
      var cp := (((bytes[0] - 0xF0) * 64 + (bytes[1] - 0x80)) * 64 + (bytes[2] - 0x80)) * 64 + (bytes[3] - 0x80);
      if cp < 0x1_0000 || cp >= 0x11_0000 then None else Some(cp)
  }

  /** The first character of an encoded string and how many characters it took. */
  function DecodeOne(s: string): (r: Option<(char, nat)>)
    requires |s| > 0
    ensures r.Some? ==> 1 <= r.value.1 <= |s|
  {
    if s[0] != '%' then Some((s[0], 1))
    else match ReadEscape(s)
      case None => None
      case Some(lead) =>
        var n := SequenceLength(lead);
        if n == 0 then None
        else match ReadEscapes(s, n)
          case None => None
          case Some(bytes) =>
            match CodePoint(bytes)
            case None => None
            case Some(cp) => Some((cp as char, 3 * n))
  }

  /** `decodeURIComponent`: `None` where it throws a `URIError`. */
  function Decode(s: string): (r: Option<string>)
    decreases |s|
  {
    if s == [] then Some([])
    else match DecodeOne(s)
      case None => None
      case Some((c, n)) =>
        match Decode(s[n..])
        case None => None
        case Some(rest) => Some([c] + rest)
  }

  lemma HexRoundTrip(d: int)
    requires 0 <= d < 16
    ensures HexValue(HexDigits[d]) == Some(d)
  {
  }

  lemma ReadEscapeOfEscape(b: int, rest: string)
    requires IsByte(b)
    ensures ReadEscape(Escape(b) + rest) == Some(b)
  {
    HexRoundTrip(b / 16);
    HexRoundTrip(b % 16);
  }

  lemma {:induction false} ReadEscapesOfEscapeAll(bytes: seq<int>, rest: string)
    requires forall i :: 0 <= i < |bytes| ==> IsByte(bytes[i])
    ensures ReadEscapes(EscapeAll(bytes) + rest, |bytes|) == Some(bytes)
    decreases |bytes|
  {
    if bytes != [] {
      var s := EscapeAll(bytes) + rest;
      assert s == Escape(bytes[0]) + (EscapeAll(bytes[1..]) + rest);
      ReadEscapeOfEscape(bytes[0], EscapeAll(bytes[1..]) + rest);
      assert s[3..] == EscapeAll(bytes[1..]) + rest;
      ReadEscapesOfEscapeAll(bytes[1..], rest);
      assert [bytes[0]] + bytes[1..] == bytes;
    }
  }

  /** UTF-8 decoding undoes UTF-8 encoding, and the lead byte announces the right length. */
  lemma Utf8RoundTrip(cp: int)
    requires IsScalarValue(cp)
    ensures SequenceLength(Utf8(cp)[0]) == |Utf8(cp)|
    ensures CodePoint(Utf8(cp)) == Some(cp)
  {
    var q1, r0 := cp / 64, cp % 64;
    var q2, r1 := q1 / 64, q1 % 64;
    var q3, r2 := q2 / 64, q2 % 64;
    assert cp == q1 * 64 + r0;
    assert q1 == q2 * 64 + r1;
    assert q2 == q3 * 64 + r2;
    var u := Utf8(cp);
    if cp < 0x80 {
    } else if cp < 0x800 {
      assert 2 <= q1 < 32;
      assert u == [0xC0 + q1, 0x80 + r0];
    } else if cp < 0x1_0000 {
      assert q2 < 16;
      assert u == [0xE0 + q2, 0x80 + r1, 0x80 + r0];
      assert forall i :: 1 <= i < |u| ==> IsContinuation(u[i]);
      assert ((u[0] - 0xE0) * 64 + (u[1] - 0x80)) * 64 + (u[2] - 0x80) == cp;
    } else {
      assert q1 < 0x4400;
      assert q2 < 0x110;
      assert q3 < 5;
      assert u == [0xF0 + q3, 0x80 + r2, 0x80 + r1, 0x80 + r0];
      assert forall i :: 1 <= i < |u| ==> IsContinuation(u[i]);
      assert (((u[0] - 0xF0) * 64 + (u[1] - 0x80)) * 64 + (u[2] - 0x80)) * 64 + (u[3] - 0x80) == cp;
    }
  }

  /** Reading `n >= 1` escapes successfully means the text starts with an escape of the first
      byte read. */
  lemma FirstEscape(s: string, n: nat, bytes: seq<int>)
    requires n >= 1 && ReadEscapes(s, n) == Some(bytes)
    ensures |s| >= 3 && s[0] == '%' && ReadEscape(s) == Some(bytes[0])
  {
    var b := ReadEscape(s).value;
    var bs := ReadEscapes(s[3..], n - 1).value;
    assert bytes == [b] + bs;
  }

  /** The escapes of a character's UTF-8 bytes decode to that character. */
  lemma DecodeOneOfEscapedChar(c: char, rest: string)
    ensures DecodeOne(EscapeAll(Utf8(c as int)) + rest) == Some((c, 3 * |Utf8(c as int)|))
  {
    var u := Utf8(c as int);
    var s := EscapeAll(u) + rest;
    Utf8RoundTrip(c as int);
    ReadEscapesOfEscapeAll(u, rest);
    FirstEscape(s, |u|, u);
    assert SequenceLength(u[0]) == |u| != 0;
    assert CodePoint(u) == Some(c as int);
    assert (c as int) as char == c;
  }

  lemma DecodeOneOfEncodeChar(c: char, rest: string)
    ensures DecodeOne(EncodeChar(c) + rest) == Some((c, |EncodeChar(c)|))
  {
    if IsUnescaped(c) {
      assert c != '%';
      assert (EncodeChar(c) + rest)[0] == c;
    } else {
      DecodeOneOfEscapedChar(c, rest);
    }
  }

  /** `decodeURIComponent(encodeURIComponent(s)) == s`. */
  lemma {:induction false} DecodeEncode(s: string)
    ensures Decode(Encode(s)) == Some(s)
    decreases |s|
  {
    if s != [] {
      var head := EncodeChar(s[0]);
      var e := Encode(s);
      assert e == head + Encode(s[1..]);
      DecodeOneOfEncodeChar(s[0], Encode(s[1..]));
      assert e[|head|..] == Encode(s[1..]);
      DecodeEncode(s[1..]);
      assert [s[0]] + s[1..] == s;
    }
  }

  /** Different strings encode differently. */
  lemma EncodeInjective(s: string, t: string)
    requires Encode(s) == Encode(t)
    ensures s == t
  {
    DecodeEncode(s);
    DecodeEncode(t);
  }

  /** Characters that may appear in an encoded string. */
  predicate IsEncodedChar(c: char) {
    IsUnescaped(c) || c == '%' || c in HexDigits
  }

  lemma {:induction false} EscapeAllChars(bytes: seq<int>)
    requires forall i :: 0 <= i < |bytes| ==> IsByte(bytes[i])
    ensures forall i :: 0 <= i < |EscapeAll(bytes)| ==> IsEncodedChar(EscapeAll(bytes)[i])
    decreases |bytes|
  {
    if bytes != [] {
      EscapeAllChars(bytes[1..]);
      var e := EscapeAll(bytes);
      assert e == Escape(bytes[0]) + EscapeAll(bytes[1..]);
      forall i | 0 <= i < |e| ensures IsEncodedChar(e[i]) {
        if i >= 3 {
          assert e[i] == EscapeAll(bytes[1..])[i - 3];
        }
      }
    }
  }

  /** An encoded string consists of unescaped characters, `%` and upper-case hexadecimal
      digits only. */
  lemma {:induction false} EncodeAlphabet(s: string)
    ensures forall i :: 0 <= i < |Encode(s)| ==> IsEncodedChar(Encode(s)[i])
    decreases |s|
  {
    if s != [] {
      EncodeAlphabet(s[1..]);
      if !IsUnescaped(s[0]) {
        EscapeAllChars(Utf8(s[0] as int));
      }
      var head := EncodeChar(s[0]);
      var e := Encode(s);
      assert e == head + Encode(s[1..]);
      forall i | 0 <= i < |e| ensures IsEncodedChar(e[i]) {
        if i >= |head| {
          assert e[i] == Encode(s[1..])[i - |head|];
        }
      }
    }
  }

  lemma EncodedCharIsNoDelimiter(c: char)
    requires IsEncodedChar(c)
    ensures c != '&' && c != '=' && c != '#' && c != ' '
  {
    if c in HexDigits {
      var i :| 0 <= i < |HexDigits| && HexDigits[i] == c;
    }
  }

  /** An encoded string holds none of the characters that delimit URL query parameters or the
      fragment, nor a space. */
  lemma EncodeHasNoDelimiters(s: string)
    ensures '&' !in Encode(s) && '=' !in Encode(s) && '#' !in Encode(s) && ' ' !in Encode(s)
  {
    var e := Encode(s);
    EncodeAlphabet(s);
    forall i | 0 <= i < |e| ensures e[i] != '&' && e[i] != '=' && e[i] != '#' && e[i] != ' ' {
      EncodedCharIsNoDelimiter(e[i]);
    }
  }
}
