/** UTF-8, as `str.encode()` and `bytes.decode()` use it for the channel part
    of a bus frame. Decoding is strict: overlong forms, surrogates, code points
    above U+10FFFF and truncated sequences are rejected. */
module Utf8 {
  import opened Py

  type byte = x: int | 0 <= x < 256

  /** The encoding of one character: one to four bytes. */
  function EncodeChar(c: char): (r: seq<byte>)
    ensures 1 <= |r| <= 4
  {
    var n := c as int;
    if n < 0x80 then [n]
    else if n < 0x800 then [0xC0 + n / 64, 0x80 + n % 64]
    else if n < 0x10000 then [0xE0 + (n / 64) / 64, 0x80 + (n / 64) % 64, 0x80 + n % 64]
    else [0xF0 + ((n / 64) / 64) / 64, 0x80 + ((n / 64) / 64) % 64, 0x80 + (n / 64) % 64, 0x80 + n % 64]
  }

  /** `s.encode()`. */
  function Encode(s: string): (r: seq<byte>)
    ensures |r| >= |s|
  {
    if s == [] then [] else EncodeChar(s[0]) + Encode(s[1..])
  }

  predicate IsCont(b: byte) { 0x80 <= b < 0xC0 }

  /** The character a well-formed sequence at the head of b encodes, and how
      many bytes it takes; None if the head is not well formed. */
  function DecodeHead(b: seq<byte>): (r: Option<(char, nat)>)
    requires |b| > 0
    ensures r.Some? ==> 1 <= r.value.1 <= |b|
  {
    var b0: int := b[0];
    if b0 < 0x80 then Some((b0 as char, 1))
    else if 0xC2 <= b0 < 0xE0 && |b| >= 2 && IsCont(b[1]) then
      Some((((b0 - 0xC0) * 64 + (b[1] - 0x80)) as char, 2))
    else if 0xE0 <= b0 < 0xF0 && |b| >= 3 && IsCont(b[1]) && IsCont(b[2]) then
      var n: int := ((b0 - 0xE0) * 64 + (b[1] - 0x80)) * 64 + (b[2] - 0x80);
      if n < 0x800 || (0xD800 <= n < 0xE000) then None else Some((n as char, 3))
    else if 0xF0 <= b0 < 0xF5 && |b| >= 4 && IsCont(b[1]) && IsCont(b[2]) && IsCont(b[3]) then
      var n: int := (((b0 - 0xF0) * 64 + (b[1] - 0x80)) * 64 + (b[2] - 0x80)) * 64 + (b[3] - 0x80);
      if n < 0x10000 || n > 0x10FFFF then None else Some((n as char, 4))
    else None
  }

  /** `b.decode()`: the string, or None where Python raises UnicodeDecodeError. */
  function Decode(b: seq<byte>): (r: Option<string>)
    decreases |b|
  {
    if b == [] then Some([])
    else match DecodeHead(b)
      case None => None
      case Some((c, k)) =>
        match Decode(b[k..])
        case None => None
        case Some(s) => Some([c] + s)
  }

  lemma DivMod64(n: int, q: int, r: int)
    requires 0 <= r < 64 && n == q * 64 + r
    ensures n / 64 == q && n % 64 == r
  {
  }

  /** The head of an encoded character decodes to that character. */
  lemma DecodeHeadOfEncodeChar(c: char, rest: seq<byte>)
    ensures DecodeHead(EncodeChar(c) + rest) == Some((c, |EncodeChar(c)|))
  {
    var n := c as int;
    var b: seq<int> := EncodeChar(c) + rest;
    var q1, r1 := n / 64, n % 64;
    var q2, r2 := q1 / 64, q1 % 64;
    var q3, r3 := q2 / 64, q2 % 64;
    if n < 0x80 {
    } else if n < 0x800 {
      assert b[0] == 0xC0 + q1 && b[1] == 0x80 + r1;
      assert (b[0] - 0xC0) * 64 + (b[1] - 0x80) == n;
    } else if n < 0x10000 {
      assert b[0] == 0xE0 + q2 && b[1] == 0x80 + r2 && b[2] == 0x80 + r1;
      assert ((b[0] - 0xE0) * 64 + (b[1] - 0x80)) * 64 + (b[2] - 0x80) == n;
    } else {
      assert b[0] == 0xF0 + q3 && b[1] == 0x80 + r3 && b[2] == 0x80 + r2 && b[3] == 0x80 + r1;
      assert (((b[0] - 0xF0) * 64 + (b[1] - 0x80)) * 64 + (b[2] - 0x80)) * 64 + (b[3] - 0x80) == n;
    }
  }

  /** Decoding what `str.encode()` produced gives back the string. */
  lemma {:induction false} DecodeEncode(s: string)
    ensures Decode(Encode(s)) == Some(s)
  {
    if s != [] {
      var e := EncodeChar(s[0]);
      DecodeHeadOfEncodeChar(s[0], Encode(s[1..]));
      assert (e + Encode(s[1..]))[|e|..] == Encode(s[1..]);
      DecodeEncode(s[1..]);
      assert [s[0]] + s[1..] == s;
    }
  }

  /** A well-formed head is exactly the encoding of the character it decodes to. */
  lemma EncodeCharOfDecodeHead(b: seq<byte>)
    requires |b| > 0 && DecodeHead(b).Some?
    ensures EncodeChar(DecodeHead(b).value.0) == b[..DecodeHead(b).value.1]
  {
    var b0: int := b[0];
    if b0 < 0x80 {
    } else if 0xC2 <= b0 < 0xE0 && |b| >= 2 && IsCont(b[1]) {
      var n: int := (b0 - 0xC0) * 64 + (b[1] - 0x80);
      DivMod64(n, b0 - 0xC0, b[1] - 0x80);
    } else if 0xE0 <= b0 < 0xF0 && |b| >= 3 && IsCont(b[1]) && IsCont(b[2]) {
      var m: int := (b0 - 0xE0) * 64 + (b[1] - 0x80);
      var n: int := m * 64 + (b[2] - 0x80);
      DivMod64(n, m, b[2] - 0x80);
      DivMod64(m, b0 - 0xE0, b[1] - 0x80);
    } else {
      var m2: int := (b0 - 0xF0) * 64 + (b[1] - 0x80);
      var m: int := m2 * 64 + (b[2] - 0x80);
      var n: int := m * 64 + (b[3] - 0x80);
      DivMod64(n, m, b[3] - 0x80);
      DivMod64(m, m2, b[2] - 0x80);
      DivMod64(m2, b0 - 0xF0, b[1] - 0x80);
    }
  }

  /** Whatever decodes successfully is the encoding of what it decodes to, so
      two different byte strings never decode to the same channel name. */
  lemma {:induction false} EncodeDecode(b: seq<byte>)
    requires Decode(b).Some?
    ensures Encode(Decode(b).value) == b
    decreases |b|
  {
    if b != [] {
      var k := DecodeHead(b).value.1;
      EncodeCharOfDecodeHead(b);
      EncodeDecode(b[k..]);
      var s := Decode(b).value;
      assert s[1..] == Decode(b[k..]).value;
      assert b == b[..k] + b[k..];
    }
  }

  /** A string's encoding starts with the encoding of any of its prefixes. */
  lemma {:induction false} EncodePrefix(p: string, s: string)
    ensures Encode(p + s) == Encode(p) + Encode(s)
  {
    if p != [] {
      assert (p + s)[1..] == p[1..] + s;
      EncodePrefix(p[1..], s);
    } else {
      assert p + s == s;
    }
  }
}
