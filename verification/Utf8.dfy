/** UTF-8 (RFC 3629, section 3), strict: overlong forms, surrogates and values above U+10FFFF are
refused. A Dafny character is a Unicode scalar value. */
module Utf8 {
  import opened Wrappers

  type Byte = n: nat | n < 256

  function EncodeChar(c: char): (r: seq<Byte>)
    ensures 1 <= |r| <= 4
  {
    var n := c as int;
    if n < 0x80 then [n]
    else if n < 0x800 then [0xC0 + n / 0x40, 0x80 + n % 0x40]
    else if n < 0x1_0000 then [0xE0 + n / 0x40 / 0x40, 0x80 + n / 0x40 % 0x40, 0x80 + n % 0x40]
    else [0xF0 + n / 0x40 / 0x40 / 0x40, 0x80 + n / 0x40 / 0x40 % 0x40, 0x80 + n / 0x40 % 0x40, 0x80 + n % 0x40]
  }

  function Encode(s: string): seq<Byte> {
    if s == [] then [] else EncodeChar(s[0]) + Encode(s[1..])
  }

  predicate Continuation(b: Byte) {
    0x80 <= b < 0xC0
  }

  predicate Scalar(n: int) {
    0 <= n < 0xD800 || 0xE000 <= n < 0x11_0000
  }

  /** Six more bits, from a continuation byte. */
  function Shift(high: int, b: Byte): int {
    high * 0x40 + (b - 0x80)
  }

  /** The first character and the number of bytes it takes. */
  function DecodeChar(bs: seq<Byte>): (r: Option<(char, nat)>)
    ensures r.Some? ==> 1 <= r.value.1 <= |bs|
  {
    if |bs| == 0 then None
    else if bs[0] < 0x80 then Some((bs[0] as char, 1))
    else if 0xC0 <= bs[0] < 0xE0 && |bs| >= 2 && Continuation(bs[1]) then
      var n := Shift(bs[0] - 0xC0, bs[1]);
      if 0x80 <= n then Some((n as char, 2)) else None
    else if 0xE0 <= bs[0] < 0xF0 && |bs| >= 3 && Continuation(bs[1]) && Continuation(bs[2]) then
      var n := Shift(Shift(bs[0] - 0xE0, bs[1]), bs[2]);
      if 0x800 <= n && Scalar(n) then Some((n as char, 3)) else None
    else if 0xF0 <= bs[0] < 0xF8 && |bs| >= 4 && Continuation(bs[1]) && Continuation(bs[2]) && Continuation(bs[3]) then
      var n := Shift(Shift(Shift(bs[0] - 0xF0, bs[1]), bs[2]), bs[3]);
      if 0x1_0000 <= n && Scalar(n) then Some((n as char, 4)) else None
    else None
  }

  function Decode(bs: seq<Byte>): Option<string>
    decreases |bs|
  {
    if bs == [] then Some("")
    else
      match DecodeChar(bs)
      case None => None
      case Some((c, n)) =>
        match Decode(bs[n..])
        case None => None
        case Some(rest) => Some([c] + rest)
  }

  lemma ShiftDigits(high: int, b: Byte)
    requires Continuation(b)
    ensures Shift(high, b) / 0x40 == high && 0x80 + Shift(high, b) % 0x40 == b
  {}

  lemma DecodeEncodeChar(c: char, rest: seq<Byte>)
    ensures DecodeChar(EncodeChar(c) + rest) == Some((c, |EncodeChar(c)|))
  {
    var n := c as int;
    var (m, k) := (n / 0x40, n / 0x40 / 0x40);
    var bs := EncodeChar(c) + rest;
    if n < 0x80 {
      assert bs[0] == n;
    } else if n < 0x800 {
      assert bs[0] == 0xC0 + m && bs[1] == 0x80 + n % 0x40;
    } else if n < 0x1_0000 {
      assert bs[0] == 0xE0 + k && bs[1] == 0x80 + m % 0x40 && bs[2] == 0x80 + n % 0x40;
    } else {
      assert bs[0] == 0xF0 + k / 0x40 && bs[1] == 0x80 + k % 0x40 && bs[2] == 0x80 + m % 0x40 && bs[3] == 0x80 + n % 0x40;
    }
  }

  /** Decoding undoes encoding, for every text. */
  lemma {:induction false} DecodeEncode(s: string)
    ensures Decode(Encode(s)) == Some(s)
  {
    if s != [] {
      DecodeEncodeChar(s[0], Encode(s[1..]));
      assert Encode(s)[|EncodeChar(s[0])|..] == Encode(s[1..]);
      DecodeEncode(s[1..]);
      assert s == [s[0]] + s[1..];
    }
  }

  lemma EncodeDecodeChar(bs: seq<Byte>)
    requires DecodeChar(bs).Some?
    ensures bs[..DecodeChar(bs).value.1] == EncodeChar(DecodeChar(bs).value.0)
  {
    if bs[0] < 0x80 {
    } else if bs[0] < 0xE0 {
      ShiftDigits(bs[0] - 0xC0, bs[1]);
    } else if bs[0] < 0xF0 {
      ShiftDigits(bs[0] - 0xE0, bs[1]);
      ShiftDigits(Shift(bs[0] - 0xE0, bs[1]), bs[2]);
    } else {
      ShiftDigits(bs[0] - 0xF0, bs[1]);
      ShiftDigits(Shift(bs[0] - 0xF0, bs[1]), bs[2]);
      ShiftDigits(Shift(Shift(bs[0] - 0xF0, bs[1]), bs[2]), bs[3]);
    }
  }

  lemma EncodeCons(c: char, s: string)
    ensures Encode([c] + s) == EncodeChar(c) + Encode(s)
  {
    assert ([c] + s)[1..] == s;
  }

  lemma EncodeDecodeCons(bs: seq<Byte>, c: char, n: nat, rest: string)
    requires DecodeChar(bs) == Some((c, n)) && n <= |bs| && Encode(rest) == bs[n..]
    ensures Encode([c] + rest) == bs
  {
    EncodeDecodeChar(bs);
    EncodeCons(c, rest);
    assert bs == bs[..n] + bs[n..];
  }

  /** Only the encoding of a text decodes to it: the decoder accepts no other form. */
  lemma {:induction false} EncodeDecode(bs: seq<Byte>, s: string)
    requires Decode(bs) == Some(s)
    ensures Encode(s) == bs
    decreases |bs|
  {
    if bs != [] {
      var (c, n) := DecodeChar(bs).value;
      var rest := Decode(bs[n..]).value;
      EncodeDecode(bs[n..], rest);
      EncodeDecodeCons(bs, c, n, rest);
    }
  }

  lemma {:induction false} EncodeConcat(a: string, b: string)
    ensures Encode(a + b) == Encode(a) + Encode(b)
  {
    if a == [] {
      assert a + b == b;
    } else {
      assert (a + b)[1..] == a[1..] + b;
      EncodeConcat(a[1..], b);
    }
  }

  predicate Ascii(s: string) {
    forall c :: c in s ==> c as int < 0x80
  }

  /** A text is refused exactly when no text encodes to it. */
  lemma DecodeFails(bs: seq<Byte>)
    ensures Decode(bs).None? <==> forall s :: Encode(s) != bs
  {
    if s :| Encode(s) == bs {
      DecodeEncode(s);
    } else if Decode(bs).Some? {
      EncodeDecode(bs, Decode(bs).value);
    }
  }

  /** Characters of one to four bytes. */
  lemma Samples()
    ensures EncodeChar('A') == [0x41] && EncodeChar('\U{00E9}') == [0xC3, 0xA9]
    ensures EncodeChar('\U{20AC}') == [0xE2, 0x82, 0xAC] && EncodeChar('\U{01D11E}') == [0xF0, 0x9D, 0x84, 0x9E]
  {}

  lemma {:induction false} EncodeAscii(s: string)
    requires Ascii(s)
    ensures |Encode(s)| == |s| && forall i :: 0 <= i < |s| ==> Encode(s)[i] == s[i] as int
  {
    if s != [] {
      assert s[0] in s;
      forall c | c in s[1..] ensures c as int < 0x80 {
        assert c in s;
      }
      EncodeAscii(s[1..]);
    }
  }
}
