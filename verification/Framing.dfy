/** Length-prefixed framing of messages over a byte stream. */
module Framing {
  import opened Wrappers
  import opened Utf8
  import opened Protocol

  const MAX_MESSAGE := 10_000_000
  const U32 := 0x1_0000_0000

  /** The four bytes of a 32-bit length, most significant first. */
  function BigEndian(n: nat): (r: seq<Byte>)
    requires n < U32
    ensures |r| == 4
  {
    [n / 0x100 / 0x100 / 0x100, n / 0x100 / 0x100 % 0x100, n / 0x100 % 0x100, n % 0x100]
  }

  function FromBigEndian(bs: seq<Byte>): nat
    requires |bs| == 4
  {
    ((bs[0] as int * 0x100 + bs[1]) * 0x100 + bs[2]) * 0x100 + bs[3]
  }

  lemma BigEndianRoundTrip(n: nat)
    requires n < U32
    ensures FromBigEndian(BigEndian(n)) == n
  {}

  lemma LowByte(high: nat, b: Byte)
    ensures (high * 0x100 + b) / 0x100 == high && (high * 0x100 + b) % 0x100 == b
  {}

  lemma BytesBack(bs: seq<Byte>)
    requires |bs| == 4
    ensures FromBigEndian(bs) < U32 && BigEndian(FromBigEndian(bs)) == bs
  {
    var (one, two) := (bs[0] as int * 0x100 + bs[1], (bs[0] as int * 0x100 + bs[1]) * 0x100 + bs[2]);
    LowByte(two, bs[3]);
    LowByte(one, bs[2]);
    LowByte(bs[0], bs[1]);
  }

  /** The most significant byte comes first. */
  lemma ByteOrder(n: nat, bs: seq<Byte>)
    requires n < U32 && |bs| == 4
    ensures BigEndian(n) == bs <==> n == 16_777_216 * bs[0] as int + 65_536 * bs[1] as int + 256 * bs[2] as int + bs[3] as int
    ensures FromBigEndian(bs) == 16_777_216 * bs[0] as int + 65_536 * bs[1] as int + 256 * bs[2] as int + bs[3] as int
  {
    BytesBack(bs);
    BigEndianRoundTrip(n);
  }

  /** What both writers send: the body's length cut to 32 bits, then the body. */
  function Frame(m: TcpMessage): seq<Byte> {
    var body := Encode(ToString(m));
    BigEndian(|body| % U32) + body
  }

  /** The outcome of one read, and what is left in the stream. When the peer closes the connection
  too early the rest is consumed. */
  function Read(bs: seq<Byte>): (Result<TcpMessage, ParseError>, seq<Byte>) {
    if |bs| < 4 then (Failure(Io), [])
    else
      var n := FromBigEndian(bs[..4]);
      if n > MAX_MESSAGE then (Failure(MsgTooBig), bs[4..])
      else if |bs| < 4 + n then (Failure(Io), [])
      else (Parse(bs[4..4 + n]), bs[4 + n..])
  }

  function Parse(body: seq<Byte>): Result<TcpMessage, ParseError> {
    match Decode(body)
    case None => Failure(BadUtf8)
    case Some(s) => FromString(s)
  }

  /** A connection: the bytes still to be read, up to where the peer closes, and those written. */
  class TcpStream {
    var incoming: seq<Byte>
    var outgoing: seq<Byte>

    constructor (input: seq<Byte>)
      ensures incoming == input && outgoing == []
    {
      incoming, outgoing := input, [];
    }

    /** Fills the whole buffer, however the bytes happen to arrive, or fails at the end of input. */
    method ReadExact(buf: array<Byte>) returns (ok: bool)
      modifies this`incoming, buf
      ensures ok <==> |old(incoming)| >= buf.Length
      ensures ok ==> buf[..] == old(incoming)[..buf.Length] && incoming == old(incoming)[buf.Length..]
      ensures !ok ==> incoming == []
    {
      var filled := 0;
      while filled < buf.Length && incoming != []
        modifies this`incoming, buf
        invariant filled <= buf.Length && filled <= |old(incoming)|
        invariant incoming == old(incoming)[filled..]
        invariant buf[..filled] == old(incoming)[..filled]
      {
        var n: nat :| 0 < n <= |incoming| && filled + n <= buf.Length;
        forall i | 0 <= i < n {
          buf[filled + i] := incoming[i];
        }
        incoming := incoming[n..];
        filled := filled + n;
      }
      ok := filled == buf.Length;
    }

    method ReadTcpMessage() returns (r: Result<TcpMessage, ParseError>)
      modifies this`incoming
      ensures (r, incoming) == Read(old(incoming))
    {
      var lenBuf := new Byte[4];
      var ok := ReadExact(lenBuf);
      if !ok {
        return Failure(Io);
      }
      var msgLen := FromBigEndian(lenBuf[..]);
      if msgLen > MAX_MESSAGE {
        return Failure(MsgTooBig);
      }
      var data := new Byte[msgLen];
      ok := ReadExact(data);
      if !ok {
        return Failure(Io);
      }
      assert data[..] == old(incoming)[4..4 + msgLen] && incoming == old(incoming)[4 + msgLen..];
      match Decode(data[..]) {
        case None => return Failure(BadUtf8);
        case Some(s) => return FromString(s);
      }
    }

    method SendTcpMessage(m: TcpMessage)
      modifies this`outgoing
      ensures outgoing == old(outgoing) + Frame(m)
    {
      var body := Encode(ToString(m));
      outgoing := outgoing + BigEndian(|body| % U32);
      outgoing := outgoing + body;
    }
  }

  // ----- main results -----

  /** The message can be framed: it fits the size limit and survives the text round trip. */
  predicate Framable(m: TcpMessage) {
    RoundTrippable(m) && Size(ToString(m)) <= MAX_MESSAGE
  }

  lemma ReadPrefixed(n: nat, tail: seq<Byte>)
    requires n < U32 && n <= |tail|
    ensures Read(BigEndian(n) + tail) ==
            if n > MAX_MESSAGE then (Failure(MsgTooBig), tail) else (Parse(tail[..n]), tail[n..])
  {
    var bs := BigEndian(n) + tail;
    BigEndianRoundTrip(n);
    assert bs[..4] == BigEndian(n) && bs[4..] == tail;
    if n <= MAX_MESSAGE {
      assert bs[4..4 + n] == tail[..n] && bs[4 + n..] == tail[n..];
    }
  }

  lemma ReadBody(body: seq<Byte>, n: nat, rest: seq<Byte>)
    requires n <= |body| && n < U32
    ensures Read(BigEndian(n) + (body + rest)) ==
            if n > MAX_MESSAGE then (Failure(MsgTooBig), body + rest) else (Parse(body[..n]), body[n..] + rest)
  {
    ReadPrefixed(n, body + rest);
    assert (body + rest)[..n] == body[..n] && (body + rest)[n..] == body[n..] + rest;
  }

  lemma FrameShape(m: TcpMessage, rest: seq<Byte>, body: seq<Byte>)
    requires body == Encode(ToString(m))
    ensures Frame(m) + rest == BigEndian(|body| % U32) + (body + rest)
  {}

  lemma ParseWhole(m: TcpMessage)
    ensures Parse(Encode(ToString(m))) == Success(m) <==> RoundTrippable(m)
  {
    DecodeEncode(ToString(m));
    RoundTrip(m);
  }

  /** Exact framing round trip, whatever follows in the stream: the reader returns the message if
  and only if it is framable, and then it leaves what follows untouched. A body of 2^32 bytes or
  more, whose length prefix wraps around, never reads back as itself. */
  lemma FrameRoundTrip(m: TcpMessage, rest: seq<Byte>)
    ensures Read(Frame(m) + rest).0 == Success(m) <==> Framable(m)
    ensures Framable(m) ==> Read(Frame(m) + rest).1 == rest
  {
    var body := Encode(ToString(m));
    FrameShape(m, rest, body);
    FramableBody(m, body);
    ReadCut(m, body, |body| % U32, rest, Frame(m) + rest);
    NotCut(|body|);
  }

  lemma NotCut(n: nat)
    ensures n % U32 == n && n % U32 <= MAX_MESSAGE <==> n <= MAX_MESSAGE
  {}

  lemma ReadCut(m: TcpMessage, body: seq<Byte>, n: nat, rest: seq<Byte>, bs: seq<Byte>)
    requires body == Encode(ToString(m)) && n <= |body| && n < U32 && bs == BigEndian(n) + (body + rest)
    ensures Read(bs).0 == Success(m) <==> n == |body| && n <= MAX_MESSAGE && RoundTrippable(m)
    ensures Read(bs).0 == Success(m) ==> Read(bs).1 == rest
  {
    ReadBody(body, n, rest);
    ParseCut(m, body, n);
    assert n == |body| ==> body[n..] + rest == rest;
  }

  lemma FramableBody(m: TcpMessage, body: seq<Byte>)
    requires body == Encode(ToString(m))
    ensures Framable(m) <==> RoundTrippable(m) && |body| <= MAX_MESSAGE
  {}

  lemma ParseCut(m: TcpMessage, body: seq<Byte>, n: nat)
    requires body == Encode(ToString(m)) && n <= |body|
    ensures Parse(body[..n]) == Success(m) <==> n == |body| && RoundTrippable(m)
  {
    if n == |body| {
      ParseWhole(m);
      assert body[..n] == body;
    } else {
      WrappedDiffers(m, body[..n]);
    }
  }

  /** No proper prefix of a message's bytes, read as a message, is that message. */
  lemma WrappedDiffers(m: TcpMessage, body: seq<Byte>)
    requires |body| < Size(ToString(m))
    ensures Parse(body) != Success(m)
  {
    if Parse(body) == Success(m) {
      WrappedIsShorter(m, body);
    }
  }

  lemma WrappedIsShorter(m: TcpMessage, body: seq<Byte>)
    requires Parse(body) == Success(m)
    ensures Size(ToString(m)) <= |body|
  {
    var s := Decode(body).value;
    EncodeDecode(body, s);
    CanonicalSize(s, m);
  }

  /** The reader, case by case: a stream that is too short, a length that is too big, a body that no
  text encodes to, and a body that is some text. */
  lemma ReadsExactly(prefix: seq<Byte>, rest: seq<Byte>, s: string)
    requires |prefix| == 4
    ensures var n := 16_777_216 * prefix[0] as int + 65_536 * prefix[1] as int + 256 * prefix[2] as int + prefix[3] as int;
            && (n > 10_000_000 ==> Read(prefix + rest) == (Failure(MsgTooBig), rest))
            && (|rest| < n <= 10_000_000 ==> Read(prefix + rest) == (Failure(Io), []))
            && (n <= |rest| && n <= 10_000_000 && (forall u :: Encode(u) != rest[..n]) ==>
                  Read(prefix + rest) == (Failure(BadUtf8), rest[n..]))
            && (n <= |rest| && n <= 10_000_000 && Encode(s) == rest[..n] ==>
                  Read(prefix + rest) == (FromString(s), rest[n..]))
  {
    var (bs, n) := (prefix + rest, FromBigEndian(prefix));
    ByteOrder(0, prefix);
    assert bs[..4] == prefix && bs[4..] == rest;
    if n <= |rest| {
      assert bs[4..4 + n] == rest[..n] && bs[4 + n..] == rest[n..];
      DecodeFails(rest[..n]);
      if Encode(s) == rest[..n] {
        DecodeEncode(s);
      }
    }
  }

  lemma ShortPrefix(bs: seq<Byte>)
    requires |bs| < 4
    ensures Read(bs) == (Failure(Io), [])
  {}

  function Frames(ms: seq<TcpMessage>): seq<Byte> {
    if ms == [] then [] else Frame(ms[0]) + Frames(ms[1..])
  }

  /** `n` reads in a row, stopping at the first failure. */
  function ReadMany(bs: seq<Byte>, n: nat): (Option<seq<TcpMessage>>, seq<Byte>) {
    if n == 0 then (Some([]), bs)
    else
      match Read(bs)
      case (Failure(_), rest) => (None, rest)
      case (Success(m), rest) =>
        match ReadMany(rest, n - 1)
        case (None, end) => (None, end)
        case (Some(ms), end) => (Some([m] + ms), end)
  }

  /** Self-delimiting: any list of framable messages, framed one after the other, reads back as
  that list and leaves any suffix untouched. */
  lemma {:induction false} StreamRoundTrip(ms: seq<TcpMessage>, rest: seq<Byte>)
    requires forall m :: m in ms ==> Framable(m)
    ensures ReadMany(Frames(ms) + rest, |ms|) == (Some(ms), rest)
  {
    if ms == [] {
      assert Frames(ms) + rest == rest;
    } else {
      var (m, tail) := (ms[0], ms[1..]);
      assert m in ms && ms == [m] + tail;
      StreamRoundTrip(tail, rest);
      OneMoreFrame(m, tail, rest);
      Associate(Frame(m), Frames(tail), rest);
    }
  }

  lemma Associate(a: seq<Byte>, b: seq<Byte>, c: seq<Byte>)
    ensures a + b + c == a + (b + c)
  {}

  lemma OneMoreFrame(m: TcpMessage, ms: seq<TcpMessage>, rest: seq<Byte>)
    requires Framable(m) && ReadMany(Frames(ms) + rest, |ms|) == (Some(ms), rest)
    ensures ReadMany(Frame(m) + (Frames(ms) + rest), |ms| + 1) == (Some([m] + ms), rest)
  {
    var next := Frames(ms) + rest;
    FrameRoundTrip(m, next);
    ReadOneMore(Frame(m) + next, m, next, ms, rest);
  }

  lemma ReadOneMore(bs: seq<Byte>, m: TcpMessage, next: seq<Byte>, ms: seq<TcpMessage>, rest: seq<Byte>)
    requires Read(bs) == (Success(m), next) && ReadMany(next, |ms|) == (Some(ms), rest)
    ensures ReadMany(bs, |ms| + 1) == (Some([m] + ms), rest)
  {}

  /** If a read succeeds, no shorter prefix of what it consumed would have: a cut connection is
  always reported as such. */
  lemma NoPrefixDecodes(bs: seq<Byte>, k: nat)
    requires Read(bs).0.Success? && k < |bs| - |Read(bs).1|
    ensures Read(bs[..k]) == (Failure(Io), [])
  {
    if k >= 4 {
      assert bs[..k][..4] == bs[..4];
    }
  }

  /** The size limit: a read is refused as too big exactly when a length above ten million is
  declared, and then no byte of the body has been read. */
  lemma SizeLimit(bs: seq<Byte>)
    ensures Read(bs).0 == Failure(MsgTooBig) <==> |bs| >= 4 && FromBigEndian(bs[..4]) > MAX_MESSAGE
    ensures Read(bs).0 == Failure(MsgTooBig) ==> Read(bs).1 == bs[4..]
  {
    if |bs| >= 4 && FromBigEndian(bs[..4]) <= MAX_MESSAGE {
      var n := FromBigEndian(bs[..4]);
      if |bs| >= 4 + n {
        NeverTooBig(bs[4..4 + n]);
      }
    }
  }

  lemma NeverTooBig(body: seq<Byte>)
    ensures Parse(body) != Failure(MsgTooBig)
  {}
}
