/** The text protocol spoken over TCP: printer and parser of messages. */
module Protocol {
  import opened Wrappers
  import opened Text
  import opened Utf8

  type Octet = n: nat | n < 256
  type Port = n: nat | n < 0x1_0000

  datatype Ipv4 = Ipv4(a: Octet, b: Octet, c: Octet, d: Octet)

  datatype Command = Stream

  datatype Transport = Udp

  datatype SubscribeCommand =
    SubscribeCommand(cmd: Command, transport: Transport, ip: Ipv4, port: Port, tickers: seq<string>)

  datatype TcpMessage = Ack | Cmd(cmd: SubscribeCommand) | Err(text: string)

  datatype ParseError =
    | VariantNotFound | NotEnoughArguments | InvalidIpAddress | InvalidPort
    | BadUtf8 | MsgTooBig | UnknownCommand | Io

  // ----- fields -----

  function Lower(c: char): char {
    if 'A' <= c <= 'Z' then (c as int + 32) as char else c
  }

  predicate EqIgnoreAsciiCase(s: string, t: string) {
    |s| == |t| && forall i :: 0 <= i < |s| ==> Lower(s[i]) == Lower(t[i])
  }

  /** A decimal number that may carry one leading plus sign and leading zeros. */
  function ParsePort(s: string): Option<Port> {
    var digits := if s != [] && s[0] == '+' then s[1..] else s;
    if digits != [] && AllDigits(digits) && Value(digits) < 0x1_0000 then Some(Value(digits)) else None
  }

  /** One to three digits, no leading zero, at most 255. */
  function ParseOctet(s: string): Option<Octet> {
    if 1 <= |s| <= 3 && AllDigits(s) && (|s| > 1 ==> s[0] != '0') && Value(s) < 256 then Some(Value(s))
    else None
  }

  function PrintIp(ip: Ipv4): string {
    Join([Print(ip.a), Print(ip.b), Print(ip.c), Print(ip.d)], '.')
  }

  function ParseIp(s: string): Option<Ipv4> {
    var parts := Split(s, '.');
    if |parts| != 4 then None
    else
      var (a, b, c, d) := (ParseOctet(parts[0]), ParseOctet(parts[1]), ParseOctet(parts[2]), ParseOctet(parts[3]));
      if a.Some? && b.Some? && c.Some? && d.Some? then Some(Ipv4(a.value, b.value, c.value, d.value)) else None
  }

  // ----- messages -----

  function Fields(c: SubscribeCommand): seq<string> {
    ["STREAM", "UDP", PrintIp(c.ip), Print(c.port), Join(c.tickers, ',')]
  }

  function PrintCommand(c: SubscribeCommand): string {
    Join(Fields(c), '|')
  }

  function ParseCommand(s: string): Result<SubscribeCommand, ParseError> {
    var parts := Split(s, '|');
    if |parts| < 5 then Failure(NotEnoughArguments) else ParseFields(parts)
  }

  function ParseFields(parts: seq<string>): Result<SubscribeCommand, ParseError>
    requires |parts| >= 5
  {
    if !EqIgnoreAsciiCase(parts[0], "STREAM") then Failure(VariantNotFound)
    else if !EqIgnoreAsciiCase(parts[1], "UDP") then Failure(VariantNotFound)
    else
      var (ip, port) := (ParseIp(parts[2]), ParsePort(parts[3]));
      if ip.None? then Failure(InvalidIpAddress)
      else if port.None? then Failure(InvalidPort)
      else Success(SubscribeCommand(Stream, Udp, ip.value, port.value, Split(parts[4], ',')))
  }

  function ToString(m: TcpMessage): string {
    match m
    case Ack => "ACK"
    case Cmd(c) => "CMD|" + PrintCommand(c)
    case Err(e) => "ERR|" + e
  }

  function FromString(s: string): Result<TcpMessage, ParseError> {
    var (head, rest) := SplitOnce(s, '|');
    if head == "ACK" then Success(Ack)
    else if head == "CMD" then
      if rest.None? then Failure(NotEnoughArguments)
      else
        match ParseCommand(rest.value)
        case Failure(e) => Failure(e)
        case Success(c) => Success(Cmd(c))
    else if head == "ERR" then
      if rest.None? then Failure(NotEnoughArguments) else Success(Err(rest.value))
    else Failure(UnknownCommand)
  }

  // ----- fields survive printing and parsing -----

  lemma NoSeparatorInDigits(s: string, sep: char)
    requires AllDigits(s) && !IsDigit(sep)
    ensures sep !in s
  {}

  lemma OctetRoundTrip(n: Octet)
    ensures ParseOctet(Print(n)) == Some(n) && '.' !in Print(n) && '|' !in Print(n)
  {
    PrintValue(n);
    PrintThree(n);
    NoSeparatorInDigits(Print(n), '.');
    NoSeparatorInDigits(Print(n), '|');
  }

  lemma PortRoundTrip(n: Port)
    ensures ParsePort(Print(n)) == Some(n) && '|' !in Print(n)
  {
    PrintValue(n);
    NoSeparatorInDigits(Print(n), '|');
    NoSeparatorInDigits(Print(n), '+');
    assert Print(n)[0] in Print(n);
  }

  lemma {:induction false} JoinAvoids(parts: seq<string>, sep: char, c: char)
    requires c != sep && forall p :: p in parts ==> c !in p
    ensures c !in Join(parts, sep)
  {
    if |parts| > 1 {
      JoinAvoids(parts[1..], sep, c);
    }
  }

  /** For every address. */
  lemma IpRoundTrip(ip: Ipv4)
    ensures ParseIp(PrintIp(ip)) == Some(ip) && '|' !in PrintIp(ip)
  {
    OctetRoundTrip(ip.a);
    OctetRoundTrip(ip.b);
    OctetRoundTrip(ip.c);
    OctetRoundTrip(ip.d);
    var parts := [Print(ip.a), Print(ip.b), Print(ip.c), Print(ip.d)];
    SplitJoin(parts, '.');
    JoinAvoids(parts, '.', '|');
  }

  /** An accepted address is exactly what its value prints as. */
  lemma IpCanonical(s: string)
    requires ParseIp(s).Some?
    ensures PrintIp(ParseIp(s).value) == s
  {
    var parts := Split(s, '.');
    JoinSplit(s, '.');
    PrintOfValue(parts[0]);
    PrintOfValue(parts[1]);
    PrintOfValue(parts[2]);
    PrintOfValue(parts[3]);
    var ip := ParseIp(s).value;
    assert [Print(ip.a), Print(ip.b), Print(ip.c), Print(ip.d)] == parts;
  }

  // ----- messages -----

  /** A non-empty list of tickers without separators. */
  predicate CleanTickers(tickers: seq<string>) {
    tickers != [] && forall t :: t in tickers ==> ',' !in t && '|' !in t
  }

  predicate RoundTrippable(m: TcpMessage) {
    m.Cmd? ==> CleanTickers(m.cmd.tickers)
  }

  lemma FieldsSplit(c: SubscribeCommand)
    requires CleanTickers(c.tickers)
    ensures Split(PrintCommand(c), '|') == Fields(c)
  {
    IpRoundTrip(c.ip);
    PortRoundTrip(c.port);
    JoinAvoids(c.tickers, ',', '|');
    SplitJoin(Fields(c), '|');
  }

  lemma CommandRoundTrip(c: SubscribeCommand)
    requires CleanTickers(c.tickers)
    ensures ParseCommand(PrintCommand(c)) == Success(c)
  {
    FieldsSplit(c);
    IpRoundTrip(c.ip);
    PortRoundTrip(c.port);
    SplitJoin(c.tickers, ',');
    FieldsParse(Fields(c), c);
  }

  lemma FieldsParse(parts: seq<string>, c: SubscribeCommand)
    requires |parts| == 5 && parts[0] == "STREAM" && parts[1] == "UDP"
    requires ParseIp(parts[2]) == Some(c.ip) && ParsePort(parts[3]) == Some(c.port)
    requires Split(parts[4], ',') == c.tickers
    ensures ParseFields(parts) == Success(c)
  {
    assert c.cmd == Stream && c.transport == Udp;
  }

  /** Whatever the parser accepts has clean tickers. */
  lemma ParsedIsClean(s: string)
    requires ParseCommand(s).Success?
    ensures CleanTickers(ParseCommand(s).value.tickers)
  {
    var parts := Split(s, '|');
    SplitClean(s, '|');
    SplitClean(parts[4], ',');
    assert parts[4] in parts;
  }

  lemma ParsedIsRoundTrippable(s: string)
    requires FromString(s).Success?
    ensures RoundTrippable(FromString(s).value)
  {
    var (head, rest) := SplitOnce(s, '|');
    if head == "CMD" {
      ParsedIsClean(rest.value);
    }
  }

  /** Exact round trip: a message survives printing and parsing if and only if it is an Ack, any
  Err text whatever, or a command with a non-empty list of tickers free of both separators. */
  lemma RoundTrip(m: TcpMessage)
    ensures FromString(ToString(m)) == Success(m) <==> RoundTrippable(m)
  {
    if FromString(ToString(m)) == Success(m) {
      ParsedIsRoundTrippable(ToString(m));
    }
    match m
    case Ack => assert '|' !in "ACK";
    case Cmd(c) =>
      Tagged(m, "CMD", PrintCommand(c));
      if CleanTickers(c.tickers) {
        CommandRoundTrip(c);
      }
    case Err(e) =>
      Tagged(m, "ERR", e);
  }

  lemma Tagged(m: TcpMessage, tag: string, rest: string)
    requires ToString(m) == tag + "|" + rest && '|' !in tag
    ensures SplitOnce(ToString(m), '|') == (tag, Some(rest))
  {
    SplitFirst(tag, '|', rest);
  }

  /** Canonical form, with no side condition: every accepted text, however it writes its keywords
  and numbers, prints as a text that is accepted with the same meaning. */
  lemma Canonical(s: string, m: TcpMessage)
    requires FromString(s) == Success(m)
    ensures FromString(ToString(m)) == Success(m)
  {
    ParsedIsRoundTrippable(s);
    RoundTrip(m);
  }

  // ----- the canonical form is never longer -----

  function Size(s: string): nat {
    |Encode(s)|
  }

  lemma SizeConcat(a: string, b: string)
    ensures Size(a + b) == Size(a) + Size(b)
  {
    EncodeConcat(a, b);
  }

  lemma SizeJoin(parts: seq<string>, sep: char)
    requires |parts| > 1 && sep as int < 0x80
    ensures Size(Join(parts, sep)) == Size(parts[0]) + 1 + Size(Join(parts[1..], sep))
  {
    var rest := Join(parts[1..], sep);
    assert Join(parts, sep) == parts[0] + ([sep] + rest);
    SizeConcat(parts[0], [sep] + rest);
    SizeConcat([sep], rest);
    assert Encode([sep]) == EncodeChar(sep) + Encode([]);
  }

  /** The first five of at least five joined pieces. */
  lemma SizeFive(parts: seq<string>)
    requires |parts| >= 5
    ensures Size(Join(parts, '|')) >=
              Size(parts[0]) + Size(parts[1]) + Size(parts[2]) + Size(parts[3]) + Size(parts[4]) + 4
    ensures |parts| == 5 ==>
              Size(Join(parts, '|'))
              == Size(parts[0]) + Size(parts[1]) + Size(parts[2]) + Size(parts[3]) + Size(parts[4]) + 4
  {
    SizeJoin(parts, '|');
    SizeJoin(parts[1..], '|');
    SizeJoin(parts[1..][1..], '|');
    SizeJoin(parts[1..][1..][1..], '|');
    assert parts[1..][1..][1..][1..] == parts[4..];
    if |parts| > 5 {
      SizeJoin(parts[4..], '|');
    }
  }

  lemma KeywordSize(s: string, t: string)
    requires EqIgnoreAsciiCase(s, t) && forall c :: c in t ==> 'A' <= c <= 'Z'
    ensures Size(s) == |t| && Size(t) == |t|
  {
    forall c | c in s ensures c as int < 0x80 {
      var i :| 0 <= i < |s| && s[i] == c;
      assert t[i] in t && Lower(s[i]) == Lower(t[i]);
    }
    EncodeAscii(s);
    EncodeAscii(t);
  }

  lemma PortSize(s: string)
    requires ParsePort(s).Some?
    ensures Size(Print(ParsePort(s).value)) <= Size(s)
  {
    var digits := if s != [] && s[0] == '+' then s[1..] else s;
    PrintOfValue(digits);
    PrintValue(Value(digits));
    EncodeAscii(digits);
    EncodeAscii(Print(Value(digits)));
    assert s == s[..|s| - |digits|] + digits;
    SizeConcat(s[..|s| - |digits|], digits);
  }

  lemma TextFields(parts: seq<string>, c: SubscribeCommand)
    requires |parts| >= 5 && ParseFields(parts) == Success(c)
    ensures PrintIp(c.ip) == parts[2] && Join(c.tickers, ',') == parts[4]
  {
    IpCanonical(parts[2]);
    JoinSplit(parts[4], ',');
  }

  lemma KeywordFields(parts: seq<string>, c: SubscribeCommand)
    requires |parts| >= 5 && ParseFields(parts) == Success(c)
    ensures Size("STREAM") == Size(parts[0]) && Size("UDP") == Size(parts[1])
  {
    KeywordSize(parts[0], "STREAM");
    KeywordSize(parts[1], "UDP");
  }

  lemma PortField(parts: seq<string>, c: SubscribeCommand)
    requires |parts| >= 5 && ParseFields(parts) == Success(c)
    ensures Size(Print(c.port)) <= Size(parts[3])
  {
    PortSize(parts[3]);
  }

  lemma CommandSize(s: string, c: SubscribeCommand)
    requires ParseCommand(s) == Success(c)
    ensures Size(PrintCommand(c)) <= Size(s)
  {
    var parts := Split(s, '|');
    JoinSplit(s, '|');
    KeywordFields(parts, c);
    TextFields(parts, c);
    PortField(parts, c);
    SizeFive(parts);
    SizeFive(Fields(c));
  }

  /** The canonical form takes at most as many bytes as any text with the same meaning. */
  lemma CanonicalSize(s: string, m: TcpMessage)
    requires FromString(s) == Success(m)
    ensures Size(ToString(m)) <= Size(s)
  {
    var (head, rest) := SplitOnce(s, '|');
    assert s == head + (if rest.Some? then ['|'] + rest.value else []);
    SizeConcat(head, if rest.Some? then ['|'] + rest.value else []);
    match m
    case Ack =>
    case Cmd(c) =>
      SizeConcat(['|'], rest.value);
      SizeConcat("CMD|", PrintCommand(c));
      SizeConcat("CMD", ['|']);
      CommandSize(rest.value, c);
    case Err(e) =>
      assert ToString(m) == s;
  }
}
