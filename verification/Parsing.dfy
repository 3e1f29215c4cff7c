/** Which texts the parser accepts, with which meaning, and why it refuses the others, in terms of the
text alone. */
module Parsing {
  import opened Wrappers
  import opened Text
  import opened Protocol

  // ----- fields -----

  /** The upper-case word, each letter in either case. */
  predicate InAnyCase(s: string, word: string) {
    |s| == |word| && forall i :: 0 <= i < |s| ==> s[i] == word[i] || s[i] as int == word[i] as int + 32
  }

  lemma AnyCase(s: string, word: string)
    requires forall c :: c in word ==> 'A' <= c <= 'Z'
    ensures EqIgnoreAsciiCase(s, word) <==> InAnyCase(s, word)
  {
    if |s| == |word| {
      forall i | 0 <= i < |s|
        ensures Lower(s[i]) == Lower(word[i]) <==> s[i] == word[i] || s[i] as int == word[i] as int + 32
      {
        assert word[i] in word;
      }
    }
  }

  /** Decimal digits, at least one, that stand for `n` below 2^16, with at most one plus sign before. */
  predicate IsPort(s: string, n: nat) {
    n < 65_536 && (IsNumber(s, n) || (s != [] && s[0] == '+' && IsNumber(s[1..], n)))
  }

  predicate IsNumber(s: string, n: nat) {
    s != [] && AllDigits(s) && Value(s) == n
  }

  lemma PortExactly(s: string, n: nat)
    ensures (ParsePort(s).Some? && ParsePort(s).value == n) <==> IsPort(s, n)
  {
    if s != [] && s[0] == '+' {
      assert '+' in s && !AllDigits(s);
    }
  }

  lemma IpExactly(s: string, ip: Ipv4)
    ensures ParseIp(s) == Some(ip) <==> s == PrintIp(ip)
  {
    IpRoundTrip(ip);
    if ParseIp(s).Some? {
      IpCanonical(s);
    }
  }

  /** The list of tickers that a field stands for. */
  predicate AreTickers(field: string, tickers: seq<string>) {
    tickers != [] && (forall t :: t in tickers ==> ',' !in t) && Join(tickers, ',') == field
  }

  lemma TickersExactly(field: string, tickers: seq<string>)
    ensures Split(field, ',') == tickers <==> AreTickers(field, tickers)
  {
    JoinSplit(field, ',');
    SplitClean(field, ',');
    if AreTickers(field, tickers) {
      SplitJoin(tickers, ',');
    }
  }

  // ----- commands -----

  /** Non-empty lists of fields are the texts after the tag, one for one. */
  predicate AreFields(fields: seq<string>) {
    fields != [] && forall f :: f in fields ==> '|' !in f
  }

  predicate Keywords(fields: seq<string>)
    requires |fields| >= 5
  {
    InAnyCase(fields[0], "STREAM") && InAnyCase(fields[1], "UDP")
  }

  ghost predicate HasIp(field: string) {
    exists ip :: field == PrintIp(ip)
  }

  ghost predicate HasPort(field: string) {
    exists n :: IsPort(field, n)
  }

  /** The command these fields stand for. */
  predicate IsCommand(fields: seq<string>, c: SubscribeCommand) {
    && |fields| >= 5 && Keywords(fields) && fields[2] == PrintIp(c.ip) && IsPort(fields[3], c.port)
    && AreTickers(fields[4], c.tickers)
  }

  lemma KeywordsExactly(fields: seq<string>, stream: string, udp: string)
    requires |fields| >= 5 && stream == "STREAM" && udp == "UDP"
    ensures EqIgnoreAsciiCase(fields[0], stream) && EqIgnoreAsciiCase(fields[1], udp) <==> Keywords(fields)
  {
    AnyCase(fields[0], stream);
    AnyCase(fields[1], udp);
  }

  lemma NoIp(s: string)
    ensures ParseIp(s).None? <==> !HasIp(s)
  {
    if ParseIp(s).Some? {
      IpExactly(s, ParseIp(s).value);
    } else if ip :| s == PrintIp(ip) {
      IpExactly(s, ip);
    }
  }

  lemma NoPort(s: string)
    ensures ParsePort(s).None? <==> !HasPort(s)
  {
    if ParsePort(s).Some? {
      PortExactly(s, ParsePort(s).value);
    } else if n :| IsPort(s, n) {
      PortExactly(s, n);
    }
  }

  /** What the fields of a command come to, in the order of the checks. */
  ghost predicate FieldsMean(fields: seq<string>, r: Result<SubscribeCommand, ParseError>) {
    if |fields| < 5 then r == Failure(NotEnoughArguments)
    else if !Keywords(fields) then r == Failure(VariantNotFound)
    else if !HasIp(fields[2]) then r == Failure(InvalidIpAddress)
    else if !HasPort(fields[3]) then r == Failure(InvalidPort)
    else r.Success? && IsCommand(fields, r.value)
  }

  lemma CommandExactly(fields: seq<string>)
    requires AreFields(fields)
    ensures FieldsMean(fields, ParseCommand(Join(fields, '|')))
  {
    SplitJoin(fields, '|');
    if |fields| >= 5 {
      FieldsExactly(fields);
    }
  }

  lemma FieldsExactly(fields: seq<string>)
    requires |fields| >= 5
    ensures FieldsMean(fields, ParseFields(fields))
  {
    KeywordsExactly(fields, "STREAM", "UDP");
    NoIp(fields[2]);
    NoPort(fields[3]);
    var (ip, port) := (ParseIp(fields[2]), ParsePort(fields[3]));
    if ip.Some? && port.Some? {
      IpExactly(fields[2], ip.value);
      PortExactly(fields[3], port.value);
      TickersExactly(fields[4], Split(fields[4], ','));
    }
  }

  /** Every text after the tag is the text of some fields. */
  lemma EveryTextHasFields(text: string)
    ensures AreFields(Split(text, '|')) && Join(Split(text, '|'), '|') == text
  {
    SplitClean(text, '|');
    JoinSplit(text, '|');
  }

  // ----- messages -----

  /** The text starts with the tag, and ends there or goes on after a bar. */
  predicate Tagged(s: string, tag: string) {
    s == tag || (|s| > |tag| && s[..|tag|] == tag && s[|tag|] == '|')
  }

  lemma TagExactly(s: string, tag: string)
    requires '|' !in tag
    ensures SplitOnce(s, '|').0 == tag <==> Tagged(s, tag)
    ensures SplitOnce(s, '|') == (tag, None) <==> s == tag
    ensures Tagged(s, tag) && s != tag ==> SplitOnce(s, '|') == (tag, Some(s[|tag| + 1..]))
  {
    if Tagged(s, tag) && s != tag {
      assert s == tag + ['|'] + s[|tag| + 1..];
      FirstSeparator(tag, '|', s[|tag| + 1..]);
    }
  }

  ghost predicate CommandMeans(fields: seq<string>, r: Result<TcpMessage, ParseError>) {
    if r.Failure? then FieldsMean(fields, Failure(r.error))
    else r.value.Cmd? && FieldsMean(fields, Success(r.value.cmd))
  }

  /** The meaning of a text, or the reason for refusing it. */
  ghost predicate Means(s: string, r: Result<TcpMessage, ParseError>) {
    if Tagged(s, "ACK") then r == Success(Ack)
    else if s == "CMD" || s == "ERR" then r == Failure(NotEnoughArguments)
    else if Tagged(s, "ERR") then r == Success(Err(s[4..]))
    else if Tagged(s, "CMD") then
      forall fields :: AreFields(fields) && Join(fields, '|') == s[4..] ==> CommandMeans(fields, r)
    else r == Failure(UnknownCommand)
  }

  /** The parser exactly, for every text. An Ack is "ACK" alone or followed by a bar and anything; an
  error is "ERR|" and its text; a command is "CMD|" and at least five fields, of which the first two
  are the keywords in any case, the third is a printed address, the fourth a decimal port and the
  fifth the tickers; and every other text is refused with the error that its first fault gives. */
  lemma ParsesExactly(s: string)
    ensures Means(s, FromString(s))
  {
    TagsExactly(s, "ACK", "CMD", "ERR");
    if Tagged(s, "CMD") && s != "CMD" {
      forall fields | AreFields(fields) && Join(fields, '|') == s[4..]
        ensures FieldsMean(fields, ParseCommand(s[4..]))
      {
        CommandExactly(fields);
      }
    }
  }

  lemma TagsExactly(s: string, ack: string, cmd: string, err: string)
    requires ack == "ACK" && cmd == "CMD" && err == "ERR"
    ensures Tagged(s, ack) ==> FromString(s) == Success(Ack)
    ensures s == cmd || s == err ==> FromString(s) == Failure(NotEnoughArguments)
    ensures Tagged(s, err) && s != err ==> FromString(s) == Success(Err(s[4..]))
    ensures Tagged(s, cmd) && s != cmd ==> FromString(s) == CommandResult(ParseCommand(s[4..]))
    ensures !Tagged(s, ack) && !Tagged(s, cmd) && !Tagged(s, err) ==> FromString(s) == Failure(UnknownCommand)
  {
    TagExactly(s, ack);
    TagExactly(s, cmd);
    TagExactly(s, err);
  }

  function CommandResult(r: Result<SubscribeCommand, ParseError>): Result<TcpMessage, ParseError> {
    match r
    case Failure(e) => Failure(e)
    case Success(c) => Success(Cmd(c))
  }

  /** The fields of a command are always there to be found, so its meaning is never left open. */
  lemma CommandAccepted(s: string, c: SubscribeCommand)
    ensures FromString(s) == Success(Cmd(c)) <==>
              Tagged(s, "CMD") && s != "CMD" && exists fields :: AreFields(fields) && Join(fields, '|') == s[4..] && IsCommand(fields, c)
  {
    TagsExactly(s, "ACK", "CMD", "ERR");
    if Tagged(s, "CMD") && s != "CMD" {
      CommandIs(s[4..], c);
    }
  }

  lemma CommandIs(text: string, c: SubscribeCommand)
    ensures ParseCommand(text) == Success(c) <==>
              exists fields :: AreFields(fields) && Join(fields, '|') == text && IsCommand(fields, c)
  {
    if ParseCommand(text) == Success(c) {
      EveryTextHasFields(text);
      CommandExactly(Split(text, '|'));
    } else if fields :| AreFields(fields) && Join(fields, '|') == text && IsCommand(fields, c) {
      CommandExactly(fields);
      SameCommand(fields, ParseCommand(text), c);
    }
  }

  /** Fields stand for one command only. */
  lemma SameCommand(fields: seq<string>, r: Result<SubscribeCommand, ParseError>, c: SubscribeCommand)
    requires FieldsMean(fields, r) && IsCommand(fields, c)
    ensures r == Success(c)
  {
    assert HasIp(fields[2]) && HasPort(fields[3]);
    OneCommand(fields[2], fields[3], fields[4], c, r.value);
  }

  lemma OneCommand(ip: string, port: string, list: string, c: SubscribeCommand, d: SubscribeCommand)
    requires ip == PrintIp(c.ip) == PrintIp(d.ip) && IsPort(port, c.port) && IsPort(port, d.port)
    requires AreTickers(list, c.tickers) && AreTickers(list, d.tickers)
    ensures c == d
  {
    IpRoundTrip(c.ip);
    IpRoundTrip(d.ip);
    PortExactly(port, c.port);
    PortExactly(port, d.port);
    TickersExactly(list, c.tickers);
    TickersExactly(list, d.tickers);
    OnlyOne(c, d);
  }

  lemma OnlyOne(c: SubscribeCommand, d: SubscribeCommand)
    requires c.ip == d.ip && c.port == d.port && c.tickers == d.tickers
    ensures c == d
  {
    assert c.cmd == Stream == d.cmd && c.transport == Udp == d.transport;
  }

  // ----- printed texts -----

  lemma JoinFive(a: string, b: string, c: string, d: string, e: string, sep: char)
    ensures Join([a, b, c, d, e], sep) == a + [sep] + (b + [sep] + (c + [sep] + (d + [sep] + e)))
  {
    assert [d, e][1..] == [e] && [c, d, e][1..] == [d, e];
    assert [b, c, d, e][1..] == [c, d, e] && [a, b, c, d, e][1..] == [b, c, d, e];
    assert Join([d, e], sep) == d + [sep] + Join([e], sep);
    assert Join([c, d, e], sep) == c + [sep] + Join([d, e], sep);
    assert Join([b, c, d, e], sep) == b + [sep] + Join([c, d, e], sep);
  }

  /** The printed form: the tag, the two keywords, the address, the port and the tickers. */
  lemma PrintedForm(c: SubscribeCommand, e: string)
    ensures ToString(Ack) == "ACK" && ToString(Err(e)) == "ERR|" + e
    ensures ToString(Cmd(c)) ==
            "CMD|" + ("STREAM" + ['|'] + ("UDP" + ['|'] + (PrintIp(c.ip) + ['|'] + (Print(c.port) + ['|'] + Join(c.tickers, ',')))))
  {
    JoinFive("STREAM", "UDP", PrintIp(c.ip), Print(c.port), Join(c.tickers, ','), '|');
  }
}
