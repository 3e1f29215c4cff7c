/** The subscription end to end: the processor that answers requests and streams to subscribers, the
client that makes a request, and the bytes between them. */
module Subscribe {
  import opened Wrappers
  import opened Registry
  import opened Utf8
  import opened Protocol
  import opened Framing
  import G = Generator
  import Text

  const GENERATOR_ERROR := "Generator error: "
  const NOT_EXISTS := "Ticker does not exist: "
  const UNKNOWN_TICKER := GENERATOR_ERROR + NOT_EXISTS
  const UNEXPECTED := "Unexpected message type"

  /** The answer to a request, if any: an unreadable request gets none. */
  function Reply(known: set<Ticker>, request: Result<TcpMessage, ParseError>): Option<TcpMessage> {
    match request
    case Failure(_) => None
    case Success(Cmd(c)) =>
      if ToSet(c.tickers) <= known then Some(Ack)
      else Some(Err(UNKNOWN_TICKER + FirstUnknown(known, c.tickers)))
    case Success(_) => Some(Err(UNEXPECTED))
  }

  lemma RefusalText(prefix: string)
    requires prefix == "Generator error: Ticker does not exist: "
    ensures UNKNOWN_TICKER == prefix
  {}

  /** The answers: none to an unreadable request, Ack to a command exactly when all its tickers are
  known, else the name of the first that is not, and a fixed error to any other message. */
  lemma ReplyExactly(known: set<Ticker>, c: SubscribeCommand, e: ParseError, text: string, prefix: string)
    requires prefix == "Generator error: Ticker does not exist: "
    ensures Reply(known, Failure(e)) == None
    ensures Reply(known, Success(Ack)) == Some(Err("Unexpected message type")) == Reply(known, Success(Err(text)))
    ensures Reply(known, Success(Cmd(c))) == Some(Ack) <==> forall t :: t in c.tickers ==> t in known
    ensures (exists t :: t in c.tickers && t !in known) ==>
              exists i :: 0 <= i < |c.tickers| && c.tickers[i] !in known && (forall j :: 0 <= j < i ==> c.tickers[j] in known)
                          && Reply(known, Success(Cmd(c))) == Some(Err(prefix + c.tickers[i]))
  {
    RefusalText(prefix);
    if t :| t in c.tickers && t !in known {
      assert t in ToSet(c.tickers);
      var bad := FirstUnknown(known, c.tickers);
    } else {
      assert ToSet(c.tickers) <= known;
    }
  }

  /** What one turn of a streaming loop finds: whether its shutdown flag is set, and the quotes that
  ticker threads have put on its channel since the turn before. */
  datatype Turn = Turn(flagged: bool, arrived: seq<Quote>)

  function Arrived(turns: seq<Turn>): seq<Quote> {
    if turns == [] then [] else Arrived(turns[..|turns| - 1]) + turns[|turns| - 1].arrived
  }

  /** In these turns `n` quotes were taken by a thread that idles only on an empty channel: up to
  some turn it had taken all there was, and from then on it took one in every turn. */
  ghost predicate Diligent(queued: seq<Quote>, turns: seq<Turn>, n: nat) {
    exists k: nat :: k <= |turns| && TakenSince(queued, turns, n, k)
  }

  predicate TakenSince(queued: seq<Quote>, turns: seq<Turn>, n: nat, k: nat)
    requires k <= |turns|
  {
    n == (if k == 0 then 0 else |queued + Arrived(turns[..k])|) + |turns| - k
  }

  lemma ArrivedOne(turns: seq<Turn>, i: nat)
    requires i < |turns|
    ensures Arrived(turns[..i + 1]) == Arrived(turns[..i]) + turns[i].arrived
  {
    assert turns[..i + 1][..i] == turns[..i];
  }

  lemma TookOne(queued: seq<Quote>, turns: seq<Turn>, i: nat, n: nat)
    requires i < |turns| && Diligent(queued, turns[..i], n)
    ensures Diligent(queued, turns[..i + 1], n + 1)
  {
    var k: nat :| k <= i && TakenSince(queued, turns[..i], n, k);
    assert turns[..i][..k] == turns[..i + 1][..k];
    assert TakenSince(queued, turns[..i + 1], n + 1, k);
  }

  lemma TookAll(queued: seq<Quote>, turns: seq<Turn>, i: nat, n: nat)
    requires i < |turns| && n == |queued + Arrived(turns[..i + 1])|
    ensures Diligent(queued, turns[..i + 1], n)
  {
    assert turns[..i + 1][..i + 1] == turns[..i + 1];
    assert TakenSince(queued, turns[..i + 1], n, i + 1);
  }

  /** One more turn keeps the books: nothing is lost, and no turn was wasted. */
  lemma TurnTaken(queued: seq<Quote>, turns: seq<Turn>, i: nat, sent: seq<Quote>,
                  waiting: seq<Quote>, got: seq<Quote>, rest: seq<Quote>)
    requires i < |turns| && Diligent(queued, turns[..i], |sent|)
    requires sent + waiting == queued + Arrived(turns[..i]) && got + rest == waiting + turns[i].arrived
    requires |got| == if waiting + turns[i].arrived == [] then 0 else 1
    ensures (sent + got) + rest == queued + Arrived(turns[..i + 1])
    ensures Diligent(queued, turns[..i + 1], |sent + got|)
  {
    ArrivedOne(turns, i);
    assert (sent + got) + rest == sent + (waiting + turns[i].arrived) == (sent + waiting) + turns[i].arrived;
    assert (queued + Arrived(turns[..i])) + turns[i].arrived == queued + Arrived(turns[..i + 1]);
    if got == [] {
      TookAll(queued, turns, i, |sent|);
    } else {
      TookOne(queued, turns, i, |sent|);
    }
  }

  /** A receiver under a fresh id, with a channel of the same number, shares it with no other. */
  lemma FreshChannel(receivers: map<Id, G.ReceiverInfo>, channels: map<nat, G.Channel>, id: Id, ts: set<Ticker>)
    requires G.OwnChannels(receivers, channels) && forall x :: x in receivers ==> x < id && receivers[x].channel == x
    ensures G.OwnChannels(receivers[id := G.ReceiverInfo(id, ts)], channels[id := G.Channel([], true)])
    ensures G.Subscriptions(receivers[id := G.ReceiverInfo(id, ts)]) == G.Subscriptions(receivers)[id := ts]
  {}

  /** The state shared by the request handlers. `stopped` are the ids whose shutdown flag was set
  by removing them. */
  class Processor {
    const generator: G.QuoteGenerator
    var subscribers: set<Id>
    var stopped: set<Id>
    var nextId: nat

    /** Every id in use was taken from the counter and has its own channel, so the next id is new. */
    ghost predicate Valid()
      reads this, generator
    {
      && generator.Valid()
      && subscribers <= generator.receivers.Keys
      && (forall id :: id in generator.receivers ==> id < nextId && generator.receivers[id].channel == id)
    }

    constructor (g: G.QuoteGenerator)
      requires g.Valid() && g.receivers == map[]
      ensures Valid() && generator == g && subscribers == {} && stopped == {} && nextId == 0
    {
      generator, subscribers, stopped, nextId := g, {}, {}, 0;
    }

    /** Takes a new id in any case; registers it with exactly the requested tickers if all of them
    are known, and otherwise leaves every map as it was. */
    method AddSubscriber(cmd: SubscribeCommand) returns (r: Result<Id, G.GeneratorError>)
      requires Valid()
      modifies this`subscribers, this`nextId, generator`receivers, generator`index, generator`channels
      ensures Valid() && nextId == old(nextId) + 1
      ensures r.Success? <==> ToSet(cmd.tickers) <= old(generator.index.Keys)
      ensures r.Success? ==>
                && r.value == old(nextId) && r.value !in old(generator.receivers)
                && generator.receivers == old(generator.receivers)[r.value := G.ReceiverInfo(r.value, ToSet(cmd.tickers))]
                && generator.index == AddToIndex(old(generator.index), ToSet(cmd.tickers), r.value)
                && generator.channels == old(generator.channels)[r.value := G.Channel([], true)]
                && subscribers == old(subscribers) + {r.value}
      ensures r.Failure? ==>
                && !(ToSet(cmd.tickers) <= old(generator.index.Keys))
                && r.error.t == FirstUnknown(old(generator.index.Keys), cmd.tickers)
                && generator.receivers == old(generator.receivers) && generator.index == old(generator.index)
                && generator.channels == old(generator.channels) && subscribers == old(subscribers)
      ensures generator.index.Keys == old(generator.index.Keys)
    {
      var id := nextId;
      nextId := nextId + 1;
      var added := generator.AddReceiver(id, id, cmd.tickers);
      if added.Failure? {
        return Failure(added.error);
      }
      generator.channels := generator.channels[id := G.Channel([], true)];
      subscribers := subscribers + {id};
      FreshChannel(old(generator.receivers), old(generator.channels), id, ToSet(cmd.tickers));
      G.AddKeepsInverted(G.Subscriptions(old(generator.receivers)), old(generator.index), id, ToSet(cmd.tickers));
      return Success(id);
    }

    /** Removes a listed subscriber everywhere and signals its thread; an unlisted id is left alone. */
    method RemoveSubscriber(id: Id)
      requires Valid()
      modifies this`subscribers, this`stopped, generator`receivers, generator`index
      ensures Valid() && subscribers == old(subscribers) - {id}
      ensures generator.receivers == if id in old(subscribers) then old(generator.receivers) - {id} else old(generator.receivers)
      ensures stopped == if id in old(subscribers) then old(stopped) + {id} else old(stopped)
      ensures id in old(subscribers) ==> forall t :: t in generator.index ==> id !in generator.index[t]
      ensures id !in old(subscribers) ==> generator.index == old(generator.index)
    {
      if id in subscribers {
        subscribers := subscribers - {id};
        stopped := stopped + {id};
        G.RemoveKeepsInverted(G.Subscriptions(generator.receivers), generator.index, id);
        ghost var before := generator.receivers;
        generator.RemoveReceiver(id);
        assert G.Subscriptions(generator.receivers) == G.Subscriptions(before) - {id};
        assert generator.Valid();
      }
    }

    /** The streaming thread of a listed subscriber: takes quotes from its own channel, in order and
    one a turn, until it finds the shutdown flag; then it unregisters and its channel closes with
    all that is left. Without a socket it does so at once. */
    method StartStreaming(id: Id, bound: bool, turns: seq<Turn>) returns (sent: seq<Quote>, ended: bool, used: nat)
      requires Valid() && id in subscribers && generator.channels[id].open
      modifies this`subscribers, this`stopped, generator`receivers, generator`index, generator`channels
      ensures Valid() && used <= |turns|
      ensures ended ==> if bound then used < |turns| && turns[used].flagged else used == 0
      ensures !ended ==> bound && used == |turns|
      ensures forall k: nat :: k < used ==> !turns[k].flagged
      ensures sent <= old(generator.channels[id].queue) + Arrived(turns[..used])
      ensures if bound then Diligent(old(generator.channels[id].queue), turns[..used], |sent|) else sent == []
      ensures id in generator.channels && generator.channels == old(generator.channels)[id := generator.channels[id]]
      ensures generator.channels[id].open <==> !ended
      ensures !ended ==>
                && sent + generator.channels[id].queue == old(generator.channels[id].queue) + Arrived(turns[..used])
                && generator.receivers == old(generator.receivers) && generator.index == old(generator.index)
                && subscribers == old(subscribers) && stopped == old(stopped)
      ensures ended ==>
                && subscribers == old(subscribers) - {id} && id in stopped
                && generator.receivers == old(generator.receivers) - {id}
                && generator.channels[id].queue == []
                && forall t :: t in generator.index ==> id !in generator.index[t]
    {
      sent, ended, used := [], !bound, 0;
      if bound {
        sent, ended, used := StreamingLoop(id, turns);
      }
      if ended {
        EndStreaming(id);
      }
    }

    /** Its end: the flag is set, the subscriber removed and the receiving end dropped. */
    method EndStreaming(id: Id)
      requires Valid() && id in subscribers
      modifies this`subscribers, this`stopped, generator`receivers, generator`index, generator`channels
      ensures Valid() && subscribers == old(subscribers) - {id} && id in stopped
      ensures generator.receivers == old(generator.receivers) - {id}
      ensures generator.channels == old(generator.channels)[id := G.Channel([], false)]
      ensures forall t :: t in generator.index ==> id !in generator.index[t]
    {
      stopped := stopped + {id};
      RemoveSubscriber(id);
      generator.channels := generator.channels[id := G.Channel([], false)];
    }

    /** Its loop. */
    method StreamingLoop(id: Id, turns: seq<Turn>) returns (sent: seq<Quote>, ended: bool, used: nat)
      requires Valid() && id in subscribers && generator.channels[id].open
      modifies generator`channels
      ensures Valid() && used <= |turns| && (ended <==> used < |turns|)
      ensures ended ==> turns[used].flagged
      ensures forall k: nat :: k < used ==> !turns[k].flagged
      ensures generator.channels == old(generator.channels)[id := generator.channels[id]] && generator.channels[id].open
      ensures sent + generator.channels[id].queue == old(generator.channels[id].queue) + Arrived(turns[..used])
      ensures Diligent(old(generator.channels[id].queue), turns[..used], |sent|)
    {
      ghost var queued := generator.channels[id].queue;
      sent, ended, used := [], false, 0;
      assert TakenSince(queued, turns[..0], 0, 0);
      while used < |turns|
        invariant used <= |turns| && !ended
        invariant forall k: nat :: k < used ==> !turns[k].flagged
        invariant id in generator.channels && generator.channels[id].open
        invariant generator.channels == old(generator.channels)[id := generator.channels[id]]
        invariant sent + generator.channels[id].queue == queued + Arrived(turns[..used])
        invariant Diligent(queued, turns[..used], |sent|)
      {
        if turns[used].flagged {
          ended := true;
          break;
        }
        ghost var waiting := generator.channels[id].queue;
        var got := RecvTimeout(id, turns[used].arrived);
        TurnTaken(queued, turns, used, sent, waiting, got, generator.channels[id].queue);
        sent := sent + got;
        used := used + 1;
      }
    }

    /** Waits for a quote on the channel while those of `arrived` come in; none means a timeout. */
    method RecvTimeout(id: Id, arrived: seq<Quote>) returns (got: seq<Quote>)
      requires id in generator.channels && generator.channels[id].open
      modifies generator`channels
      ensures id in generator.channels && generator.channels == old(generator.channels)[id := generator.channels[id]]
      ensures generator.channels[id].open
      ensures got + generator.channels[id].queue == old(generator.channels[id].queue) + arrived
      ensures |got| == if old(generator.channels[id].queue) + arrived == [] then 0 else 1
    {
      var queue := generator.channels[id].queue + arrived;
      if queue == [] {
        got := [];
      } else {
        got, queue := [queue[0]], queue[1..];
      }
      generator.channels := generator.channels[id := G.Channel(queue, true)];
    }

    /** One connection: reads a request, performs it, writes the answer. */
    method HandleRequest(stream: TcpStream) returns (request: Result<TcpMessage, ParseError>)
      requires Valid()
      modifies this`subscribers, this`nextId, generator`receivers, generator`index, generator`channels
      modifies stream
      ensures Valid() && generator.index.Keys == old(generator.index.Keys)
      ensures nextId == old(nextId) + if request.Success? && request.value.Cmd? then 1 else 0
      ensures (request, stream.incoming) == Read(old(stream.incoming))
      ensures var reply := Reply(old(generator.index.Keys), request);
              stream.outgoing == old(stream.outgoing) + if reply.Some? then Frame(reply.value) else []
      ensures var accepted := request.Success? && request.value.Cmd? && ToSet(request.value.cmd.tickers) <= old(generator.index.Keys);
              var id := old(nextId);
              && (accepted ==>
                    && id !in old(generator.receivers)
                    && generator.receivers == old(generator.receivers)[id := G.ReceiverInfo(id, ToSet(request.value.cmd.tickers))]
                    && subscribers == old(subscribers) + {id})
              && (!accepted ==>
                    && generator.receivers == old(generator.receivers) && generator.index == old(generator.index)
                    && generator.channels == old(generator.channels) && subscribers == old(subscribers))
    {
      request := stream.ReadTcpMessage();
      match request {
        case Failure(_) =>
        case Success(Cmd(cmd)) =>
          var r := AddSubscriber(cmd);
          match r {
            case Success(_) => stream.SendTcpMessage(Ack);
            case Failure(e) => stream.SendTcpMessage(Err(UNKNOWN_TICKER + e.t));
          }
        case Success(_) => stream.SendTcpMessage(Err(UNEXPECTED));
      }
    }
  }

  // ----- the client's side -----

  const LOCALHOST := Ipv4(127, 0, 0, 1)

  function SubscribeMessage(port: Port, tickers: seq<string>): TcpMessage {
    Cmd(SubscribeCommand(Stream, Udp, LOCALHOST, port, tickers))
  }

  lemma AsciiSize(s: string)
    requires Ascii(s)
    ensures Size(s) == |s|
  {
    EncodeAscii(s);
  }

  lemma OuterSize(outer: string)
    requires outer == GENERATOR_ERROR
    ensures Size(outer) == 17
  {
    AsciiSize(outer);
  }

  lemma InnerSize(inner: string)
    requires inner == NOT_EXISTS
    ensures Size(inner) == 23
  {
    AsciiSize(inner);
  }

  lemma PrefixSize(outer: string, inner: string)
    requires outer == GENERATOR_ERROR && inner == NOT_EXISTS
    ensures Size(outer + inner) == 40
  {
    OuterSize(outer);
    InnerSize(inner);
    SizeConcat(outer, inner);
  }

  lemma TagSize(tag: string)
    requires tag == "ERR|" || tag == "CMD|"
    ensures Size(tag) == 4
  {
    AsciiSize(tag);
  }

  /** A refusal takes 44 bytes more than the ticker it names. */
  lemma RefusalSize(prefix: string, tag: string, bad: Ticker)
    requires prefix == UNKNOWN_TICKER && tag == "ERR|"
    ensures Size(ToString(Err(prefix + bad))) == 44 + Size(bad)
  {
    SizeConcat(tag, prefix + bad);
    SizeConcat(prefix, bad);
    PrefixSize(GENERATOR_ERROR, NOT_EXISTS);
    TagSize(tag);
  }

  /** End to end over bytes. A client whose list survives the text round trip and fits a frame is
  answered Ack exactly when the server knows every ticker, and the client reads the Ack. Otherwise
  the answer names the first unknown ticker, and the client reads that text unchanged exactly when
  the ticker leaves room for the 44 bytes around it. */
  lemma EndToEnd(known: set<Ticker>, port: Port, tickers: seq<string>)
    requires Framable(SubscribeMessage(port, tickers))
    ensures var reply := Reply(known, Read(Frame(SubscribeMessage(port, tickers))).0);
            && reply.Some?
            && (reply.value == Ack <==> ToSet(tickers) <= known)
            && (ToSet(tickers) <= known ==> Read(Frame(reply.value)) == (Success(Ack), []))
            && (!(ToSet(tickers) <= known) ==>
                  var bad := FirstUnknown(known, tickers);
                  && reply.value == Err(UNKNOWN_TICKER + bad)
                  && (Read(Frame(reply.value)).0 == Success(reply.value) <==> Size(bad) <= MAX_MESSAGE - 44))
  {
    var m := SubscribeMessage(port, tickers);
    FrameReads(m);
    if ToSet(tickers) <= known {
      AckReads();
    } else {
      var bad := FirstUnknown(known, tickers);
      FrameReads(Err(UNKNOWN_TICKER + bad));
      RefusalSize(UNKNOWN_TICKER, "ERR|", bad);
    }
  }

  lemma FrameReads(m: TcpMessage)
    ensures Read(Frame(m)).0 == Success(m) <==> Framable(m)
    ensures Framable(m) ==> Read(Frame(m)).1 == []
  {
    assert Frame(m) + [] == Frame(m);
    FrameRoundTrip(m, []);
  }

  lemma AckReads()
    ensures Framable(Ack) && Read(Frame(Ack)) == (Success(Ack), [])
  {
    AsciiSize("ACK");
    FrameReads(Ack);
  }

  /** Up to a size the two limits differ: one unknown ticker of 9999970 characters can be asked
  for, but the server's refusal is above the size limit and the client cannot read it. */
  lemma RefusalCanBeTooBig(bad: Ticker)
    requires |bad| == 9_999_970 && forall c :: c in bad ==> c == 'A'
    ensures Framable(SubscribeMessage(8091, [bad]))
    ensures var reply := Reply({}, Success(SubscribeMessage(8091, [bad])));
            reply == Some(Err(UNKNOWN_TICKER + bad)) && Read(Frame(reply.value)).0 == Failure(MsgTooBig)
  {
    AsciiSize(bad);
    SingleTickerSize(bad);
    RefusalSize(UNKNOWN_TICKER, "ERR|", bad);
    OversizedFrame(Err(UNKNOWN_TICKER + bad));
    OneUnknown(bad);
  }

  lemma OneUnknown(bad: Ticker)
    ensures Reply({}, Success(SubscribeMessage(8091, [bad]))) == Some(Err(UNKNOWN_TICKER + bad))
  {
    assert bad in ToSet([bad]);
  }

  lemma SingleTickerSize(bad: Ticker)
    ensures Size(ToString(SubscribeMessage(8091, [bad]))) == 30 + Size(bad)
  {
    var c := SubscribeCommand(Stream, Udp, LOCALHOST, 8091, [bad]);
    var f := Fields(c);
    var tag := "CMD|";
    SizeConcat(tag, PrintCommand(c));
    TagSize(tag);
    SizeFive(f);
    WordSize(f[0], 6);
    WordSize(f[1], 3);
    AddressSize(f[2]);
    PortSizeOf(f[3]);
  }

  lemma WordSize(w: string, n: nat)
    requires (w == "STREAM" && n == 6) || (w == "UDP" && n == 3)
    ensures Size(w) == n
  {
    AsciiSize(w);
  }

  lemma AddressSize(ip: string)
    requires ip == PrintIp(LOCALHOST)
    ensures Size(ip) == 9
  {
    LocalhostText(ip);
    AsciiSize(ip);
  }

  lemma LocalhostText(ip: string)
    requires ip == PrintIp(LOCALHOST)
    ensures ip == ['1', '2', '7', '.', '0', '.', '0', '.', '1']
  {
    assert Text.Print(127) == ['1', '2', '7'] && Text.Print(0) == ['0'] && Text.Print(1) == ['1'];
  }

  lemma PortSizeOf(p: string)
    requires p == Text.Print(8091)
    ensures Size(p) == 4
  {
    assert p == "8091";
    AsciiSize(p);
  }

  lemma OversizedFrame(m: TcpMessage)
    requires MAX_MESSAGE < Size(ToString(m)) < U32
    ensures Read(Frame(m)).0 == Failure(MsgTooBig)
  {
    var body := Encode(ToString(m));
    FrameShape(m, [], body);
    OversizedBody(body, Frame(m) + []);
    assert Frame(m) + [] == Frame(m);
  }

  lemma OversizedBody(body: seq<Byte>, bs: seq<Byte>)
    requires MAX_MESSAGE < |body| < U32 && bs == BigEndian(|body| % U32) + (body + [])
    ensures Read(bs).0 == Failure(MsgTooBig)
  {
    ReadBody(body, |body|, []);
  }

  /** What the server says to a list of tickers. */
  function Verdict(known: set<Ticker>, tickers: seq<string>): TcpMessage {
    if ToSet(tickers) <= known then Ack else Err(UNKNOWN_TICKER + FirstUnknown(known, tickers))
  }

  /** What the client makes of it: a refusal that names too long a ticker is above its size limit. */
  function Heard(known: set<Ticker>, tickers: seq<string>): Result<TcpMessage, ParseError> {
    if ToSet(tickers) <= known || Size(FirstUnknown(known, tickers)) <= MAX_MESSAGE - 44
    then Success(Verdict(known, tickers))
    else Failure(MsgTooBig)
  }

  lemma {:induction false} JoinHolds(parts: seq<string>, sep: char, p: string)
    requires p in parts && sep as int < 0x80
    ensures Size(p) <= Size(Text.Join(parts, sep))
  {
    if |parts| > 1 {
      SizeJoin(parts, sep);
      if p != parts[0] {
        JoinHolds(parts[1..], sep, p);
      }
    }
  }

  /** A ticker is no longer than the request that names it. */
  lemma TickerFits(c: SubscribeCommand, t: string)
    requires t in c.tickers
    ensures Size(t) <= Size(ToString(Cmd(c)))
  {
    JoinHolds(c.tickers, ',', t);
    JoinHolds(Fields(c), '|', Fields(c)[4]);
    SizeConcat("CMD|", PrintCommand(c));
  }

  lemma LongRefusal(c: SubscribeCommand, prefix: string, tag: string, bad: Ticker)
    requires prefix == UNKNOWN_TICKER && tag == "ERR|"
    requires bad in c.tickers && Size(ToString(Cmd(c))) <= MAX_MESSAGE && Size(bad) > MAX_MESSAGE - 44
    ensures Read(Frame(Err(prefix + bad))).0 == Failure(MsgTooBig)
  {
    TickerFits(c, bad);
    RefusalSize(prefix, tag, bad);
    OversizedFrame(Err(prefix + bad));
  }

  /** Any framable request arrives unchanged, and its verdict is heard as stated, with nothing left in
  the stream when it is readable. */
  lemma ClientReads(known: set<Ticker>, port: Port, tickers: seq<string>)
    requires Framable(SubscribeMessage(port, tickers))
    ensures var request := SubscribeMessage(port, tickers);
            && Read(Frame(request)) == (Success(request), [])
            && Reply(known, Success(request)) == Some(Verdict(known, tickers))
            && Read(Frame(Verdict(known, tickers))).0 == Heard(known, tickers)
            && (Heard(known, tickers).Success? ==> Read(Frame(Verdict(known, tickers))).1 == [])
  {
    FrameReads(SubscribeMessage(port, tickers));
    FrameReads(Verdict(known, tickers));
    EndToEnd(known, port, tickers);
    if Heard(known, tickers).Failure? {
      LongRefusal(SubscribeMessage(port, tickers).cmd, UNKNOWN_TICKER, "ERR|", FirstUnknown(known, tickers));
    }
  }

  /** The client connects, sends its request and reads the answer, with the server's handler in
  between. The client hears the verdict exactly when it is an Ack or the first unknown ticker leaves
  room for the refusal; in any case the server registered the tickers exactly when it knows them all. */
  method SubscribeTo(server: Processor, port: Port, tickers: seq<string>) returns (answer: Result<TcpMessage, ParseError>)
    requires server.Valid()
    requires Framable(SubscribeMessage(port, tickers))
    modifies server`subscribers, server`nextId
    modifies server.generator`receivers, server.generator`index, server.generator`channels
    ensures server.Valid() && server.generator.index.Keys == old(server.generator.index.Keys)
    ensures answer == Heard(old(server.generator.index.Keys), tickers)
    ensures answer == Success(Verdict(old(server.generator.index.Keys), tickers)) <==>
              || ToSet(tickers) <= old(server.generator.index.Keys)
              || Size(FirstUnknown(old(server.generator.index.Keys), tickers)) <= MAX_MESSAGE - 44
    ensures answer == Success(Ack) <==> ToSet(tickers) <= old(server.generator.index.Keys)
    ensures answer == Success(Ack) ==>
              var id := old(server.nextId);
              && id !in old(server.generator.receivers)
              && server.generator.receivers == old(server.generator.receivers)[id := G.ReceiverInfo(id, ToSet(tickers))]
              && server.subscribers == old(server.subscribers) + {id}
    ensures answer != Success(Ack) ==>
              && server.generator.receivers == old(server.generator.receivers)
              && server.generator.index == old(server.generator.index)
              && server.subscribers == old(server.subscribers)
  {
    ghost var known := server.generator.index.Keys;
    ClientReads(known, port, tickers);
    var output, received := Serve(server, Frame(SubscribeMessage(port, tickers)));
    assert output == Frame(Verdict(known, tickers));
    answer := Receive(output);
  }

  /** A connection as the server sees it: the bytes received and the bytes answered. */
  method Serve(server: Processor, input: seq<Byte>) returns (output: seq<Byte>, request: Result<TcpMessage, ParseError>)
    requires server.Valid()
    modifies server`subscribers, server`nextId
    modifies server.generator`receivers, server.generator`index, server.generator`channels
    ensures server.Valid() && server.generator.index.Keys == old(server.generator.index.Keys)
    ensures request == Read(input).0
    ensures var reply := Reply(old(server.generator.index.Keys), request);
            output == if reply.Some? then Frame(reply.value) else []
    ensures var accepted := request.Success? && request.value.Cmd? && ToSet(request.value.cmd.tickers) <= old(server.generator.index.Keys);
            var id := old(server.nextId);
            && (accepted ==>
                  && id !in old(server.generator.receivers)
                  && server.generator.receivers == old(server.generator.receivers)[id := G.ReceiverInfo(id, ToSet(request.value.cmd.tickers))]
                  && server.subscribers == old(server.subscribers) + {id})
            && (!accepted ==>
                  && server.generator.receivers == old(server.generator.receivers)
                  && server.generator.index == old(server.generator.index)
                  && server.subscribers == old(server.subscribers))
  {
    var connection := new TcpStream(input);
    request := server.HandleRequest(connection);
    output := connection.outgoing;
  }

  method Receive(bytes: seq<Byte>) returns (r: Result<TcpMessage, ParseError>)
    ensures r == Read(bytes).0
  {
    var stream := new TcpStream(bytes);
    r := stream.ReadTcpMessage();
  }
}
