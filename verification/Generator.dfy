/** The quote generator used by one thread at a time: the maps as mutable fields, each operation
with the loops of the source, proved against the functions of Registry.dfy. */
module Generator {
  import opened Wrappers
  import opened Registry
  import Prices

  datatype PriceChange = PriceChange(price: real, lastChange: nat)

  /** `channel` names the sending end that the receiver was registered with. */
  datatype ReceiverInfo = ReceiverInfo(channel: nat, tickers: set<Ticker>)

  /** An unbounded channel; `open` says that its receiving end still exists. */
  datatype Channel = Channel(queue: seq<Quote>, open: bool)

  datatype GeneratorError = TickerNotExists(t: Ticker)

  function Subscriptions(receivers: map<Id, ReceiverInfo>): map<Id, set<Ticker>> {
    map id | id in receivers :: receivers[id].tickers
  }

  function Push(c: Channel, q: Quote): Channel {
    if c.open then c.(queue := c.queue + [q]) else c
  }

  /** The sending ends of the registered receivers among `ids`. */
  function Handles(receivers: map<Id, ReceiverInfo>, ids: set<Id>): set<nat> {
    set id | id in ids && id in receivers :: receivers[id].channel
  }

  /** Every channel in `handles` got the quote, every other one is as before. */
  function Broadcast(channels: map<nat, Channel>, handles: set<nat>, q: Quote): map<nat, Channel> {
    map c | c in channels :: if c in handles then Push(channels[c], q) else channels[c]
  }

  /** The registered receivers among `ids` whose receiving end is gone. */
  function ClosedAmong(receivers: map<Id, ReceiverInfo>, channels: map<nat, Channel>, ids: set<Id>): set<Id> {
    set id | id in ids && id in receivers
             && receivers[id].channel in channels && !channels[receivers[id].channel].open
  }

  /** The subscribers of `t` whose receiving end is gone. */
  function DeadFor(receivers: map<Id, ReceiverInfo>, channels: map<nat, Channel>, t: Ticker): set<Id> {
    ClosedAmong(receivers, channels, FullScan(Subscriptions(receivers), t))
  }

  /** Every receiver has a channel, and no two share one. */
  ghost predicate OwnChannels(receivers: map<Id, ReceiverInfo>, channels: map<nat, Channel>) {
    && (forall id :: id in receivers ==> receivers[id].channel in channels)
    && (forall a, b :: a in receivers && b in receivers && a != b ==> receivers[a].channel != receivers[b].channel)
  }

  /** `price` was drawn for an occurrence of `t` in the list. */
  ghost predicate DrawnFor(tickers: seq<Ticker>, draws: seq<real>, t: Ticker, price: real)
    requires |draws| == |tickers|
  {
    exists i :: 0 <= i < |tickers| && tickers[i] == t && draws[i] == price
  }

  class QuoteGenerator {
    var prices: map<Ticker, PriceChange>
    var receivers: map<Id, ReceiverInfo>
    var index: map<Ticker, set<Id>>
    var channels: map<nat, Channel>

    ghost predicate Valid()
      reads this
    {
      && index.Keys == prices.Keys
      && Inverted(Subscriptions(receivers), index)
      && OwnChannels(receivers, channels)
    }

    /** One entry per distinct ticker, at the random start price drawn for it, with no receiver. */
    constructor (tickers: seq<Ticker>, draws: seq<real>)
      requires |draws| == |tickers|
      requires forall i :: 0 <= i < |draws| ==> Prices.MIN_PRICE <= draws[i] < Prices.MAX_START_PRICE
      ensures Valid() && receivers == map[] && channels == map[]
      ensures prices.Keys == ToSet(tickers)
      ensures forall t :: t in prices ==>
                prices[t].lastChange == 0 && Prices.MIN_PRICE <= prices[t].price < Prices.MAX_START_PRICE
      ensures forall t :: t in prices ==> DrawnFor(tickers, draws, t, prices[t].price)
    {
      var ps: map<Ticker, PriceChange>, ix: map<Ticker, set<Id>> := map[], map[];
      for i := 0 to |tickers|
        invariant ps.Keys == ix.Keys == ToSet(tickers[..i])
        invariant forall t :: t in ix ==> ix[t] == {}
        invariant forall t :: t in ps ==>
                    ps[t].lastChange == 0 && Prices.MIN_PRICE <= ps[t].price < Prices.MAX_START_PRICE
        invariant forall t :: t in ps ==> DrawnFor(tickers, draws, t, ps[t].price)
      {
        assert tickers[..i + 1] == tickers[..i] + [tickers[i]];
        ps := ps[tickers[i] := PriceChange(draws[i], 0)];
        ix := ix[tickers[i] := {}];
        assert DrawnFor(tickers, draws, tickers[i], draws[i]);
      }
      assert tickers[..|tickers|] == tickers;
      prices, receivers, index, channels := ps, map[], ix, map[];
    }

    /** Refuses the whole request on the first unknown ticker and then changes nothing; otherwise
    registers `id` with exactly the given tickers, overwriting any entry it had. */
    method AddReceiver(id: Id, channel: nat, tickers: seq<Ticker>) returns (r: Result<(), GeneratorError>)
      requires index.Keys == prices.Keys
      modifies this`receivers, this`index
      ensures r.Success? <==> ToSet(tickers) <= index.Keys
      ensures r.Failure? ==> receivers == old(receivers) && index == old(index)
      ensures r.Failure? ==> exists t :: t in tickers && t !in old(index)
      ensures r.Failure? ==> r.error.t == FirstUnknown(old(index.Keys), tickers)
      ensures index.Keys == old(index.Keys)
      ensures r.Success? ==>
                && receivers == old(receivers)[id := ReceiverInfo(channel, ToSet(tickers))]
                && index == AddToIndex(old(index), ToSet(tickers), id)
      ensures r.Success? ==>
                && (forall t :: t in receivers[id].tickers <==> t in tickers)
                && forall t, x :: t in index ==> (x in index[t] <==> x in old(index)[t] || (x == id && t in tickers))
    {
      for i := 0 to |tickers|
        invariant ToSet(tickers[..i]) <= index.Keys
      {
        if tickers[i] !in index {
          UnknownAt(index.Keys, tickers, i);
          return Failure(TickerNotExists(tickers[i]));
        }
        assert tickers[..i + 1] == tickers[..i] + [tickers[i]];
      }
      assert tickers[..|tickers|] == tickers;

      receivers := receivers[id := ReceiverInfo(channel, ToSet(tickers))];
      IndexReceiver(id, tickers);
      assert index.Keys == old(index.Keys);
      return Success(());
    }

    /** The last loop of adding: `id` enters the set of each ticker. */
    method IndexReceiver(id: Id, tickers: seq<Ticker>)
      modifies this`index
      ensures index == AddToIndex(old(index), ToSet(tickers), id)
      ensures forall t :: t in index <==> t in old(index) || t in tickers
      ensures forall t, x :: t in index ==>
                (x in index[t] <==> (t in old(index) && x in old(index)[t]) || (x == id && t in tickers))
    {
      AddNothing(index, id);
      for i := 0 to |tickers|
        invariant index == AddToIndex(old(index), ToSet(tickers[..i]), id)
      {
        var t := tickers[i];
        AddOneMore(old(index), tickers, i, id);
        var ids := if t in index then index[t] else {};
        index := index[t := ids + {id}];
      }
      assert tickers[..|tickers|] == tickers;
    }

    /** Takes `id` out of the receivers and out of the sets of the tickers it was subscribed to. */
    method RemoveReceiver(id: Id)
      modifies this`receivers, this`index
      ensures receivers == old(receivers) - {id}
      ensures index == DropFromIndex(old(index), if id in old(receivers) then old(receivers)[id].tickers else {}, id)
      ensures index.Keys == old(index.Keys)
      ensures forall t, x :: t in index ==>
                (x in index[t] <==> x in old(index)[t] && !(x == id && id in old(receivers) && t in old(receivers)[id].tickers))
    {
      var tickers := if id in receivers then receivers[id].tickers else {};
      receivers := receivers - {id};
      var todo := tickers;
      while todo != {}
        modifies this`index
        invariant todo <= tickers
        invariant index == DropFromIndex(old(index), tickers - todo, id)
      {
        var t :| t in todo;
        todo := todo - {t};
        if t in index {
          index := index[t := index[t] - {id}];
        }
      }
      assert tickers - todo == tickers;
    }

    /** Draws and stores the next price of the ticker; an unknown ticker yields nothing. */
    method GenerateQuote(t: Ticker, change: real, volume: nat, now: nat) returns (r: Option<Quote>)
      requires Prices.ChangeOk(change)
      modifies this`prices
      ensures t !in old(prices) ==> r == None && prices == old(prices)
      ensures t in old(prices) ==>
                && var p := Prices.NewPrice(old(prices)[t].price, change);
                   r == Some(Quote(t, p, volume, now)) && prices == old(prices)[t := PriceChange(p, now)]
      ensures r.Some? ==>
                var moved := old(prices)[t].price + old(prices)[t].price * change;
                prices[t].price == if moved < 0.01 then 0.01 else moved
      ensures r.Some? ==> Prices.WalkStep(old(prices)[t].price, prices[t].price)
      ensures r.Some? && old(prices)[t].price >= Prices.MIN_PRICE ==>
                && Prices.MIN_PRICE <= prices[t].price == r.value.price
                && 0.98 * old(prices)[t].price <= prices[t].price <= 1.02 * old(prices)[t].price
    {
      if t !in prices {
        return None;
      }
      var newPrice := Prices.NewPrice(prices[t].price, change);
      Prices.NewPriceIs(prices[t].price, change);
      if prices[t].price >= Prices.MIN_PRICE {
        Prices.WalkStepBounds(prices[t].price, newPrice);
      }
      if t in prices {
        prices := prices[t := PriceChange(newPrice, now)];
      }
      return Some(Quote(t, newPrice, volume, now));
    }

    /** The sending end: fails, and delivers nothing, once the receiving end is gone. */
    method Send(c: nat, q: Quote) returns (ok: bool)
      requires c in channels
      modifies this`channels
      ensures channels == old(channels)[c := Push(old(channels)[c], q)]
      ensures ok == old(channels)[c].open
      ensures ok ==> channels[c] == Channel(old(channels)[c].queue + [q], true)
      ensures !ok ==> channels == old(channels)
    {
      ok := channels[c].open;
      if ok {
        channels := channels[c := channels[c].(queue := channels[c].queue + [q])];
      }
    }

    /** The send loop over a snapshot: every id of it that is registered gets the quote on its own
    channel, no other channel changes, and the ids whose receiving end is gone are collected. */
    method SendAll(ids: set<Id>, q: Quote) returns (dead: set<Id>)
      requires OwnChannels(receivers, channels)
      modifies this`channels
      ensures channels == Broadcast(old(channels), Handles(receivers, ids), q)
      ensures dead == ClosedAmong(receivers, old(channels), ids)
      ensures channels.Keys == old(channels.Keys)
      ensures forall id :: id in ids && id in receivers ==>
                var c := receivers[id].channel;
                channels[c] == if old(channels)[c].open then Channel(old(channels)[c].queue + [q], true) else old(channels)[c]
      ensures forall c :: c in channels && (forall id :: id in ids && id in receivers ==> receivers[id].channel != c) ==>
                channels[c] == old(channels)[c]
      ensures forall id :: id in dead <==> id in ids && id in receivers && !old(channels)[receivers[id].channel].open
    {
      dead := {};
      var left := ids;
      ghost var done := {};
      while left != {}
        invariant left !! done && left + done == ids
        invariant channels == Broadcast(old(channels), Handles(receivers, done), q)
        invariant dead == ClosedAmong(receivers, old(channels), done)
      {
        var id :| id in left;
        left := left - {id};
        if id in receivers {
          HandlesOneMore(receivers, channels, done, id);
          BroadcastOne(old(channels), Handles(receivers, done), receivers[id].channel, q);
          var ok := Send(receivers[id].channel, q);
          if !ok {
            dead := dead + {id};
          }
        }
        done := done + {id};
      }
      BroadcastMeans(receivers, old(channels), ids, q);
    }

    /** One quote to the subscribers found through the index: with a valid registry it reaches
    exactly the channels that a scan of all receivers would reach. */
    method FanOut(t: Ticker, q: Quote) returns (dead: set<Id>)
      requires Valid()
      modifies this`channels
      ensures channels == Broadcast(old(channels), Handles(receivers, FullScan(Subscriptions(receivers), t)), q)
      ensures dead == DeadFor(receivers, old(channels), t)
      ensures Valid() && channels.Keys == old(channels.Keys)
      ensures forall id :: id in receivers && t in receivers[id].tickers ==>
                var c := receivers[id].channel;
                channels[c] == if old(channels)[c].open then Channel(old(channels)[c].queue + [q], true) else old(channels)[c]
      ensures forall c :: c in channels && (forall id :: id in receivers && t in receivers[id].tickers ==> receivers[id].channel != c) ==>
                channels[c] == old(channels)[c]
      ensures forall id :: id in dead <==>
                id in receivers && t in receivers[id].tickers && !old(channels)[receivers[id].channel].open
    {
      var ids := if t in index then index[t] else {};
      assert ids == FullScan(Subscriptions(receivers), t);
      dead := SendAll(ids, q);
    }

    /** Removes the receivers whose channel turned out to be closed. */
    method Cleanup(dead: set<Id>)
      requires Inverted(Subscriptions(receivers), index)
      modifies this`receivers, this`index
      ensures forall id :: id in receivers <==> id in old(receivers) && id !in dead
      ensures forall id :: id in receivers ==> receivers[id] == old(receivers)[id]
      ensures Inverted(Subscriptions(receivers), index) && index.Keys == old(index.Keys)
    {
      var todo := dead;
      while todo != {}
        invariant todo <= dead
        invariant receivers == old(receivers) - (dead - todo)
        invariant Inverted(Subscriptions(receivers), index) && index.Keys == old(index.Keys)
      {
        var id :| id in todo;
        RemoveKeepsInverted(Subscriptions(receivers), index, id);
        ghost var before := receivers;
        RemoveReceiver(id);
        assert Subscriptions(receivers) == Subscriptions(before) - {id};
        todo := todo - {id};
      }
      assert dead - todo == dead;
    }

    /** One iteration of the ticker thread: make a quote, send it, remove the dead receivers. */
    method Round(t: Ticker, change: real, volume: nat, now: nat) returns (r: Option<Quote>)
      requires Valid() && Prices.ChangeOk(change)
      modifies this
      ensures Valid() && prices.Keys == old(prices.Keys)
      ensures t in old(prices) ==>
                && var p := Prices.NewPrice(old(prices)[t].price, change);
                   r == Some(Quote(t, p, volume, now)) && prices == old(prices)[t := PriceChange(p, now)]
      ensures t !in old(prices) ==> r == None && prices == old(prices)
      ensures r.None? ==> channels == old(channels) && receivers == old(receivers)
      ensures channels.Keys == old(channels.Keys)
      ensures r.Some? ==>
                forall id :: id in old(receivers) && t in old(receivers)[id].tickers ==>
                  var c := old(receivers)[id].channel;
                  channels[c] == if old(channels)[c].open then Channel(old(channels)[c].queue + [r.value], true) else old(channels)[c]
      ensures forall c :: c in channels && (forall id :: id in old(receivers) && t in old(receivers)[id].tickers ==> old(receivers)[id].channel != c) ==>
                channels[c] == old(channels)[c]
      ensures r.Some? ==>
                forall id :: id in receivers <==>
                  && id in old(receivers)
                  && (t in old(receivers)[id].tickers ==> old(channels)[old(receivers)[id].channel].open)
      ensures forall id :: id in receivers ==> id in old(receivers) && receivers[id] == old(receivers)[id]
    {
      r := GenerateQuote(t, change, volume, now);
      var dead := {};
      if r.Some? {
        dead := FanOut(t, r.value);
      }
      if dead != {} {
        Cleanup(dead);
      }
    }
  }

  lemma AddNothing(index: map<Ticker, set<Id>>, id: Id)
    ensures index == AddToIndex(index, {}, id)
  {
    var ix := AddToIndex(index, {}, id);
    forall t | t in ix ensures ix[t] == index[t] {}
    assert ix.Keys == index.Keys;
  }

  lemma AddOneMore(index: map<Ticker, set<Id>>, tickers: seq<Ticker>, i: nat, id: Id)
    requires i < |tickers|
    ensures var (ix, t) := (AddToIndex(index, ToSet(tickers[..i]), id), tickers[i]);
            AddToIndex(index, ToSet(tickers[..i + 1]), id) == ix[t := (if t in ix then ix[t] else {}) + {id}]
  {
    assert tickers[..i + 1] == tickers[..i] + [tickers[i]];
    var (ts, t) := (ToSet(tickers[..i]), tickers[i]);
    assert ToSet(tickers[..i + 1]) == ts + {t};
    var (ix, ix') := (AddToIndex(index, ts, id), AddToIndex(index, ts + {t}, id));
    var jx := ix[t := (if t in ix then ix[t] else {}) + {id}];
    assert ix'.Keys == jx.Keys;
    forall u | u in ix' ensures ix'[u] == jx[u] {}
  }

  lemma UnknownAt(known: set<Ticker>, want: seq<Ticker>, i: nat)
    requires i < |want| && want[i] !in known && ToSet(want[..i]) <= known
    ensures FirstUnknown(known, want) == want[i]
  {
    var r := FirstUnknown(known, want);
    forall j | 0 <= j < i ensures want[j] in known {
      assert want[..i][j] == want[j];
    }
  }

  lemma HandlesOneMore(receivers: map<Id, ReceiverInfo>, channels: map<nat, Channel>, ids: set<Id>, id: Id)
    requires id in receivers && id !in ids && OwnChannels(receivers, channels)
    ensures Handles(receivers, ids + {id}) == Handles(receivers, ids) + {receivers[id].channel}
    ensures receivers[id].channel !in Handles(receivers, ids)
  {}

  lemma BroadcastOne(channels: map<nat, Channel>, handles: set<nat>, c: nat, q: Quote)
    requires c in channels && c !in handles
    ensures Broadcast(channels, handles + {c}, q) == Broadcast(channels, handles, q)[c := Push(channels[c], q)]
    ensures Broadcast(channels, handles, q)[c] == channels[c]
  {}

  /** Who gets the quote, receiver by receiver and channel by channel. */
  lemma BroadcastMeans(receivers: map<Id, ReceiverInfo>, channels: map<nat, Channel>, ids: set<Id>, q: Quote)
    requires OwnChannels(receivers, channels)
    ensures var after := Broadcast(channels, Handles(receivers, ids), q);
            && after.Keys == channels.Keys
            && (forall id :: id in ids && id in receivers ==>
                  var c := receivers[id].channel;
                  after[c] == if channels[c].open then Channel(channels[c].queue + [q], true) else channels[c])
            && (forall c :: c in after && (forall id :: id in ids && id in receivers ==> receivers[id].channel != c) ==>
                  after[c] == channels[c])
  {}

  // ----- what the two registry operations keep and undo -----

  /** Removing a receiver keeps the index the exact inversion of the map. */
  lemma RemoveKeepsInverted(receivers: map<Id, set<Ticker>>, index: map<Ticker, set<Id>>, id: Id)
    requires Inverted(receivers, index)
    ensures Inverted(receivers - {id}, DropFromIndex(index, if id in receivers then receivers[id] else {}, id))
  {
    var ts := if id in receivers then receivers[id] else {};
    var (receivers', index') := (receivers - {id}, DropFromIndex(index, ts, id));
    forall t | t in index' ensures index'[t] == FullScan(receivers', t) {
      assert index[t] == FullScan(receivers, t);
    }
  }

  /** Adding keeps the inversion exactly when it does not orphan an old subscription of the same
  id: a reused id whose old entry had a ticker the new one lacks leaves it behind in the index. */
  lemma AddKeepsInverted(receivers: map<Id, set<Ticker>>, index: map<Ticker, set<Id>>, id: Id, ts: set<Ticker>)
    requires Inverted(receivers, index) && ts <= index.Keys
    ensures Inverted(receivers[id := ts], AddToIndex(index, ts, id)) <==> (id in receivers ==> receivers[id] <= ts)
  {
    var (receivers', index') := (receivers[id := ts], AddToIndex(index, ts, id));
    if id in receivers && !(receivers[id] <= ts) {
      var t :| t in receivers[id] && t !in ts;
      assert id in index'[t] && id !in FullScan(receivers', t);
    } else {
      forall t | t in index' ensures index'[t] == FullScan(receivers', t) {
        assert index[t] == FullScan(receivers, t);
      }
    }
  }

  /** For a fresh id, removing undoes adding: both maps are as before. */
  lemma RemoveUndoesAdd(receivers: map<Id, set<Ticker>>, index: map<Ticker, set<Id>>, id: Id, ts: set<Ticker>)
    requires Inverted(receivers, index) && ts <= index.Keys && id !in receivers
    ensures receivers[id := ts] - {id} == receivers
    ensures DropFromIndex(AddToIndex(index, ts, id), ts, id) == index
  {
    forall t | t in index ensures DropFromIndex(AddToIndex(index, ts, id), ts, id)[t] == index[t] {
      assert index[t] == FullScan(receivers, t);
    }
  }
}
