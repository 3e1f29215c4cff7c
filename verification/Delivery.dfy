/** What subscribers receive, over whole runs: gap-free delivery, exact fan-out, price walks. */
module Delivery {
  import opened Registry
  import opened Machine
  import opened Lifecycle
  import Prices

  function PriceSeq(made: seq<Quote>): seq<real> {
    seq(|made|, i requires 0 <= i < |made| => made[i].price)
  }

  predicate InRound(pc: TickPc) {
    pc.Stored? || pc.Snapped? || pc.Walking?
  }

  function Snapshot(pc: TickPc): set<Id> {
    if pc.Snapped? || pc.Walking? then pc.snap else {}
  }

  /** The quotes of a ticker are a price walk from `first`, and the stored price is the last one. */
  ghost predicate PricesOk(t: Ticker, first: real, made: seq<Quote>, stored: real) {
    && (forall i :: 0 <= i < |made| ==> made[i].ticker == t)
    && Prices.MIN_PRICE <= first && Prices.Walk(first, PriceSeq(made))
    && stored == Prices.Before(first, PriceSeq(made), |made|)
  }

  /** The quote in flight is the last one made; a walk has visited part of its snapshot. */
  ghost predicate PcOk(pc: TickPc, made: seq<Quote>, stored: real) {
    && (pc.Priced? ==> Prices.WalkStep(stored, pc.price))
    && (InRound(pc) ==> |made| > 0 && pc.q == made[|made| - 1])
    && (pc.Walking? ==> pc.left <= pc.snap && pc.sent <= pc.snap && pc.dead <= pc.sent)
  }

  ghost predicate TickStory(s: State, t: Ticker)
    requires t in s.tick
  {
    var k := s.tick[t];
    && t in s.prices
    && PricesOk(t, k.first, k.made, s.prices[t])
    && PcOk(k.pc, k.made, s.prices[t])
    && Snapshot(k.pc) <= s.sess.Keys
  }

  /** How many quotes of the ticker a live, indexed subscriber has been offered. */
  function HighWater(k: Tick, id: Id): nat {
    if |k.made| > 0 &&
       (k.pc.Stored? || (k.pc.Snapped? && id in k.pc.snap) || (k.pc.Walking? && id in k.pc.left))
    then |k.made| - 1
    else |k.made|
  }

  /** The snapshot of a round in flight is exact: the ids indexed before it, of which none that is
  still registered is missing. While the walk holds its read guard, `sent` is exactly the
  registered part of what was visited. */
  ghost predicate RoundOk(k: Tick, c: Session, t: Ticker, id: Id, live: bool) {
    var pc := k.pc;
    (pc.Snapped? || pc.Walking?) ==>
      && (id in pc.snap ==> t in c.joined && c.joined[t] < |k.made|)
      && (t in c.joined && c.joined[t] < |k.made| && live ==> id in pc.snap)
      && (pc.Walking? ==> (id in pc.sent <==> id in pc.snap && id !in pc.left && live))
  }

  /** The quotes of `k` that were sent to `c` are a slice of those made, starting at the first
  round that saw the subscription; a live subscriber has the whole slice up to now. */
  ghost predicate SliceOk(k: Tick, c: Session, t: Ticker, id: Id, live: bool) {
    var got := Project(c.enq, t);
    if t !in c.joined then got == []
    else
      && c.joined[t] <= NextRound(k)
      && c.joined[t] + |got| <= |k.made|
      && got == k.made[c.joined[t]..c.joined[t] + |got|]
      && (live && c.open ==> c.joined[t] + |got| == HighWater(k, id))
  }

  ghost predicate PairOk(s: State, t: Ticker, id: Id)
    requires t in s.tick && id in s.sess
  {
    && RoundOk(s.tick[t], s.sess[id], t, id, id in s.receivers)
    && SliceOk(s.tick[t], s.sess[id], t, id, id in s.receivers)
    && (t in s.index && id in s.index[t] ==> t in s.sess[id].joined)
  }

  ghost predicate Story(s: State) {
    && (forall t :: t in s.tick ==> TickStory(s, t))
    && (forall t, id :: t in s.tick && id in s.sess ==> PairOk(s, t, id))
  }

  // ----- every step keeps it -----

  /** A pair keeps its part while its ticker thread stands still, the session gets no quote of this
  ticker, no entry appears, and none disappears during a walk. */
  lemma FramePair(s: State, t: Ticker, id: Id, s': State)
    requires t in s.tick && id in s.sess && PairOk(s, t, id)
    requires t in s'.tick && id in s'.sess && s'.tick[t] == s.tick[t]
    requires s'.sess[id].joined == s.sess[id].joined && (s'.sess[id].open ==> s.sess[id].open)
    requires Project(s'.sess[id].enq, t) == Project(s.sess[id].enq, t)
    requires id in s'.receivers ==> id in s.receivers
    requires s.tick[t].pc.Walking? ==> (id in s'.receivers <==> id in s.receivers)
    requires t in s'.index && id in s'.index[t] ==> t in s.index && id in s.index[t]
    ensures PairOk(s', t, id)
  {}

  lemma NewPair(s: State, t: Ticker, want: seq<Ticker>, s': State)
    requires IdsOk(s) && t in s.tick && TickStory(s, t) && Arrive(s, want, s')
    ensures PairOk(s', t, s.nextId)
  {
    assert s.nextId !in s.sess;
  }

  lemma InsertPair(s: State, t: Ticker, id: Id, s': State)
    requires t in s.tick && id in s.sess && SessionOk(s, id) && PairOk(s, t, id) && Insert(s, id, s')
    ensures PairOk(s', t, id)
  {}

  lemma PublishPair(s: State, t: Ticker, id: Id, s': State)
    requires t in s.tick && id in s.sess && SessionOk(s, id) && PairOk(s, t, id) && TickStory(s, t)
    requires Publish(s, id, s')
    ensures PairOk(s', t, id)
  {
    assert Project(s.sess[id].enq, t) == [];
  }

  /** Apart from the session `id` nothing moved that a pair depends on. */
  ghost predicate Moved(s: State, id: Id, s': State) {
    && Put(s, id, s')
    && (forall x :: x != id ==> (x in s'.receivers <==> x in s.receivers))
    && (forall x, t :: x != id && t in s'.index && x in s'.index[t] ==> t in s.index && x in s.index[t])
  }

  /** The session itself gained no entry, and lost one only while no walk was in progress. */
  ghost predicate Calm(s: State, id: Id, s': State) {
    && id in s.sess && id in s'.sess && s'.sess[id].joined == s.sess[id].joined
    && (id in s'.receivers ==> id in s.receivers)
    && ((id in s.receivers ==> id in s'.receivers) || ReceiversFree(s))
    && (forall t :: t in s'.index && id in s'.index[t] ==> t in s.index && id in s.index[t])
  }

  lemma SessionEffect(s: State, id: Id, s': State)
    requires id in s.sess && SessionOk(s, id) && SessionStep(s, id, s')
    ensures Moved(s, id, s')
    ensures Insert(s, id, s') || Publish(s, id, s') || Calm(s, id, s')
  {
    if Insert(s, id, s') || Publish(s, id, s') || Remove(s, id, s') {
      RegistryOwn(s, id, s');
      if Remove(s, id, s') {
        RemoveCalm(s, id, s');
      }
    } else {
      SessionOwn(s, id, s');
    }
  }

  lemma RemoveCalm(s: State, id: Id, s': State)
    requires Remove(s, id, s')
    ensures Calm(s, id, s')
  {
    RemoverShrinks(s, s.sess[id].pc.r);
  }

  /** A section of remove_receiver adds nothing, and changes the receivers only while none is walked. */
  lemma RemoverShrinks(s: State, r: Remover)
    requires RemoverEnabled(s, r)
    ensures var m := RemoverApply(s, r);
            && m.sess == s.sess && m.receivers.Keys <= s.receivers.Keys && m.index.Keys == s.index.Keys
            && (m.receivers == s.receivers || ReceiversFree(s))
            && forall t :: t in m.index ==> m.index[t] <= s.index[t]
  {}

  lemma OwnPair(s: State, t: Ticker, id: Id, s': State)
    requires t in s.tick && id in s.sess && SessionOk(s, id) && TickStory(s, t) && PairOk(s, t, id)
    requires Put(s, id, s') && (Insert(s, id, s') || Publish(s, id, s') || Calm(s, id, s'))
    ensures id in s'.sess && t in s'.tick && PairOk(s', t, id)
  {
    if Insert(s, id, s') {
      InsertPair(s, t, id, s');
    } else if Publish(s, id, s') {
      PublishPair(s, t, id, s');
    } else {
      FramePair(s, t, id, s');
    }
  }

  lemma SessionStory(s: State, id: Id, s': State)
    requires Inv(s) && Story(s) && SessionStep(s, id, s')
    ensures Story(s')
  {
    assert SessionOk(s, id);
    SessionEffect(s, id, s');
    SessionTicks(s, id, s');
    forall t, x | t in s'.tick && x in s'.sess ensures PairOk(s', t, x) {
      assert PairOk(s, t, x) && TickStory(s, t);
      SessionPair(s, t, id, s', x);
    }
  }

  lemma SessionPair(s: State, t: Ticker, id: Id, s': State, x: Id)
    requires t in s.tick && x in s.sess && id in s.sess && PairOk(s, t, x) && TickStory(s, t) && SessionOk(s, id)
    requires Moved(s, id, s') && (Insert(s, id, s') || Publish(s, id, s') || Calm(s, id, s'))
    ensures x in s'.sess && t in s'.tick && PairOk(s', t, x)
  {
    if x == id {
      OwnPair(s, t, id, s');
    } else {
      FramePair(s, t, x, s');
    }
  }

  lemma SessionTicks(s: State, id: Id, s': State)
    requires Put(s, id, s') && forall t :: t in s.tick ==> TickStory(s, t)
    ensures forall t :: t in s'.tick ==> TickStory(s', t)
  {
    forall t | t in s'.tick ensures TickStory(s', t) {
      assert TickStory(s, t);
    }
  }

  // Ticker threads.

  lemma PricePair(s: State, t: Ticker, change: real, s': State, id: Id)
    requires t in s.tick && id in s.sess && PairOk(s, t, id) && Price(s, t, change, s')
    ensures PairOk(s', t, id)
  {}

  lemma StorePair(s: State, t: Ticker, volume: nat, now: nat, s': State, id: Id)
    requires t in s.tick && id in s.sess && PairOk(s, t, id) && TickStory(s, t) && Store(s, t, volume, now, s')
    ensures PairOk(s', t, id)
  {}

  /** Every registered and indexed id is in the snapshot. */
  lemma SnapPair(s: State, t: Ticker, s': State, id: Id)
    requires t in s.tick && id in s.sess && SessionOk(s, id) && PairOk(s, t, id) && TickStory(s, t)
    requires t in s.index && Snap(s, t, s')
    ensures PairOk(s', t, id)
  {
    assert id in s.receivers && t in s.sess[id].joined ==> id in s.index[t];
  }

  lemma OpenPair(s: State, t: Ticker, s': State, id: Id)
    requires t in s.tick && id in s.sess && PairOk(s, t, id) && TickStory(s, t) && Open(s, t, s')
    ensures PairOk(s', t, id)
  {}

  lemma ClosePair(s: State, t: Ticker, s': State, id: Id)
    requires t in s.tick && id in s.sess && PairOk(s, t, id) && Close(s, t, s')
    ensures PairOk(s', t, id)
  {}

  /** Between rounds a ticker thread can move and clean up without touching any slice. */
  lemma CleanPair(s: State, t: Ticker, s': State, id: Id)
    requires t in s.tick && id in s.sess && PairOk(s, t, id)
    requires t in s'.tick && s'.tick[t].made == s.tick[t].made && s'.sess == s.sess
    requires !InRound(s.tick[t].pc) && !InRound(s'.tick[t].pc)
    requires id in s'.receivers ==> id in s.receivers
    requires t in s'.index && id in s'.index[t] ==> t in s.index && id in s.index[t]
    ensures PairOk(s', t, id)
  {}

  lemma SweepFrame(s: State, t: Ticker, s': State)
    requires Sweep(s, t, s')
    ensures t in s'.tick && s'.tick[t].made == s.tick[t].made && !InRound(s'.tick[t].pc)
    ensures s'.prices == s.prices && s'.sess == s.sess
    ensures s'.receivers == s.receivers || ReceiversFree(s)
    ensures s'.receivers.Keys <= s.receivers.Keys
    ensures forall k, x :: k in s'.index && x in s'.index[k] ==> k in s.index && x in s.index[k]
  {}

  lemma VisitEffect(s: State, t: Ticker, v: Id, s': State)
    requires Visit(s, t, v, s')
    ensures s' == s.(sess := s'.sess, tick := s.tick[t := s'.tick[t]])
    ensures s'.sess == s.sess[v := s'.sess[v]]
    ensures s'.tick[t] == s.tick[t].(pc := s'.tick[t].pc)
    ensures s'.sess[v] == s.sess[v].(queue := s'.sess[v].queue, enq := s'.sess[v].enq)
    ensures s'.sess[v].enq == if v in s.receivers && s.sess[v].open then s.sess[v].enq + [s.tick[t].pc.q] else s.sess[v].enq
    ensures var (pc, pc') := (s.tick[t].pc, s'.tick[t].pc);
            && pc'.Walking? && pc'.q == pc.q && pc'.snap == pc.snap && pc'.left == pc.left - {v}
            && pc'.sent == (if v in s.receivers then pc.sent + {v} else pc.sent)
            && pc.dead <= pc'.dead <= pc.dead + (if v in s.receivers then {v} else {})
  {}

  /** The visited session gets exactly the quote it was missing. */
  lemma SendSlice(k: Tick, c: Session, t: Ticker, v: Id, k': Tick, c': Session)
    requires k.pc.Walking? && v in k.pc.left && v in k.pc.snap && PcOk(k.pc, k.made, 0.0)
    requires RoundOk(k, c, t, v, true) && SliceOk(k, c, t, v, true) && c.open
    requires forall i :: 0 <= i < |k.made| ==> k.made[i].ticker == t
    requires k' == k.(pc := k'.pc) && k'.pc.Walking? && v !in k'.pc.left
    requires c' == c.(queue := c'.queue, enq := c.enq + [k.pc.q])
    ensures SliceOk(k', c', t, v, true)
  {
    ProjectSnoc(c.enq, k.pc.q, t);
    var lo := c.joined[t];
    var n := |Project(c.enq, t)|;
    assert k.made[lo..lo + n] + [k.made[lo + n]] == k.made[lo..lo + n + 1];
  }

  lemma VisitPair(s: State, t: Ticker, v: Id, s': State)
    requires t in s.tick && v in s.sess && PairOk(s, t, v) && TickStory(s, t) && Visit(s, t, v, s')
    ensures v in s'.sess && t in s'.tick && PairOk(s', t, v)
  {
    VisitEffect(s, t, v, s');
    if v in s.receivers && s.sess[v].open {
      SendSlice(s.tick[t], s.sess[v], t, v, s'.tick[t], s'.sess[v]);
    }
  }

  lemma VisitSameTick(s: State, t: Ticker, v: Id, s': State, id: Id)
    requires t in s.tick && id in s.sess && PairOk(s, t, id) && id != v && Visit(s, t, v, s')
    ensures id in s'.sess && t in s'.tick && PairOk(s', t, id)
  {
    VisitEffect(s, t, v, s');
  }

  lemma VisitOtherTick(s: State, t: Ticker, v: Id, s': State, k: Ticker, id: Id)
    requires t in s.tick && Visit(s, t, v, s') && s.tick[t].pc.q.ticker == t
    requires k in s.tick && id in s.sess && PairOk(s, k, id) && k != t
    ensures id in s'.sess && k in s'.tick && PairOk(s', k, id)
  {
    VisitEffect(s, t, v, s');
    ProjectSnoc(s.sess[v].enq, s.tick[t].pc.q, k);
    FramePair(s, k, id, s');
  }

  lemma VisitStory(s: State, t: Ticker, v: Id, s': State)
    requires Story(s) && Visit(s, t, v, s')
    ensures Story(s')
  {
    VisitEffect(s, t, v, s');
    VisitTicks(s, t, v, s');
    assert TickStory(s, t);
    forall k, id | k in s'.tick && id in s'.sess ensures PairOk(s', k, id) {
      assert PairOk(s, k, id);
      if k != t {
        VisitOtherTick(s, t, v, s', k, id);
      } else if id != v {
        VisitSameTick(s, t, v, s', id);
      } else {
        VisitPair(s, t, v, s');
      }
    }
  }

  lemma VisitTicks(s: State, t: Ticker, v: Id, s': State)
    requires Visit(s, t, v, s') && forall k :: k in s.tick ==> TickStory(s, k)
    ensures forall k :: k in s'.tick ==> TickStory(s', k)
  {
    VisitEffect(s, t, v, s');
    forall k | k in s'.tick ensures TickStory(s', k) {
      assert TickStory(s, k);
    }
  }

  /** The other ticker threads, and their pairs, when `t` moves and sends nothing. */
  lemma TickOthers(s: State, t: Ticker, s': State)
    requires Story(s) && t in s.tick && t in s'.tick && s'.tick == s.tick[t := s'.tick[t]] && s'.sess == s.sess
    requires s'.receivers == s.receivers || (ReceiversFree(s) && s'.receivers.Keys <= s.receivers.Keys)
    requires forall k, x :: k in s'.index && x in s'.index[k] ==> k in s.index && x in s.index[k]
    requires forall k :: k in s.prices && k != t ==> k in s'.prices && s'.prices[k] == s.prices[k]
    ensures forall k :: k in s'.tick && k != t ==> TickStory(s', k)
    ensures forall k, id :: k in s'.tick && id in s'.sess && k != t ==> PairOk(s', k, id)
  {
    forall k | k in s'.tick && k != t ensures TickStory(s', k) {
      assert TickStory(s, k);
    }
    forall k, id | k in s'.tick && id in s'.sess && k != t ensures PairOk(s', k, id) {
      assert PairOk(s, k, id);
      FramePair(s, k, id, s');
    }
  }

  lemma SweepStory(s: State, t: Ticker, s': State)
    requires Inv(s) && Story(s) && Sweep(s, t, s')
    ensures Story(s')
  {
    assert TickOk(s, t) && TickStory(s, t);
    SweepOwn(s, t, s');
    SweepFrame(s, t, s');
    TickOthers(s, t, s');
    SweepTick(s, t, s');
    forall id | id in s'.sess ensures PairOk(s', t, id) {
      assert PairOk(s, t, id);
      CleanPair(s, t, s', id);
    }
  }

  lemma SweepTick(s: State, t: Ticker, s': State)
    requires t in s.tick && TickStory(s, t) && Sweep(s, t, s')
    ensures TickStory(s', t)
  {
    SweepFrame(s, t, s');
  }

  lemma PriceTick(s: State, t: Ticker, change: real, s': State)
    requires t in s.tick && TickStory(s, t) && Price(s, t, change, s')
    ensures TickStory(s', t)
  {}

  lemma StoreTick(s: State, t: Ticker, volume: nat, now: nat, s': State)
    requires t in s.tick && TickStory(s, t) && Store(s, t, volume, now, s')
    ensures TickStory(s', t)
  {
    var k := s.tick[t];
    var k' := s'.tick[t];
    assert PriceSeq(k'.made) == PriceSeq(k.made) + [k.pc.price];
    forall i | 0 <= i < |k'.made|
      ensures Prices.WalkStep(Prices.Before(k.first, PriceSeq(k'.made), i), PriceSeq(k'.made)[i])
    {
      if i < |k.made| {
        assert PriceSeq(k.made)[i] == PriceSeq(k'.made)[i];
        assert Prices.Before(k.first, PriceSeq(k'.made), i) == Prices.Before(k.first, PriceSeq(k.made), i);
      } else {
        assert Prices.Before(k.first, PriceSeq(k'.made), i) == Prices.Before(k.first, PriceSeq(k.made), i);
      }
    }
  }

  lemma MoveTick(s: State, t: Ticker, id: Id, s': State)
    requires t in s.tick && TickStory(s, t) && IdsOk(s)
    requires Snap(s, t, s') || Open(s, t, s') || Close(s, t, s') || Purge(s, t, id, s') || Rest(s, t, s')
    ensures TickStory(s', t)
  {}

  lemma PriceStory(s: State, t: Ticker, change: real, s': State)
    requires Story(s) && Price(s, t, change, s')
    ensures Story(s')
  {
    assert TickStory(s, t);
    PriceTick(s, t, change, s');
    TickOthers(s, t, s');
    forall id | id in s'.sess ensures PairOk(s', t, id) {
      assert PairOk(s, t, id);
      PricePair(s, t, change, s', id);
    }
  }

  lemma StoreStory(s: State, t: Ticker, volume: nat, now: nat, s': State)
    requires Story(s) && Store(s, t, volume, now, s')
    ensures Story(s')
  {
    assert TickStory(s, t);
    StoreTick(s, t, volume, now, s');
    TickOthers(s, t, s');
    forall id | id in s'.sess ensures PairOk(s', t, id) {
      assert PairOk(s, t, id);
      StorePair(s, t, volume, now, s', id);
    }
  }

  lemma SnapStory(s: State, t: Ticker, s': State)
    requires Inv(s) && Story(s) && Snap(s, t, s')
    ensures Story(s')
  {
    assert TickStory(s, t);
    MoveTick(s, t, 0, s');
    TickOthers(s, t, s');
    forall id | id in s'.sess ensures PairOk(s', t, id) {
      assert PairOk(s, t, id) && SessionOk(s, id);
      SnapPair(s, t, s', id);
    }
  }

  lemma OpenStory(s: State, t: Ticker, s': State)
    requires Inv(s) && Story(s) && Open(s, t, s')
    ensures Story(s')
  {
    assert TickStory(s, t);
    MoveTick(s, t, 0, s');
    TickOthers(s, t, s');
    forall id | id in s'.sess ensures PairOk(s', t, id) {
      assert PairOk(s, t, id);
      OpenPair(s, t, s', id);
    }
  }

  lemma CloseStory(s: State, t: Ticker, s': State)
    requires Inv(s) && Story(s) && Close(s, t, s')
    ensures Story(s')
  {
    assert TickStory(s, t);
    MoveTick(s, t, 0, s');
    TickOthers(s, t, s');
    forall id | id in s'.sess ensures PairOk(s', t, id) {
      assert PairOk(s, t, id);
      ClosePair(s, t, s', id);
    }
  }

  lemma RestStory(s: State, t: Ticker, dead: Id, s': State)
    requires Inv(s) && Story(s) && (Purge(s, t, dead, s') || Rest(s, t, s'))
    ensures Story(s')
  {
    assert TickStory(s, t);
    MoveTick(s, t, dead, s');
    TickOthers(s, t, s');
    forall id | id in s'.sess ensures PairOk(s', t, id) {
      assert PairOk(s, t, id);
      CleanPair(s, t, s', id);
    }
  }

  lemma TickStepStory(s: State, t: Ticker, s': State)
    requires Inv(s) && Story(s) && TickStep(s, t, s')
    ensures Story(s')
  {
    if Sweep(s, t, s') {
      SweepStory(s, t, s');
    } else if id :| Visit(s, t, id, s') {
      VisitStory(s, t, id, s');
    } else if id :| Purge(s, t, id, s') {
      RestStory(s, t, id, s');
    } else if Rest(s, t, s') {
      RestStory(s, t, 0, s');
    } else if Close(s, t, s') {
      CloseStory(s, t, s');
    } else if Snap(s, t, s') {
      SnapStory(s, t, s');
    } else if Open(s, t, s') {
      OpenStory(s, t, s');
    } else if change :| Price(s, t, change, s') {
      PriceStory(s, t, change, s');
    } else {
      var volume, now :| Store(s, t, volume, now, s');
      StoreStory(s, t, volume, now, s');
    }
  }

  lemma ArriveStory(s: State, want: seq<Ticker>, s': State)
    requires Inv(s) && Story(s) && Arrive(s, want, s')
    ensures Story(s')
  {
    ArriveOwn(s, want, s');
    forall t | t in s'.tick ensures TickStory(s', t) {
      assert TickStory(s, t);
    }
    forall t, x | t in s'.tick && x in s'.sess ensures PairOk(s', t, x) {
      assert TickStory(s, t);
      if x == s.nextId {
        NewPair(s, t, want, s');
      } else {
        assert PairOk(s, t, x);
        FramePair(s, t, x, s');
      }
    }
  }

  lemma StepStory(s: State, s': State)
    requires Inv(s) && Story(s) && Next(s, s')
    ensures Story(s')
  {
    if want :| Arrive(s, want, s') {
      ArriveStory(s, want, s');
    } else if id :| SessionStep(s, id, s') {
      SessionStory(s, id, s');
    } else {
      var t :| TickStep(s, t, s');
      TickStepStory(s, t, s');
    }
  }

  lemma InitStory(s: State)
    requires Init(s)
    ensures Story(s)
  {
    forall t | t in s.tick ensures TickStory(s, t) {
      assert s.tick[t] == Tick(Idle, s.prices[t], []);
    }
  }

  lemma {:induction false} RunStory(b: seq<State>, i: nat)
    requires Run(b) && Init(b[0]) && i < |b|
    ensures Story(b[i])
  {
    if i == 0 {
      InitStory(b[0]);
    } else {
      RunStory(b, i - 1);
      StoryAt(b, i);
    }
  }

  lemma StoryAt(b: seq<State>, i: nat)
    requires Run(b) && Init(b[0]) && 0 < i < |b| && Story(b[i - 1])
    ensures Story(b[i])
  {
    RunReachable(b, i - 1);
    ReachableInv(b[i - 1]);
    assert StepAt(b, i - 1);
    StepStory(b[i - 1], b[i]);
  }

  lemma ReachableStory(s: State)
    requires Reachable(s)
    ensures Story(s)
  {
    var b :| Run(b) && Init(b[0]) && b[|b| - 1] == s;
    RunStory(b, |b| - 1);
  }

  lemma ReachablePair(s: State, t: Ticker, id: Id)
    requires Reachable(s) && t in s.tick && id in s.sess
    ensures PairOk(s, t, id) && TickStory(s, t) && SessionOk(s, id)
  {
    ReachableStory(s);
    ReachableSession(s, id);
  }

  // ----- main results -----

  /** Gap-free ordered delivery. What a subscriber took from its channel is, ticker by ticker, a
  contiguous slice of what that ticker's thread made, in order and each quote once, starting with
  the first quote whose snapshot followed the subscription; a ticker it did not ask for
  contributes nothing. */
  lemma GapFreeDelivery(s: State, t: Ticker, id: Id)
    requires Reachable(s) && t in s.tick && id in s.sess
    ensures var (c, made) := (s.sess[id], s.tick[t].made);
            var got := Project(c.taken, t);
            if t in c.joined
            then t in c.want && c.joined[t] + |got| <= |made| && got == made[c.joined[t]..c.joined[t] + |got|]
            else got == []
  {
    ReachablePair(s, t, id);
    TakenSlice(s.tick[t], s.sess[id], t, id, id in s.receivers);
  }

  lemma TakenSlice(k: Tick, c: Session, t: Ticker, id: Id, live: bool)
    requires SliceOk(k, c, t, id, live) && c.taken <= c.enq
    ensures var got := Project(c.taken, t);
            if t in c.joined
            then c.joined[t] + |got| <= |k.made| && got == k.made[c.joined[t]..c.joined[t] + |got|]
            else got == []
  {
    assert c.taken == c.enq[..|c.taken|];
    ProjectPrefix(c.enq, |c.taken|, t);
  }

  /** Nothing is lost on the way: while the receiving end exists, what was taken and what is still
  queued are together exactly what was sent, in order. */
  lemma ChannelConserves(s: State, id: Id)
    requires Reachable(s) && id in s.sess && s.sess[id].open
    ensures s.sess[id].taken + s.sess[id].queue == s.sess[id].enq
  {
    ReachableSession(s, id);
  }

  /** Nothing is missing either. At every moment, in the middle of a round too, a registered and
  indexed subscriber with a live channel has been sent every quote of the ticker since it joined,
  up to the last one made, or the last but one while the quote in flight has yet to reach it:
  the round has not taken its index snapshot, or the snapshot has the id and it is unvisited. */
  lemma DeliveryComplete(s: State, t: Ticker, id: Id)
    requires Reachable(s) && t in s.tick && id in s.sess
    requires id in s.receivers && t in s.sess[id].joined && s.sess[id].open
    ensures s.sess[id].joined[t] <= HighWater(s.tick[t], id) <= |s.tick[t].made|
    ensures Project(s.sess[id].taken + s.sess[id].queue, t)
         == s.tick[t].made[s.sess[id].joined[t]..HighWater(s.tick[t], id)]
    ensures !InRound(s.tick[t].pc) ==> HighWater(s.tick[t], id) == |s.tick[t].made|
  {
    ReachablePair(s, t, id);
  }

  /** Fan-out through the index equals a full scan of the receivers, at the moment the walk ends:
  every send went to an id that is registered and subscribed to the ticker, and every such id got
  one unless it was indexed only after this round's snapshot. */
  lemma FanOutExact(s: State, t: Ticker)
    requires Reachable(s) && t in s.tick && s.tick[t].pc.Walking? && s.tick[t].pc.left == {}
    ensures s.tick[t].pc.sent <= FullScan(s.receivers, t)
    ensures forall id :: id in FullScan(s.receivers, t) ==> id in s.sess
    ensures forall id :: id in FullScan(s.receivers, t) ==>
              (id in s.tick[t].pc.sent <==> t in s.sess[id].joined && s.sess[id].joined[t] < |s.tick[t].made|)
  {
    ReachableIds(s);
    forall id | id in FullScan(s.receivers, t) || id in s.tick[t].pc.sent
      ensures id in s.sess && (id in s.tick[t].pc.sent ==> id in FullScan(s.receivers, t))
      ensures id in s.tick[t].pc.sent <==> t in s.sess[id].joined && s.sess[id].joined[t] < |s.tick[t].made|
                                           && id in s.receivers
    {
      FanOutFor(s, t, id);
    }
  }

  lemma FanOutFor(s: State, t: Ticker, id: Id)
    requires Reachable(s) && t in s.tick && s.tick[t].pc.Walking? && s.tick[t].pc.left == {}
    requires id in s.receivers || id in s.tick[t].pc.sent
    ensures id in s.sess && (id in s.tick[t].pc.sent ==> id in FullScan(s.receivers, t))
    ensures id in s.tick[t].pc.sent <==> t in s.sess[id].joined && s.sess[id].joined[t] < |s.tick[t].made|
                                         && id in s.receivers
  {
    ReachableIds(s);
    ReachableStory(s);
    assert TickStory(s, t);
    ReachablePair(s, t, id);
  }

  /** At most one send per id and round: an id still to be visited has not been sent to. */
  lemma OneSendPerRound(s: State, t: Ticker)
    requires Reachable(s) && t in s.tick && s.tick[t].pc.Walking?
    ensures s.tick[t].pc.sent !! s.tick[t].pc.left
  {
    ReachableStory(s);
    assert TickStory(s, t);
    forall id | id in s.tick[t].pc.sent ensures id !in s.tick[t].pc.left {
      assert PairOk(s, t, id);
    }
  }

  /** A ticker thread adds at most one quote in a step, with its ticker and a volume in range. */
  ghost predicate Grows(t: Ticker, made: seq<Quote>, made': seq<Quote>) {
    made' == made || (|made'| == |made| + 1 && made' == made + [made'[|made|]]
                      && made'[|made|].ticker == t && VolumeOk(t, made'[|made|].volume))
  }

  lemma StoreGrows(s: State, t: Ticker, volume: nat, now: nat, s': State)
    requires Store(s, t, volume, now, s')
    ensures t in s'.tick && Grows(t, s.tick[t].made, s'.tick[t].made)
  {}

  lemma MoveKeepsMade(s: State, t: Ticker, change: real, s': State)
    requires Price(s, t, change, s') || Snap(s, t, s') || Open(s, t, s')
    ensures t in s'.tick && s'.tick[t].made == s.tick[t].made
  {}

  lemma RestKeepsMade(s: State, t: Ticker, id: Id, s': State)
    requires Close(s, t, s') || Purge(s, t, id, s') || Rest(s, t, s')
    ensures t in s'.tick && s'.tick[t].made == s.tick[t].made
  {}

  lemma TickGrows(s: State, t: Ticker, s': State)
    requires TickStep(s, t, s') && t in s.tick
    ensures t in s'.tick && Grows(t, s.tick[t].made, s'.tick[t].made)
  {
    if volume, now :| Store(s, t, volume, now, s') {
      StoreGrows(s, t, volume, now, s');
    } else if Sweep(s, t, s') {
      SweepFrame(s, t, s');
    } else if id :| Visit(s, t, id, s') {
      VisitEffect(s, t, id, s');
    } else if id :| Purge(s, t, id, s') {
      RestKeepsMade(s, t, id, s');
    } else if Close(s, t, s') || Rest(s, t, s') {
      RestKeepsMade(s, t, 0, s');
    } else if change :| Price(s, t, change, s') {
      MoveKeepsMade(s, t, change, s');
    } else {
      MoveKeepsMade(s, t, 0.0, s');
    }
  }

  ghost predicate AllInRange(t: Ticker, made: seq<Quote>) {
    forall i :: 0 <= i < |made| ==> InRange(t, made[i])
  }

  predicate InRange(t: Ticker, q: Quote) {
    q.ticker == t && VolumeOk(t, q.volume)
  }

  lemma StepInRange(s: State, s': State, t: Ticker)
    requires Inv(s) && Next(s, s') && t in s.tick && AllInRange(t, s.tick[t].made)
    ensures t in s'.tick && AllInRange(t, s'.tick[t].made)
  {
    if want :| Arrive(s, want, s') {
      assert s'.tick == s.tick;
    } else if id :| SessionStep(s, id, s') {
      SessionShape(s, id, s');
    } else {
      var k :| TickStep(s, k, s');
      TickShape(s, k, s');
      if k == t {
        TickGrows(s, t, s');
      }
    }
  }

  lemma {:induction false} RunInRange(b: seq<State>, i: nat, t: Ticker)
    requires Run(b) && Init(b[0]) && i < |b| && t in b[0].tick
    ensures t in b[i].tick && AllInRange(t, b[i].tick[t].made)
  {
    if i > 0 {
      RunInRange(b, i - 1, t);
      InRangeAt(b, i, t);
    }
  }

  lemma InRangeAt(b: seq<State>, i: nat, t: Ticker)
    requires Run(b) && Init(b[0]) && 0 < i < |b| && t in b[i - 1].tick && AllInRange(t, b[i - 1].tick[t].made)
    ensures t in b[i].tick && AllInRange(t, b[i].tick[t].made)
  {
    RunReachable(b, i - 1);
    ReachableInv(b[i - 1]);
    assert StepAt(b, i - 1);
    StepInRange(b[i - 1], b[i], t);
  }

  /** Every quote names its ticker and has a volume in the ticker's range. */
  lemma QuoteContents(s: State, t: Ticker, i: nat)
    requires Reachable(s) && t in s.tick && i < |s.tick[t].made|
    ensures var q := s.tick[t].made[i];
            && q.ticker == t
            && if t == "AAPL" || t == "MSFT" || t == "TSLA" then 1000 <= q.volume < 6000 else 100 <= q.volume < 1100
  {
    var b :| Run(b) && Init(b[0]) && b[|b| - 1] == s;
    InitInv(b[0]);
    KeysSame(b, |b| - 1);
    RunInRange(b, |b| - 1, t);
    assert InRange(t, s.tick[t].made[i]);
    VolumeIs(t, s.tick[t].made[i].volume, "AAPL", "MSFT", "TSLA");
  }

  lemma VolumeIs(t: Ticker, volume: nat, a: Ticker, m: Ticker, l: Ticker)
    requires a == "AAPL" && m == "MSFT" && l == "TSLA"
    ensures VolumeOk(t, volume) <==> if t == a || t == m || t == l then 1000 <= volume < 6000 else 100 <= volume < 1100
  {}

  /** No price update is lost although reading and storing are separate critical sections: each
  quote is one walk step from the quote before it, the stored price is the last quote's, and the
  n-th quote stays within the compound bounds. */
  lemma PriceWalk(s: State, t: Ticker, n: nat)
    requires Reachable(s) && t in s.tick && n <= |s.tick[t].made|
    ensures Prices.Walk(s.tick[t].first, PriceSeq(s.tick[t].made))
    ensures t in s.prices && s.prices[t] == Prices.Before(s.tick[t].first, PriceSeq(s.tick[t].made), |s.tick[t].made|)
    ensures var (p0, p) := (s.tick[t].first, Prices.Before(s.tick[t].first, PriceSeq(s.tick[t].made), n));
            Prices.Max(Prices.MIN_PRICE, Prices.Compound(p0, 0.98, n)) <= p <= Prices.Compound(p0, 1.02, n)
  {
    ReachableStory(s);
    assert TickStory(s, t);
    Prices.WalkBounds(s.tick[t].first, PriceSeq(s.tick[t].made), n);
  }
}
