/** What every reachable state of the machine keeps about sessions and the registry. */
module Lifecycle {
  import opened Registry
  import opened Machine

  // ----- the invariant of one session -----

  /** The index lists `id` under exactly the tickers of `ts`. */
  ghost predicate IndexedAs(s: State, id: Id, ts: set<Ticker>) {
    forall t :: t in s.index ==> (id in s.index[t] <==> t in ts)
  }

  ghost predicate Registered(s: State, id: Id)
    requires id in s.sess
  {
    id in s.receivers && s.receivers[id] == ToSet(s.sess[id].want)
  }

  /** A ticker thread is about to take `id` out of the set of `t`. */
  ghost predicate PurgesIndex(pc: TickPc, id: Id, t: Ticker) {
    pc.Purging? && pc.r.Unindex? && pc.r.id == id && t in pc.r.ts
  }

  ghost predicate PurgePending(s: State, id: Id, t: Ticker) {
    exists k :: k in s.tick && PurgesIndex(s.tick[k].pc, id, t)
  }

  predicate InSubscribers(pc: SessionPc) {
    pc.Listed? || pc.Looping? || pc.Receiving? || pc.Joining? || pc.Leaving?
  }

  /** Registered, indexed under all its tickers, and not yet taken out. */
  predicate Active(pc: SessionPc) {
    || pc.Added? || InSubscribers(pc) || pc.Unlisted?
    || (pc.Removing? && !pc.r.Unindex?)
  }

  predicate NotYetIndexed(pc: SessionPc) {
    pc.Arrived? || pc.Locked? || pc.Checked? || pc.Inserted? || pc.Rejected?
  }

  ghost predicate RegistryOk(s: State, id: Id)
    requires id in s.sess
  {
    var c := s.sess[id];
    if Active(c.pc) then
      && Registered(s, id) && IndexedAs(s, id, ToSet(c.want))
      && (c.pc.Removing? ==> c.pc.r.id == id && (c.pc.r.Unmap? ==> c.pc.r.ts == ToSet(c.want)))
    else if c.pc.Inserted? then
      Registered(s, id) && IndexedAs(s, id, {})
    else if c.pc.Removing? then
      && c.pc.r.Unindex? && c.pc.r.id == id && c.pc.r.ts == ToSet(c.want)
      && id !in s.receivers && IndexedAs(s, id, c.pc.r.ts)
    else if c.pc.Dead? then
      if id in s.receivers then Registered(s, id) && IndexedAs(s, id, ToSet(c.want))
      else forall t {:trigger PurgePending(s, id, t)} ::
             t in s.index && id in s.index[t] ==> PurgePending(s, id, t)
    else
      id !in s.receivers && IndexedAs(s, id, {})
  }

  ghost predicate SessionOk(s: State, id: Id)
    requires id in s.sess
  {
    var c := s.sess[id];
    && RegistryOk(s, id)
    && (c.open <==> !(c.pc.Rejected? || c.pc.Closed? || c.pc.Dead?))
    && (!c.pc.Dead? ==> (id in s.subscribers <==> InSubscribers(c.pc)))
    && c.joined.Keys == (if NotYetIndexed(c.pc) then {} else ToSet(c.want))
    && (c.pc.Arrived? || c.pc.Locked? || c.pc.Rejected? || Known(s, id))
    && (if c.open then c.taken + c.queue == c.enq else c.queue == [] && c.taken <= c.enq)
  }

  // ----- the invariant of one ticker thread -----

  function Doomed(pc: TickPc): set<Id> {
    match pc
    case Walking(_, _, _, _, dead) => dead
    case Cleaning(todo) => todo
    case Purging(r, todo) => todo + {r.id}
    case _ => {}
  }

  /** Ticker threads remove only receivers whose streaming thread died. */
  ghost predicate TickOk(s: State, t: Ticker)
    requires t in s.tick
  {
    var pc := s.tick[t].pc;
    && (forall id :: id in Doomed(pc) ==> id in s.sess && s.sess[id].pc.Dead?)
    && (pc.Purging? && pc.r.Unmap? && pc.r.id in s.receivers ==> pc.r.ts == s.receivers[pc.r.id])
    && (pc.Purging? && pc.r.Unindex? ==> pc.r.id !in s.receivers)
  }

  ghost predicate IdsOk(s: State) {
    && s.index.Keys == s.prices.Keys == s.tick.Keys
    && (forall id: Id :: id in s.sess <==> id < s.nextId)
    && s.receivers.Keys <= s.sess.Keys
    && s.subscribers <= s.sess.Keys
    && (forall t, id :: t in s.index && id in s.index[t] ==> id in s.sess)
  }

  ghost predicate Inv(s: State) {
    && IdsOk(s)
    && (forall id :: id in s.sess ==> SessionOk(s, id))
    && (forall t :: t in s.tick ==> TickOk(s, t))
  }

  // ----- every step keeps it -----

  lemma InitInv(s: State)
    requires Init(s)
    ensures Inv(s)
  {
    forall t | t in s.tick ensures TickOk(s, t) {
      assert s.tick[t].pc == Idle;
    }
  }

  /** A session keeps its part when nothing it depends on has changed. */
  lemma SessionFrame(s: State, s': State, id: Id)
    requires id in s.sess && id in s'.sess && s'.sess[id] == s.sess[id] && SessionOk(s, id)
    requires id in s'.receivers <==> id in s.receivers
    requires id in s.receivers ==> s'.receivers[id] == s.receivers[id]
    requires id in s'.subscribers <==> id in s.subscribers
    requires s'.index.Keys == s.index.Keys
    requires forall t :: t in s.index ==> (id in s'.index[t] <==> id in s.index[t])
    requires forall t :: t in s.index && id in s.index[t] && PurgePending(s, id, t) ==> PurgePending(s', id, t)
    ensures SessionOk(s', id)
  {
    if s.sess[id].pc.Dead? && id !in s.receivers {
      forall t | t in s'.index && id in s'.index[t] ensures PurgePending(s', id, t) {
        assert PurgePending(s, id, t);
      }
    }
  }

  /** A ticker thread keeps its part while it does not move, no dead session comes back and no
  receiver entry appears or changes. */
  lemma TickFrame(s: State, s': State, t: Ticker)
    requires t in s.tick && t in s'.tick && s'.tick[t].pc == s.tick[t].pc && TickOk(s, t)
    requires forall id :: id in s.sess && s.sess[id].pc.Dead? ==> id in s'.sess && s'.sess[id].pc.Dead?
    requires forall id :: id in Doomed(s.tick[t].pc) && id in s'.receivers ==>
               id in s.receivers && s'.receivers[id] == s.receivers[id]
    ensures TickOk(s', t)
  {}

  lemma ArriveOwn(s: State, want: seq<Ticker>, s': State)
    requires IdsOk(s) && Arrive(s, want, s')
    ensures s.nextId !in s.sess && SessionOk(s', s.nextId) && IdsOk(s')
  {
    assert s.nextId !in s.sess;
  }

  lemma StepArrive(s: State, want: seq<Ticker>, s': State)
    requires Inv(s) && Arrive(s, want, s')
    ensures Inv(s')
  {
    ArriveOwn(s, want, s');
    forall x | x in s.sess ensures SessionOk(s', x) {
      assert SessionOk(s, x);
      SessionFrame(s, s', x);
    }
    forall t | t in s'.tick ensures TickOk(s', t) {
      assert TickOk(s, t);
      TickFrame(s, s', t);
    }
  }

  predicate Ended(pc: SessionPc) {
    pc.Closed? || pc.Rejected? || pc.Dead?
  }

  /** What a session keeps in its own steps: only ticker threads send to it, and an ended session
  does not resume. */
  predicate SameStory(c: Session, d: Session) {
    && d.want == c.want && d.enq == c.enq && c.taken <= d.taken
    && (d.open ==> c.open)
    && (Ended(c.pc) ==> d.pc == c.pc)
    && (d.joined == c.joined || c.pc.Inserted?)
  }

  /** Only the session `id` moved. */
  ghost predicate Put(s: State, id: Id, s': State) {
    && id in s.sess && id in s'.sess
    && s'.sess == s.sess[id := s'.sess[id]]
    && s'.tick == s.tick && s'.prices == s.prices && s'.nextId == s.nextId
    && SameStory(s.sess[id], s'.sess[id])
  }

  /** Only the session `id` moved, and of the maps only `subscribers` may have changed, at `id`. */
  ghost predicate Local(s: State, id: Id, s': State) {
    && Put(s, id, s')
    && s'.receivers == s.receivers && s'.index == s.index
    && (forall x :: x != id ==> (x in s'.subscribers <==> x in s.subscribers))
  }

  lemma LocalInv(s: State, id: Id, s': State)
    requires Inv(s) && Local(s, id, s') && SessionOk(s', id)
    ensures Inv(s')
  {
    PurgeSame(s, s');
    forall x | x in s'.sess && x != id ensures SessionOk(s', x) {
      assert SessionOk(s, x);
      SessionFrame(s, s', x);
    }
    TicksInv(s, s');
    assert IdsOk(s');
  }

  lemma LockOwn(s: State, id: Id, s': State)
    requires id in s.sess && SessionOk(s, id)
    requires Lock(s, id, s')
    ensures Local(s, id, s') && SessionOk(s', id)
  {}

  lemma CheckOwn(s: State, id: Id, s': State)
    requires id in s.sess && SessionOk(s, id)
    requires Check(s, id, s')
    ensures Local(s, id, s') && SessionOk(s', id)
  {
    if Known(s, id) {
      CheckPasses(s, id);
    } else {
      CheckRefuses(s, id);
    }
  }

  lemma CheckPasses(s: State, id: Id)
    requires id in s.sess && SessionOk(s, id) && s.sess[id].pc.Locked? && Known(s, id)
    ensures var s' := SetPc(s, id, Checked); Local(s, id, s') && SessionOk(s', id)
  {}

  lemma CheckRefuses(s: State, id: Id)
    requires id in s.sess && SessionOk(s, id) && s.sess[id].pc.Locked?
    ensures var s' := Drop(s, id, Rejected); Local(s, id, s') && SessionOk(s', id)
  {}

  lemma ListOwn(s: State, id: Id, s': State)
    requires id in s.sess && SessionOk(s, id)
    requires List(s, id, s')
    ensures Local(s, id, s') && SessionOk(s', id)
  {}

  lemma BindOwn(s: State, id: Id, ok: bool, s': State)
    requires id in s.sess && SessionOk(s, id)
    requires Bind(s, id, ok, s')
    ensures Local(s, id, s') && SessionOk(s', id)
  {}

  lemma TestOwn(s: State, id: Id, s': State)
    requires id in s.sess && SessionOk(s, id)
    requires Test(s, id, s')
    ensures Local(s, id, s') && SessionOk(s', id)
  {}

  lemma TakeOwn(s: State, id: Id, s': State)
    requires id in s.sess && SessionOk(s, id)
    requires Take(s, id, s')
    ensures Local(s, id, s') && SessionOk(s', id)
  {}

  lemma WaitOwn(s: State, id: Id, s': State)
    requires id in s.sess && SessionOk(s, id)
    requires Wait(s, id, s')
    ensures Local(s, id, s') && SessionOk(s', id)
  {}

  /** A streaming session is still registered, so its channel keeps its sending end. */
  lemma NoDisconnect(s: State, id: Id, s': State)
    requires id in s.sess && SessionOk(s, id)
    ensures !Disconnect(s, id, s')
  {}

  lemma JoinOwn(s: State, id: Id, s': State)
    requires id in s.sess && SessionOk(s, id)
    requires Join(s, id, s')
    ensures Local(s, id, s') && SessionOk(s', id)
  {}

  lemma UnlistOwn(s: State, id: Id, s': State)
    requires id in s.sess && SessionOk(s, id)
    requires Unlist(s, id, s')
    ensures Local(s, id, s') && SessionOk(s', id)
  {}

  lemma CloneOwn(s: State, id: Id, s': State)
    requires id in s.sess && SessionOk(s, id)
    requires Clone(s, id, s')
    ensures Local(s, id, s') && SessionOk(s', id)
  {}

  lemma DieOwn(s: State, id: Id, s': State)
    requires id in s.sess && SessionOk(s, id)
    requires Die(s, id, s')
    ensures Local(s, id, s') && SessionOk(s', id)
  {}

  lemma FlagOwn(s: State, id: Id, s': State)
    requires id in s.sess && SessionOk(s, id) && Flag(s, id, s')
    ensures Local(s, id, s') && SessionOk(s', id)
  {
    if s.sess[id].pc.Dead? && id !in s.receivers {
      forall t | t in s'.index && id in s'.index[t] ensures PurgePending(s', id, t) {
        assert PurgePending(s, id, t);
        var k :| k in s.tick && PurgesIndex(s.tick[k].pc, id, t);
        assert PurgesIndex(s'.tick[k].pc, id, t);
      }
    }
  }

  // ----- steps of a session on the registry -----

  /** Only the session `id` and its registry entries changed. */
  ghost predicate OthersKept(s: State, id: Id, s': State) {
    && Put(s, id, s') && s'.subscribers == s.subscribers
    && s'.index.Keys == s.index.Keys
    && (forall x :: x != id ==>
          && (x in s'.receivers <==> x in s.receivers)
          && (x in s.receivers ==> s'.receivers[x] == s.receivers[x]))
    && (forall x, t :: x != id && t in s.index ==> (x in s'.index[t] <==> x in s.index[t]))
  }

  lemma OthersInv(s: State, id: Id, s': State)
    requires forall x :: x in s.sess ==> SessionOk(s, x)
    requires OthersKept(s, id, s')
    requires forall x, t :: x != id && PurgePending(s, x, t) ==> PurgePending(s', x, t)
    ensures forall x :: x in s'.sess && x != id ==> SessionOk(s', x)
  {
    forall x | x in s'.sess && x != id ensures SessionOk(s', x) {
      assert SessionOk(s, x);
      SessionFrame(s, s', x);
    }
  }

  lemma PurgeSame(s: State, s': State)
    requires s'.tick == s.tick
    ensures forall x, t :: PurgePending(s, x, t) ==> PurgePending(s', x, t)
  {}

  /** Ticker threads keep their part when none of them moves, no dead session comes back and no
  entry of a dead session appears or changes. */
  lemma TicksInv(s: State, s': State)
    requires forall t :: t in s.tick ==> TickOk(s, t)
    requires s'.tick == s.tick && s'.sess.Keys == s.sess.Keys
    requires forall id :: id in s.sess && s.sess[id].pc.Dead? ==>
               && s'.sess[id].pc.Dead?
               && (id in s'.receivers ==> id in s.receivers && s'.receivers[id] == s.receivers[id])
    ensures forall t :: t in s'.tick ==> TickOk(s', t)
  {
    forall t | t in s'.tick ensures TickOk(s', t) {
      assert TickOk(s, t);
      TickFrame(s, s', t);
    }
  }

  lemma RegistryInv(s: State, id: Id, s': State)
    requires Inv(s) && id in s.sess && OthersKept(s, id, s') && SessionOk(s', id)
    requires !s.sess[id].pc.Dead?
    ensures Inv(s')
  {
    PurgeSame(s, s');
    OthersInv(s, id, s');
    TicksInv(s, s');
    assert IdsOk(s');
  }

  lemma InsertOwn(s: State, id: Id, s': State)
    requires id in s.sess && SessionOk(s, id) && Insert(s, id, s')
    ensures OthersKept(s, id, s') && SessionOk(s', id)
  {}

  lemma PublishOwn(s: State, id: Id, s': State)
    requires id in s.sess && SessionOk(s, id) && Publish(s, id, s')
    ensures OthersKept(s, id, s') && SessionOk(s', id)
  {
    assert Known(s, id);
    PublishIndex(s.index, ToSet(s.sess[id].want), id);
  }

  /** Publishing a validated request creates no key and touches only its own entries. */
  lemma PublishIndex(index: map<Ticker, set<Id>>, ts: set<Ticker>, id: Id)
    requires ts <= index.Keys
    ensures AddToIndex(index, ts, id).Keys == index.Keys
    ensures forall x, t :: t in index && (x != id || t !in ts) ==> (x in AddToIndex(index, ts, id)[t] <==> x in index[t])
    ensures forall t :: t in ts ==> id in AddToIndex(index, ts, id)[t]
  {}

  lemma LookOwn(s: State, id: Id, s': State)
    requires id in s.sess && SessionOk(s, id) && Remove(s, id, s') && s.sess[id].pc.r.Look?
    ensures OthersKept(s, id, s') && SessionOk(s', id)
  {}

  lemma UnmapOwn(s: State, id: Id, s': State)
    requires id in s.sess && SessionOk(s, id) && Remove(s, id, s') && s.sess[id].pc.r.Unmap?
    ensures OthersKept(s, id, s') && SessionOk(s', id)
  {}

  lemma UnindexOwn(s: State, id: Id, s': State)
    requires id in s.sess && SessionOk(s, id) && Remove(s, id, s') && s.sess[id].pc.r.Unindex?
    ensures OthersKept(s, id, s') && SessionOk(s', id)
  {
    var r := s.sess[id].pc.r;
    DropIndex(s.index, r.ts, id);
    assert s' == Drop(RemoverApply(s, r), id, Closed);
  }

  /** Dropping an id from the index keeps the keys and touches only its own entries. */
  lemma DropIndex(index: map<Ticker, set<Id>>, ts: set<Ticker>, id: Id)
    ensures DropFromIndex(index, ts, id).Keys == index.Keys
    ensures forall x, t :: t in index && (x != id || t !in ts) ==> (x in DropFromIndex(index, ts, id)[t] <==> x in index[t])
    ensures forall t :: t in index && t in ts ==> id !in DropFromIndex(index, ts, id)[t]
  {}

  lemma RegistryOwn(s: State, id: Id, s': State)
    requires id in s.sess && SessionOk(s, id)
    requires Insert(s, id, s') || Publish(s, id, s') || Remove(s, id, s')
    ensures OthersKept(s, id, s') && SessionOk(s', id) && !s.sess[id].pc.Dead?
  {
    if Insert(s, id, s') {
      InsertOwn(s, id, s');
    } else if Publish(s, id, s') {
      PublishOwn(s, id, s');
    } else if s.sess[id].pc.r.Look? {
      LookOwn(s, id, s');
    } else if s.sess[id].pc.r.Unmap? {
      UnmapOwn(s, id, s');
    } else {
      UnindexOwn(s, id, s');
    }
  }

  // ----- steps of a ticker thread -----

  /** A ticker thread that is not about to unindex can move without losing a pending purge. */
  lemma PurgeFrame(s: State, s': State, t: Ticker)
    requires t in s.tick && s'.tick.Keys == s.tick.Keys
    requires forall k :: k in s.tick && k != t ==> s'.tick[k].pc == s.tick[k].pc
    requires !(s.tick[t].pc.Purging? && s.tick[t].pc.r.Unindex?)
    ensures forall id, k :: PurgePending(s, id, k) ==> PurgePending(s', id, k)
  {
    forall id, k | PurgePending(s, id, k) ensures PurgePending(s', id, k) {
      var w :| w in s.tick && PurgesIndex(s.tick[w].pc, id, k);
      assert w != t;
      assert PurgesIndex(s'.tick[w].pc, id, k);
    }
  }

  /** Only the ticker thread `t` moved; sessions and both maps are as before. */
  ghost predicate Quiet(s: State, t: Ticker, s': State) {
    && t in s.tick && t in s'.tick && s'.tick == s.tick[t := s'.tick[t]]
    && s' == s.(tick := s'.tick, prices := s'.prices)
    && s'.prices.Keys == s.prices.Keys
    && !(s.tick[t].pc.Purging? && s.tick[t].pc.r.Unindex?)
  }

  lemma QuietInv(s: State, t: Ticker, s': State)
    requires Inv(s) && Quiet(s, t, s') && TickOk(s', t)
    ensures Inv(s')
  {
    PurgeFrame(s, s', t);
    forall x | x in s'.sess ensures SessionOk(s', x) {
      assert SessionOk(s, x);
      SessionFrame(s, s', x);
    }
    forall k | k in s'.tick && k != t ensures TickOk(s', k) {
      assert TickOk(s, k);
      TickFrame(s, s', k);
    }
  }

  lemma QuoteOwn(s: State, t: Ticker, change: real, volume: nat, now: nat, s': State)
    requires t in s.tick && TickOk(s, t)
    requires Price(s, t, change, s') || Store(s, t, volume, now, s') || Snap(s, t, s') || Open(s, t, s')
    ensures Quiet(s, t, s') && TickOk(s', t)
  {}

  lemma RoundOwn(s: State, t: Ticker, id: Id, s': State)
    requires t in s.tick && TickOk(s, t)
    requires Close(s, t, s') || Purge(s, t, id, s') || Rest(s, t, s')
    ensures Quiet(s, t, s') && TickOk(s', t)
  {}

  lemma SendSession(s: State, id: Id, q: Quote)
    requires id in s.sess && SessionOk(s, id) && s.sess[id].open
    ensures SessionOk(Send(s, id, q), id)
  {
    var c := s.sess[id];
    assert c.taken + (c.queue + [q]) == (c.taken + c.queue) + [q];
  }

  lemma SendInv(s: State, id: Id, q: Quote)
    requires Inv(s) && id in s.sess && s.sess[id].open
    ensures Inv(Send(s, id, q))
  {
    var m := Send(s, id, q);
    assert SessionOk(s, id);
    SendSession(s, id, q);
    PurgeSame(s, m);
    forall x | x in m.sess && x != id ensures SessionOk(m, x) {
      assert SessionOk(s, x);
      SessionFrame(s, m, x);
    }
    TicksInv(s, m);
  }

  /** A closed receiving end of a registered receiver belongs to a dead streaming thread. */
  lemma ClosedIsDead(s: State, id: Id)
    requires id in s.sess && SessionOk(s, id) && id in s.receivers && !s.sess[id].open
    ensures s.sess[id].pc.Dead?
  {}

  lemma SkipOwn(s: State, t: Ticker, id: Id, s': State)
    requires Visit(s, t, id, s') && TickOk(s, t) && id !in s.receivers
    ensures Quiet(s, t, s') && TickOk(s', t)
  {}

  lemma FailOwn(s: State, t: Ticker, id: Id, s': State)
    requires Visit(s, t, id, s') && TickOk(s, t) && SessionOk(s, id) && id in s.receivers && !s.sess[id].open
    ensures Quiet(s, t, s') && TickOk(s', t)
  {
    ClosedIsDead(s, id);
  }

  lemma SendOwn(s: State, t: Ticker, id: Id, s': State)
    requires Visit(s, t, id, s') && TickOk(s, t) && SessionOk(s, id) && id in s.receivers && s.sess[id].open
    ensures Quiet(Send(s, id, s.tick[t].pc.q), t, s') && TickOk(s', t)
  {}

  lemma StepVisit(s: State, t: Ticker, id: Id, s': State)
    requires Inv(s) && Visit(s, t, id, s')
    ensures Inv(s')
  {
    assert SessionOk(s, id) && TickOk(s, t);
    if id !in s.receivers {
      SkipOwn(s, t, id, s');
      QuietInv(s, t, s');
    } else if s.sess[id].open {
      var m := Send(s, id, s.tick[t].pc.q);
      SendInv(s, id, s.tick[t].pc.q);
      SendOwn(s, t, id, s');
      QuietInv(m, t, s');
    } else {
      FailOwn(s, t, id, s');
      QuietInv(s, t, s');
    }
  }

  // Sweep: a ticker thread removes a dead receiver. Several may do so at once.

  lemma SweepOwn(s: State, t: Ticker, s': State)
    requires t in s.tick && TickOk(s, t) && Sweep(s, t, s')
    ensures TickOk(s', t)
    ensures t in s'.tick && s'.tick == s.tick[t := s'.tick[t]] && s'.sess == s.sess
  {}

  /** The receiver is taken out of the map: every index entry it still has is now this thread's
  to remove. */
  lemma SweepUnmap(s: State, t: Ticker, s': State, id: Id)
    requires t in s.tick && TickOk(s, t) && Sweep(s, t, s') && s.tick[t].pc.r.Unmap? && s.tick[t].pc.r.id == id
    requires id in s.sess && SessionOk(s, id) && s.sess[id].pc.Dead?
    requires s.index.Keys == s.tick.Keys
    ensures SessionOk(s', id)
  {
    forall k | k in s'.index && id in s'.index[k] ensures PurgePending(s', id, k) {
      if id in s.receivers {
        assert PurgesIndex(s'.tick[t].pc, id, k);
      } else {
        assert PurgePending(s, id, k);
        PurgeFrame(s, s', t);
      }
    }
  }

  /** The receiver leaves the index under the tickers this thread saw; any entry that remains is
  pending with another thread. */
  lemma SweepUnindex(s: State, t: Ticker, s': State, id: Id)
    requires t in s.tick && TickOk(s, t) && Sweep(s, t, s') && s.tick[t].pc.r.Unindex? && s.tick[t].pc.r.id == id
    requires id in s.sess && SessionOk(s, id) && s.sess[id].pc.Dead?
    ensures SessionOk(s', id)
  {
    forall k | k in s'.index && id in s'.index[k] ensures PurgePending(s', id, k) {
      assert PurgePending(s, id, k);
      var w :| w in s.tick && PurgesIndex(s.tick[w].pc, id, k);
      assert w != t;
      assert PurgesIndex(s'.tick[w].pc, id, k);
    }
  }

  lemma SweepIds(s: State, t: Ticker, s': State)
    requires IdsOk(s) && Sweep(s, t, s')
    ensures IdsOk(s')
  {}

  lemma StepSweep(s: State, t: Ticker, s': State)
    requires Inv(s) && Sweep(s, t, s')
    ensures Inv(s')
  {
    SweepIds(s, t, s');
    SweepTicks(s, t, s');
    forall x | x in s'.sess ensures SessionOk(s', x) {
      assert SessionOk(s, x) && TickOk(s, t);
      SweepSession(s, t, s', x);
    }
  }

  lemma SweepSession(s: State, t: Ticker, s': State, x: Id)
    requires t in s.tick && TickOk(s, t) && Sweep(s, t, s') && x in s.sess && SessionOk(s, x)
    requires s.index.Keys == s.tick.Keys
    ensures x in s'.sess && SessionOk(s', x)
  {
    var r := s.tick[t].pc.r;
    if r.Look? {
      SweepLook(s, t, s', x);
    } else if x != r.id {
      SweepOther(s, t, s', x);
    } else if r.Unmap? {
      SweepUnmap(s, t, s', x);
    } else {
      SweepUnindex(s, t, s', x);
    }
  }

  lemma SweepLook(s: State, t: Ticker, s': State, x: Id)
    requires t in s.tick && Sweep(s, t, s') && s.tick[t].pc.r.Look?
    requires x in s.sess && SessionOk(s, x)
    ensures SessionOk(s', x)
  {
    PurgeFrame(s, s', t);
    SessionFrame(s, s', x);
  }

  lemma SweepTicks(s: State, t: Ticker, s': State)
    requires forall k :: k in s.tick ==> TickOk(s, k)
    requires Sweep(s, t, s')
    ensures forall k :: k in s'.tick ==> TickOk(s', k)
  {
    SweepOwn(s, t, s');
    forall k | k in s'.tick && k != t ensures TickOk(s', k) {
      assert TickOk(s, k);
      TickFrame(s, s', k);
    }
  }

  lemma SweepOther(s: State, t: Ticker, s': State, x: Id)
    requires t in s.tick && Sweep(s, t, s') && x != s.tick[t].pc.r.id
    requires x in s.sess && SessionOk(s, x)
    ensures SessionOk(s', x)
  {
    forall k | PurgePending(s, x, k) ensures PurgePending(s', x, k) {
      var w :| w in s.tick && PurgesIndex(s.tick[w].pc, x, k);
      assert w != t;
      assert PurgesIndex(s'.tick[w].pc, x, k);
    }
    SessionFrame(s, s', x);
  }

  lemma StepSession(s: State, id: Id, s': State)
    requires Inv(s) && SessionStep(s, id, s')
    ensures Inv(s')
  {
    assert SessionOk(s, id);
    if Insert(s, id, s') || Publish(s, id, s') || Remove(s, id, s') {
      RegistryOwn(s, id, s');
      RegistryInv(s, id, s');
    } else {
      SessionOwn(s, id, s');
      LocalInv(s, id, s');
    }
  }

  lemma SessionOwn(s: State, id: Id, s': State)
    requires id in s.sess && SessionOk(s, id) && SessionStep(s, id, s')
    requires !Insert(s, id, s') && !Publish(s, id, s') && !Remove(s, id, s')
    ensures Local(s, id, s') && SessionOk(s', id)
  {
    if Lock(s, id, s') {
      LockOwn(s, id, s');
    } else if Check(s, id, s') {
      CheckOwn(s, id, s');
    } else if List(s, id, s') {
      ListOwn(s, id, s');
    } else if Test(s, id, s') {
      TestOwn(s, id, s');
    } else if Take(s, id, s') {
      TakeOwn(s, id, s');
    } else if Wait(s, id, s') {
      WaitOwn(s, id, s');
    } else if Flag(s, id, s') {
      FlagOwn(s, id, s');
    } else if Join(s, id, s') {
      JoinOwn(s, id, s');
    } else if Unlist(s, id, s') {
      UnlistOwn(s, id, s');
    } else if Clone(s, id, s') {
      CloneOwn(s, id, s');
    } else if Die(s, id, s') {
      DieOwn(s, id, s');
    } else {
      NoDisconnect(s, id, s');
      var ok :| Bind(s, id, ok, s');
      BindOwn(s, id, ok, s');
    }
  }

  lemma StepTick(s: State, t: Ticker, s': State)
    requires Inv(s) && TickStep(s, t, s')
    ensures Inv(s')
  {
    if Sweep(s, t, s') {
      StepSweep(s, t, s');
    } else if id :| Visit(s, t, id, s') {
      StepVisit(s, t, id, s');
    } else {
      QuietShape(s, t, s');
      QuietInv(s, t, s');
    }
  }

  lemma StepInv(s: State, s': State)
    requires Inv(s) && Next(s, s')
    ensures Inv(s')
  {
    if want :| Arrive(s, want, s') {
      StepArrive(s, want, s');
    } else if id :| SessionStep(s, id, s') {
      StepSession(s, id, s');
    } else {
      var t :| TickStep(s, t, s');
      StepTick(s, t, s');
    }
  }

  lemma {:induction false} RunInv(b: seq<State>, i: nat)
    requires Run(b) && Inv(b[0]) && i < |b|
    ensures Inv(b[i])
  {
    if i > 0 {
      RunInv(b, i - 1);
      assert StepAt(b, i - 1);
      StepInv(b[i - 1], b[i]);
    }
  }

  lemma ReachableInv(s: State)
    requires Reachable(s)
    ensures Inv(s)
  {
    var b :| Run(b) && Init(b[0]) && b[|b| - 1] == s;
    InitInv(b[0]);
    RunInv(b, |b| - 1);
  }

  lemma ReachableSession(s: State, id: Id)
    requires Reachable(s) && id in s.sess
    ensures SessionOk(s, id)
  {
    ReachableInv(s);
  }

  lemma ReachableIds(s: State)
    requires Reachable(s)
    ensures IdsOk(s)
  {
    ReachableInv(s);
  }

  // ----- main results -----

  /** Some remover of `id`, past its map removal, still has to clear the entry of `t`. */
  ghost predicate RemovalPending(s: State, id: Id, t: Ticker)
    requires id in s.sess
  {
    || (s.sess[id].pc.Removing? && s.sess[id].pc.r.Unindex? && t in s.sess[id].pc.r.ts)
    || PurgePending(s, id, t)
  }

  /** Index and map agree in every reachable state, up to pending operations: an index entry is
  backed by the map or some remover is about to clear it, and a registered ticker is indexed
  unless the id's own adder has not published it yet. */
  lemma IndexAgreement(s: State, id: Id, t: Ticker)
    requires Reachable(s)
    ensures t in s.index && id in s.index[t] ==>
              && id in s.sess
              && ((id in s.receivers && t in s.receivers[id]) || RemovalPending(s, id, t))
    ensures id in s.receivers && t in s.receivers[id] ==>
              t in s.index && id in s.sess && (id in s.index[t] || s.sess[id].pc.Inserted?)
  {
    ReachableIds(s);
    if id in s.sess {
      ReachableSession(s, id);
      SessionAgreement(s, id, t);
    }
  }

  lemma SessionAgreement(s: State, id: Id, t: Ticker)
    requires id in s.sess && SessionOk(s, id)
    ensures t in s.index && id in s.index[t] ==>
              (id in s.receivers && t in s.receivers[id]) || RemovalPending(s, id, t)
    ensures id in s.receivers && t in s.receivers[id] ==>
              t in s.index && (id in s.index[t] || s.sess[id].pc.Inserted?)
  {
    if s.sess[id].pc.Dead? && id !in s.receivers && t in s.index && id in s.index[t] {
      assert PurgePending(s, id, t);
    }
  }

  /** With no add between its two writes and no remove before its last one, the index is exactly
  the inversion of the map. */
  lemma QuiescentIndex(s: State)
    requires Reachable(s)
    requires forall id :: id in s.sess ==> !s.sess[id].pc.Inserted?
    requires forall id, t :: id in s.sess ==> !RemovalPending(s, id, t)
    ensures Inverted(s.receivers, s.index)
  {
    forall id, t ensures t in s.index && id in s.index[t] <==> id in s.receivers && t in s.receivers[id] {
      IndexAgreement(s, id, t);
    }
  }

  /** No step ever adds or drops a ticker, so the check of add_receiver stays valid after its
  guard is gone: the tickers of every validated session are keys of the index, and indexing an
  id creates no key. */
  lemma KeysAreFixed(b: seq<State>, i: nat)
    requires Run(b) && Init(b[0]) && i < |b|
    ensures b[i].index.Keys == b[i].prices.Keys == b[i].tick.Keys == b[0].index.Keys
    ensures forall id :: id in b[i].sess && b[i].sess[id].pc.Inserted? ==> ToSet(b[i].sess[id].want) <= b[i].index.Keys
  {
    InitInv(b[0]);
    RunInv(b, i);
    KeysSame(b, i);
    forall id | id in b[i].sess && b[i].sess[id].pc.Inserted?
      ensures ToSet(b[i].sess[id].want) <= b[i].index.Keys
    {
      assert SessionOk(b[i], id);
    }
  }

  lemma {:induction false} KeysSame(b: seq<State>, i: nat)
    requires Run(b) && Inv(b[0]) && i < |b|
    ensures b[i].tick.Keys == b[0].tick.Keys
  {
    if i > 0 {
      KeysSame(b, i - 1);
      ShapeAt(b, i);
    }
  }

  /** What no step undoes: sessions and tickers stay, a session keeps its request, and an ended
  session does not resume. */
  ghost predicate Shape(s: State, s': State) {
    && s'.tick.Keys == s.tick.Keys
    && forall x :: x in s.sess ==>
         && x in s'.sess && s'.sess[x].want == s.sess[x].want
         && (Ended(s.sess[x].pc) ==> s'.sess[x].pc == s.sess[x].pc)
  }

  lemma ShapeAt(b: seq<State>, i: nat)
    requires Run(b) && Inv(b[0]) && 0 < i < |b|
    ensures Shape(b[i - 1], b[i])
  {
    RunInv(b, i - 1);
    assert StepAt(b, i - 1);
    StepShape(b[i - 1], b[i]);
  }

  lemma StepShape(s: State, s': State)
    requires Inv(s) && Next(s, s')
    ensures Shape(s, s')
  {
    if want :| Arrive(s, want, s') {
      assert s.nextId !in s.sess;
    } else if id :| SessionStep(s, id, s') {
      SessionShape(s, id, s');
    } else {
      var t :| TickStep(s, t, s');
      TickShape(s, t, s');
    }
  }

  lemma SessionShape(s: State, id: Id, s': State)
    requires Inv(s) && SessionStep(s, id, s')
    ensures Put(s, id, s')
  {
    assert SessionOk(s, id);
    if Insert(s, id, s') || Publish(s, id, s') || Remove(s, id, s') {
      RegistryOwn(s, id, s');
    } else {
      SessionOwn(s, id, s');
    }
  }

  /** Only the ticker thread `t` moved; a session may have got a quote. */
  ghost predicate OneTick(s: State, t: Ticker, s': State) {
    && t in s.tick && t in s'.tick && s'.tick == s.tick[t := s'.tick[t]]
    && s'.sess.Keys == s.sess.Keys
    && (forall x :: x in s.sess ==> s'.sess[x] == s.sess[x].(queue := s'.sess[x].queue, enq := s'.sess[x].enq))
  }

  lemma TickShape(s: State, t: Ticker, s': State)
    requires Inv(s) && TickStep(s, t, s')
    ensures OneTick(s, t, s')
  {
    assert TickOk(s, t);
    if Sweep(s, t, s') {
      SweepOwn(s, t, s');
    } else if id :| Visit(s, t, id, s') {
      assert SessionOk(s, id);
      VisitShape(s, t, id, s');
    } else {
      QuietShape(s, t, s');
    }
  }

  lemma VisitShape(s: State, t: Ticker, id: Id, s': State)
    requires Visit(s, t, id, s') && SessionOk(s, id) && TickOk(s, t)
    ensures OneTick(s, t, s')
  {
    if id !in s.receivers {
      SkipOwn(s, t, id, s');
    } else if s.sess[id].open {
      SendOwn(s, t, id, s');
    } else {
      FailOwn(s, t, id, s');
    }
  }

  lemma QuietShape(s: State, t: Ticker, s': State)
    requires Inv(s) && TickStep(s, t, s') && !Sweep(s, t, s') && forall id :: !Visit(s, t, id, s')
    ensures Quiet(s, t, s') && TickOk(s', t)
  {
    assert TickOk(s, t);
    if id :| Purge(s, t, id, s') {
      RoundOwn(s, t, id, s');
    } else if Close(s, t, s') || Rest(s, t, s') {
      RoundOwn(s, t, 0, s');
    } else if change :| Price(s, t, change, s') {
      QuoteOwn(s, t, change, 0, 0, s');
    } else if Snap(s, t, s') || Open(s, t, s') {
      QuoteOwn(s, t, 0.0, 0, 0, s');
    } else {
      var volume, now :| Store(s, t, volume, now, s');
      QuoteOwn(s, t, 0.0, volume, now, s');
    }
  }

  /** Lifecycle safety. A subscriber whose thread has not died is registered with exactly the
  tickers it asked for and indexed under all of them; both ends of its channel exist while it is
  registered; and a finished or failed session is in none of the three maps. */
  lemma LifecycleSafety(s: State, id: Id)
    requires Reachable(s) && id in s.sess && !s.sess[id].pc.Dead?
    ensures id in s.subscribers ==> Registered(s, id) && IndexedAs(s, id, ToSet(s.sess[id].want))
    ensures id in s.receivers ==> s.sess[id].open
    ensures s.sess[id].pc.Receiving? ==> id in s.receivers
    ensures s.sess[id].pc.Leaving? ==> id in s.subscribers
    ensures s.sess[id].pc.Closed? || s.sess[id].pc.Rejected? ==>
              id !in s.subscribers && id !in s.receivers && forall t :: t in s.index ==> id !in s.index[t]
  {
    ReachableSession(s, id);
  }

  /** The streaming loop never finds its channel disconnected: in every reachable state a waiting
  session is registered, so the sending end exists. */
  lemma NeverDisconnected(s: State, id: Id, s': State)
    requires Reachable(s)
    ensures !Disconnect(s, id, s')
  {
    if id in s.sess {
      ReachableSession(s, id);
      NoDisconnect(s, id, s');
    }
  }

  /** In every reachable state a send to a registered receiver fails exactly when the streaming thread
  of that receiver is dead. */
  lemma ClosedMeansDead(s: State, id: Id)
    requires Reachable(s) && id in s.receivers
    ensures id in s.sess && (!s.sess[id].open <==> s.sess[id].pc.Dead?)
  {
    ReachableIds(s);
    ReachableSession(s, id);
  }

  /** Once start_streaming has returned, or the subscription was refused, the id is in none of the
  three maps for the rest of the run: ids are never reused. */
  lemma NeverReappears(b: seq<State>, i: nat, j: nat, id: Id)
    requires Run(b) && Init(b[0]) && i <= j < |b|
    requires id in b[i].sess && (b[i].sess[id].pc.Closed? || b[i].sess[id].pc.Rejected?)
    ensures id !in b[j].subscribers && id !in b[j].receivers
    ensures forall t :: t in b[j].index ==> id !in b[j].index[t]
  {
    EndIsStable(b, i, j, id);
    RunReachable(b, j);
    LifecycleSafety(b[j], id);
  }

  lemma RunReachable(b: seq<State>, i: nat)
    requires Run(b) && Init(b[0]) && i < |b|
    ensures Reachable(b[i])
  {
    var c := b[..i + 1];
    forall k | 0 <= k < |c| - 1 ensures StepAt(c, k) {
      assert StepAt(b, k);
    }
    assert Run(c) && Init(c[0]) && c[|c| - 1] == b[i];
  }

  lemma {:induction false} EndIsStable(b: seq<State>, i: nat, j: nat, id: Id)
    requires Run(b) && Init(b[0]) && i <= j < |b|
    requires id in b[i].sess && Ended(b[i].sess[id].pc)
    ensures id in b[j].sess && b[j].sess[id].pc == b[i].sess[id].pc
    decreases j - i
  {
    if i < j {
      EndIsStable(b, i, j - 1, id);
      InitInv(b[0]);
      ShapeAt(b, j);
    }
  }
}
