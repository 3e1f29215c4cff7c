/** Self-healing: a receiver whose streaming thread died without unregistering is cleared by the
next completed round of any ticker it subscribed to. */
module Healing {
  import opened Registry
  import opened Machine
  import opened Lifecycle
  import opened Delivery

  /** `id` is dead and subscribed to `t`, whose thread had made `n` quotes when the round in
  question began; while `id` is still registered, that round is on its way to removing it. */
  ghost predicate OnItsWay(s: State, id: Id, t: Ticker, n: nat) {
    && id in s.sess && s.sess[id].pc.Dead? && t in s.sess[id].want && t in s.tick
    && (id in s.receivers ==> Hunted(s.tick[t], id, n))
  }

  predicate Hunted(k: Tick, id: Id, n: nat) {
    match k.pc
    case Idle => |k.made| == n
    case Priced(_) => |k.made| == n
    case Stored(_) => |k.made| == n + 1
    case Snapped(_, snap) => |k.made| == n + 1 && id in snap
    case Walking(_, _, left, _, dead) => |k.made| == n + 1 && (id in left || id in dead)
    case Cleaning(todo) => |k.made| == n + 1 && id in todo
    case Purging(r, todo) => |k.made| == n + 1 && (id in todo || (r.id == id && !r.Unindex?))
  }

  lemma SessionHunt(s: State, x: Id, s': State, id: Id, t: Ticker, n: nat)
    requires Inv(s) && SessionStep(s, x, s') && OnItsWay(s, id, t, n)
    ensures OnItsWay(s', id, t, n)
  {
    DeadSession(s, x, s', id);
    SessionShape(s, x, s');
  }

  /** Steps of other ticker threads never add a receiver. */
  lemma OtherHunt(s: State, k: Ticker, s': State, id: Id, t: Ticker, n: nat)
    requires Inv(s) && TickStep(s, k, s') && k != t && OnItsWay(s, id, t, n)
    ensures OnItsWay(s', id, t, n)
  {
    TickShape(s, k, s');
    ReceiversShrink(s, k, s');
  }

  lemma ReceiversShrink(s: State, k: Ticker, s': State)
    requires Inv(s) && TickStep(s, k, s')
    ensures s'.receivers.Keys <= s.receivers.Keys
  {
    if Sweep(s, k, s') {
      SweepFrame(s, k, s');
    } else if id :| Visit(s, k, id, s') {
      VisitEffect(s, k, id, s');
    } else {
      QuietShape(s, k, s');
    }
  }

  /** The index snapshot catches a dead receiver that is still registered. */
  lemma SnapHunt(s: State, t: Ticker, s': State, id: Id, n: nat)
    requires id in s.sess && SessionOk(s, id) && Snap(s, t, s') && OnItsWay(s, id, t, n) && t in s.index
    ensures OnItsWay(s', id, t, n)
  {}

  /** The send to a dead receiver fails, which marks it for removal. */
  lemma VisitHunt(s: State, t: Ticker, v: Id, s': State, id: Id, n: nat)
    requires id in s.sess && SessionOk(s, id) && Visit(s, t, v, s') && OnItsWay(s, id, t, n)
    ensures OnItsWay(s', id, t, n)
  {}

  lemma SweepHunt(s: State, t: Ticker, s': State, id: Id, n: nat)
    requires Sweep(s, t, s') && OnItsWay(s, id, t, n)
    ensures OnItsWay(s', id, t, n)
  {}

  lemma RoundHunt(s: State, t: Ticker, x: Id, s': State, id: Id, n: nat)
    requires OnItsWay(s, id, t, n)
    requires Open(s, t, s') || Close(s, t, s') || Purge(s, t, x, s') || Rest(s, t, s')
    ensures OnItsWay(s', id, t, n)
  {}

  lemma QuoteHunt(s: State, t: Ticker, change: real, volume: nat, now: nat, s': State, id: Id, n: nat)
    requires OnItsWay(s, id, t, n)
    requires Price(s, t, change, s') || Store(s, t, volume, now, s')
    ensures OnItsWay(s', id, t, n)
  {}

  lemma StepHunt(s: State, s': State, id: Id, t: Ticker, n: nat)
    requires Inv(s) && Next(s, s') && OnItsWay(s, id, t, n)
    ensures OnItsWay(s', id, t, n)
  {
    if want :| Arrive(s, want, s') {
      assert s.nextId !in s.sess;
    } else if x :| SessionStep(s, x, s') {
      SessionHunt(s, x, s', id, t, n);
    } else {
      var k :| TickStep(s, k, s');
      if k != t {
        OtherHunt(s, k, s', id, t, n);
      } else {
        OwnHunt(s, t, s', id, n);
      }
    }
  }

  lemma OwnHunt(s: State, t: Ticker, s': State, id: Id, n: nat)
    requires Inv(s) && TickStep(s, t, s') && OnItsWay(s, id, t, n)
    ensures OnItsWay(s', id, t, n)
  {
    assert SessionOk(s, id);
    if Snap(s, t, s') {
      SnapHunt(s, t, s', id, n);
    } else if x :| Visit(s, t, x, s') {
      VisitHunt(s, t, x, s', id, n);
    } else if Sweep(s, t, s') {
      SweepHunt(s, t, s', id, n);
    } else if x :| Purge(s, t, x, s') {
      RoundHunt(s, t, x, s', id, n);
    } else if Open(s, t, s') || Close(s, t, s') || Rest(s, t, s') {
      RoundHunt(s, t, 0, s', id, n);
    } else if change :| Price(s, t, change, s') {
      QuoteHunt(s, t, change, 0, 0, s', id, n);
    } else {
      var volume, now :| Store(s, t, volume, now, s');
      QuoteHunt(s, t, 0.0, volume, now, s', id, n);
    }
  }

  lemma {:induction false} RunHunt(b: seq<State>, i: nat, j: nat, id: Id, t: Ticker, n: nat)
    requires Run(b) && Init(b[0]) && i <= j < |b| && OnItsWay(b[i], id, t, n)
    ensures OnItsWay(b[j], id, t, n)
    decreases j - i
  {
    if i < j {
      RunHunt(b, i, j - 1, id, t, n);
      RunReachable(b, j - 1);
      ReachableInv(b[j - 1]);
      assert StepAt(b, j - 1);
      StepHunt(b[j - 1], b[j], id, t, n);
    }
  }

  lemma DeadStep(s: State, s': State, id: Id)
    requires Inv(s) && Next(s, s') && id in s.sess && s.sess[id].pc.Dead?
    ensures id in s'.sess && s'.sess[id].pc.Dead?
    ensures id in s'.receivers ==> id in s.receivers
    ensures id in s'.subscribers <==> id in s.subscribers
  {
    if want :| Arrive(s, want, s') {
      assert s.nextId !in s.sess;
    } else if x :| SessionStep(s, x, s') {
      DeadSession(s, x, s', id);
    } else {
      var k :| TickStep(s, k, s');
      TickShape(s, k, s');
      ReceiversShrink(s, k, s');
      SubscribersKept(s, k, s');
    }
  }

  lemma DeadSession(s: State, x: Id, s': State, id: Id)
    requires Inv(s) && SessionStep(s, x, s') && id in s.sess && s.sess[id].pc.Dead?
    ensures id in s'.sess && s'.sess[id].pc.Dead?
    ensures id in s'.receivers ==> id in s.receivers
    ensures id in s'.subscribers <==> id in s.subscribers
  {
    if x == id {
      DeadOwn(s, id, s');
    } else {
      SessionShape(s, x, s');
      OtherSession(s, x, s', id);
    }
  }

  /** Steps of another session leave the entries of this one alone. */
  lemma OtherSession(s: State, x: Id, s': State, id: Id)
    requires Inv(s) && SessionStep(s, x, s') && id != x
    ensures (id in s'.receivers <==> id in s.receivers) && (id in s'.subscribers <==> id in s.subscribers)
  {
    assert SessionOk(s, x);
    if Insert(s, x, s') || Publish(s, x, s') || Remove(s, x, s') {
      RegistryOwn(s, x, s');
    } else {
      SessionOwn(s, x, s');
    }
  }

  /** Nothing moves a dead session but its monitor, if that still runs. */
  lemma DeadOwn(s: State, id: Id, s': State)
    requires SessionStep(s, id, s') && id in s.sess && s.sess[id].pc.Dead?
    ensures Flag(s, id, s')
  {}

  lemma SubscribersKept(s: State, k: Ticker, s': State)
    requires Inv(s) && TickStep(s, k, s')
    ensures s'.subscribers == s.subscribers
  {
    if Sweep(s, k, s') {
      SweepSubscribers(s, k, s');
    } else if id :| Visit(s, k, id, s') {
      VisitEffect(s, k, id, s');
    } else {
      QuietShape(s, k, s');
    }
  }

  lemma SweepSubscribers(s: State, k: Ticker, s': State)
    requires Sweep(s, k, s')
    ensures s'.subscribers == s.subscribers
  {}

  /** A dead receiver that left the map does not come back. And nothing ever clears `subscribers` of
  a dead session: it stays listed for the rest of the run if and only if it was when it died. */
  lemma {:induction false} StaysGone(b: seq<State>, i: nat, j: nat, id: Id)
    requires Run(b) && Init(b[0]) && i <= j < |b|
    requires id in b[i].sess && b[i].sess[id].pc.Dead?
    ensures id in b[j].sess && b[j].sess[id].pc.Dead?
    ensures id !in b[i].receivers ==> id !in b[j].receivers
    ensures id in b[j].subscribers <==> id in b[i].subscribers
    decreases j - i
  {
    if i < j {
      StaysGone(b, i, j - 1, id);
      DeadAt(b, j, id);
    }
  }

  lemma DeadAt(b: seq<State>, j: nat, id: Id)
    requires Run(b) && Init(b[0]) && 0 < j < |b| && id in b[j - 1].sess && b[j - 1].sess[id].pc.Dead?
    ensures id in b[j].sess && b[j].sess[id].pc.Dead?
    ensures id in b[j].receivers ==> id in b[j - 1].receivers
    ensures id in b[j].subscribers <==> id in b[j - 1].subscribers
  {
    RunReachable(b, j - 1);
    ReachableInv(b[j - 1]);
    assert StepAt(b, j - 1);
    DeadStep(b[j - 1], b[j], id);
  }

  /** The leak: a session that dies once it is listed and before it has left the list is in
  `subscribers` for ever after, although its receiver is cleared away. */
  lemma DeadStaysListed(b: seq<State>, i: nat, j: nat, id: Id)
    requires Run(b) && Init(b[0]) && i + 1 <= j < |b|
    requires id in b[i].sess && Die(b[i], id, b[i + 1])
    ensures id in b[j].subscribers <==> InSubscribers(b[i].sess[id].pc)
  {
    RunReachable(b, i);
    ReachableSession(b[i], id);
    StaysGone(b, i + 1, j, id);
  }

  /** A streaming thread can die at any point from its start up to the removal of its receiver; its
  receiving end goes with it, with all that is queued. */
  lemma CanDie(s: State, id: Id) returns (s': State)
    requires id in s.sess
    requires var pc := s.sess[id].pc;
             pc.Listed? || pc.Looping? || pc.Receiving? || pc.Joining? || pc.Leaving? || pc.Unlisted?
    ensures Next(s, s') && s' == s.(sess := s.sess[id := s.sess[id].(pc := Dead, open := false, queue := [])])
  {
    s' := Drop(s, id, Dead);
    assert Die(s, id, s') && StreamStep(s, id, s') && SessionStep(s, id, s');
  }

  /** `id` is the only session, its tickers are known, and no walk is open. */
  ghost predicate Alone(s: State, id: Id, pc: SessionPc) {
    s.sess.Keys == {id} && s.sess[id].pc == pc && Known(s, id) && ReceiversFree(s)
  }

  /** One state further. */
  ghost predicate Follows(b: seq<State>, c: seq<State>) {
    Run(c) && |c| == |b| + 1 && c[..|b|] == b && (b != [] ==> c[0] == b[0])
  }

  lemma Extend(b: seq<State>, s': State) returns (c: seq<State>)
    requires Run(b) && Next(b[|b| - 1], s')
    ensures c == b + [s'] && Follows(b, c)
  {
    c := b + [s'];
    forall i | 0 <= i < |c| - 1 ensures StepAt(c, i) {
      if i < |b| - 1 {
        assert StepAt(b, i);
      }
    }
  }

  lemma FirstArrives(s: State, want: seq<Ticker>) returns (c: seq<State>)
    requires Init(s) && ToSet(want) <= s.index.Keys
    ensures Follows([s], c) && Alone(c[1], 0, Arrived)
  {
    var s' := s.(nextId := 1, sess := map[0 := Session(Arrived, want, true, [], false, false, [], [], map[])]);
    assert Arrive(s, want, s');
    assert forall t :: t in s.tick ==> s.tick[t] == Tick(Idle, s.prices[t], []);
    c := Extend([s], s');
  }

  lemma ThenLocks(b: seq<State>, id: Id) returns (c: seq<State>)
    requires Run(b) && Alone(b[|b| - 1], id, Arrived)
    ensures Follows(b, c) && Alone(c[|b|], id, Locked)
  {
    var s := b[|b| - 1];
    var s' := SetPc(s, id, Locked);
    assert Lock(s, id, s') && HandlerStep(s, id, s') && SessionStep(s, id, s');
    c := Extend(b, s');
  }

  lemma ThenChecks(b: seq<State>, id: Id) returns (c: seq<State>)
    requires Run(b) && Alone(b[|b| - 1], id, Locked)
    ensures Follows(b, c) && Alone(c[|b|], id, Checked)
  {
    var s := b[|b| - 1];
    var s' := SetPc(s, id, Checked);
    assert Check(s, id, s') && HandlerStep(s, id, s') && SessionStep(s, id, s');
    c := Extend(b, s');
  }

  lemma ThenInserts(b: seq<State>, id: Id) returns (c: seq<State>)
    requires Run(b) && Alone(b[|b| - 1], id, Checked)
    ensures Follows(b, c) && Alone(c[|b|], id, Inserted)
  {
    var s := b[|b| - 1];
    var s' := SetPc(s.(receivers := s.receivers[id := ToSet(s.sess[id].want)]), id, Inserted);
    assert Insert(s, id, s') && HandlerStep(s, id, s') && SessionStep(s, id, s');
    c := Extend(b, s');
  }

  lemma ThenPublishes(b: seq<State>, id: Id) returns (c: seq<State>)
    requires Run(b) && Alone(b[|b| - 1], id, Inserted)
    ensures Follows(b, c) && Alone(c[|b|], id, Added)
  {
    var s := b[|b| - 1];
    var ts := ToSet(s.sess[id].want);
    var joined := map t | t in ts :: if t in s.tick then NextRound(s.tick[t]) else 0;
    var s' := s.(index := AddToIndex(s.index, ts, id), sess := s.sess[id := s.sess[id].(pc := Added, joined := joined)]);
    assert Publish(s, id, s') && HandlerStep(s, id, s') && SessionStep(s, id, s');
    c := Extend(b, s');
  }

  lemma ThenLists(b: seq<State>, id: Id) returns (c: seq<State>)
    requires Run(b) && Alone(b[|b| - 1], id, Added)
    ensures Follows(b, c) && Alone(c[|b|], id, Listed) && id in c[|b|].subscribers
  {
    var s := b[|b| - 1];
    var s' := SetPc(s.(subscribers := s.subscribers + {id}), id, Listed);
    assert List(s, id, s') && HandlerStep(s, id, s') && SessionStep(s, id, s');
    c := Extend(b, s');
  }

  lemma ThenDies(b: seq<State>, id: Id) returns (c: seq<State>)
    requires Run(b) && Alone(b[|b| - 1], id, Listed) && id in b[|b| - 1].subscribers
    ensures Follows(b, c) && Die(b[|b| - 1], id, c[|b|]) && id in c[|b|].subscribers
  {
    var s := b[|b| - 1];
    var s' := Drop(s, id, Dead);
    assert Die(s, id, s') && StreamStep(s, id, s') && SessionStep(s, id, s');
    c := Extend(b, s');
  }

  /** Such a death can happen, on any generator and for any request it accepts: the first client is
  added, its thread dies before it binds its socket, and its id is left in `subscribers`. */
  lemma DeathWhileListed(s0: State, want: seq<Ticker>) returns (b: seq<State>)
    requires Init(s0) && ToSet(want) <= s0.index.Keys
    ensures Run(b) && |b| == 8 && b[0] == s0 && Die(b[6], 0, b[7]) && 0 in b[7].subscribers
  {
    b := FirstArrives(s0, want);
    b := ThenLocks(b, 0);
    b := ThenChecks(b, 0);
    b := ThenInserts(b, 0);
    b := ThenPublishes(b, 0);
    b := ThenLists(b, 0);
    b := ThenDies(b, 0);
  }

  /** If the streaming thread of `id` is dead when a ticker it subscribed to is between rounds,
  then from the moment that ticker has completed another round, cleanup included, `id` is out of
  the receivers for good; and whenever no ticker thread is in the middle of removing it, it is in
  no index set either. Several ticker threads may have been removing it at once. */
  lemma SelfHealing(b: seq<State>, i: nat, j: nat, k: nat, id: Id, t: Ticker)
    requires Run(b) && Init(b[0]) && i <= j <= k < |b|
    requires id in b[i].sess && b[i].sess[id].pc.Dead? && t in b[i].sess[id].want
    requires t in b[i].tick && b[i].tick[t].pc.Idle?
    requires t in b[j].tick && b[j].tick[t].pc.Idle? && |b[j].tick[t].made| > |b[i].tick[t].made|
    ensures id !in b[k].receivers
    ensures !BeingRemoved(b[k], id) ==> forall u :: u in b[k].index ==> id !in b[k].index[u]
  {
    RunHunt(b, i, j, id, t, |b[i].tick[t].made|);
    StaysGone(b, j, k, id);
    RunReachable(b, k);
    ReachableSession(b[k], id);
    if !BeingRemoved(b[k], id) {
      GoneFromIndex(b[k], id);
    }
  }

  /** Some ticker thread is walking through the sections that remove `id`. */
  ghost predicate BeingRemoved(s: State, id: Id) {
    exists k :: k in s.tick && s.tick[k].pc.Purging? && s.tick[k].pc.r.id == id
  }

  lemma GoneFromIndex(s: State, id: Id)
    requires id in s.sess && SessionOk(s, id) && s.sess[id].pc.Dead? && id !in s.receivers && !BeingRemoved(s, id)
    ensures forall u :: u in s.index ==> id !in s.index[u]
  {
    forall u | u in s.index ensures id !in s.index[u] {
      assert !PurgePending(s, id, u);
    }
  }
}
