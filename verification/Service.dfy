/** Every request can be served and every round completed, from every reachable state. */
module Service {
  import opened Registry
  import opened Machine
  import opened Lifecycle
  import opened Delivery
  import opened Unregister
  import Prices

  // ----- requests -----

  /** The tickers never change along a run, and a session keeps its request. */
  lemma LeadsKeeps(s: State, s': State)
    requires Reachable(s) && Leads(s, s')
    ensures s'.tick.Keys == s.tick.Keys && s'.index.Keys == s.index.Keys
    ensures forall x :: x in s.sess ==> x in s'.sess && s'.sess[x].want == s.sess[x].want
  {
    ReachableInv(s);
    var b :| Run(b) && b[0] == s && b[|b| - 1] == s';
    RunKeeps(b, |b| - 1);
    RunInv(b, |b| - 1);
  }

  lemma {:induction false} RunKeeps(b: seq<State>, i: nat)
    requires Run(b) && Inv(b[0]) && i < |b|
    ensures b[i].tick.Keys == b[0].tick.Keys
    ensures forall x :: x in b[0].sess ==> x in b[i].sess && b[i].sess[x].want == b[0].sess[x].want
  {
    if i > 0 {
      RunKeeps(b, i - 1);
      ShapeAt(b, i);
    }
  }

  /** All tickers of the request exist. */
  predicate AllKnown(s: State, id: Id)
    requires id in s.sess
  {
    forall t :: t in s.sess[id].want ==> t in s.index
  }

  /** What a request handler comes to: listed when its tickers are known, else rejected. */
  predicate Served(s: State, id: Id) {
    id in s.sess && s.sess[id].pc == if AllKnown(s, id) then Listed else Rejected
  }

  /** How far a request handler is from its end. */
  function HandlerRank(pc: SessionPc): nat {
    match pc
    case Arrived => 5
    case Locked => 4
    case Checked => 3
    case Inserted => 2
    case Added => 1
    case _ => 0
  }

  /** A handler in its middle has found all tickers known. */
  predicate CheckedOk(s: State, id: Id)
    requires id in s.sess
  {
    s.sess[id].pc.Checked? || s.sess[id].pc.Inserted? || s.sess[id].pc.Added? ==> AllKnown(s, id)
  }

  lemma ReachableChecked(s: State, id: Id)
    requires Reachable(s) && id in s.sess
    ensures CheckedOk(s, id)
  {
    ReachableSession(s, id);
  }

  /** With no walk open, and the mutex free for one that has yet to lock it, a handler can go on. */
  lemma HandlerMoves(s: State, id: Id) returns (s': State)
    requires Reachable(s) && id in s.sess && HandlerRank(s.sess[id].pc) > 0 && ReceiversFree(s)
    requires s.sess[id].pc.Arrived? ==> GeneratorFree(s)
    ensures Next(s, s') && ReceiversFree(s') && id in s'.sess && HandlerRank(s'.sess[id].pc) < HandlerRank(s.sess[id].pc)
    ensures !s'.sess[id].pc.Arrived? && (HandlerRank(s'.sess[id].pc) == 0 ==> Served(s', id))
  {
    match s.sess[id].pc {
      case Arrived =>
        s' := AfterLock(s, id);
      case Locked =>
        s' := AfterCheck(s, id);
      case Checked =>
        s' := AfterInsert(s, id);
      case Inserted =>
        s' := AfterPublish(s, id);
      case Added =>
        s' := AfterList(s, id);
    }
    assert HandlerStep(s, id, s');
    assert SessionStep(s, id, s');
  }

  lemma AfterLock(s: State, id: Id) returns (s': State)
    requires id in s.sess && s.sess[id].pc.Arrived? && GeneratorFree(s)
    ensures Lock(s, id, s') && s'.tick == s.tick && id in s'.sess && s'.sess[id].pc.Locked?
  {
    s' := SetPc(s, id, Locked);
  }

  lemma AfterInsert(s: State, id: Id) returns (s': State)
    requires id in s.sess && s.sess[id].pc.Checked? && ReceiversFree(s)
    ensures Insert(s, id, s') && s'.tick == s.tick && id in s'.sess && s'.sess[id].pc.Inserted?
  {
    s' := SetPc(s.(receivers := s.receivers[id := ToSet(s.sess[id].want)]), id, Inserted);
  }

  lemma AfterCheck(s: State, id: Id) returns (s': State)
    requires id in s.sess && s.sess[id].pc.Locked?
    ensures Check(s, id, s') && s'.tick == s.tick && id in s'.sess
    ensures s'.sess[id].pc.Checked? || (s'.sess[id].pc.Rejected? && Served(s', id))
  {
    s' := if Known(s, id) then SetPc(s, id, Checked) else Drop(s, id, Rejected);
  }

  lemma AfterList(s: State, id: Id) returns (s': State)
    requires Reachable(s) && id in s.sess && s.sess[id].pc.Added?
    ensures List(s, id, s') && s'.tick == s.tick && id in s'.sess && s'.sess[id].pc.Listed? && Served(s', id)
  {
    ReachableChecked(s, id);
    s' := SetPc(s.(subscribers := s.subscribers + {id}), id, Listed);
  }

  lemma {:induction false} HandlerFinishes(s: State, id: Id) returns (s': State)
    requires Reachable(s) && id in s.sess && HandlerRank(s.sess[id].pc) > 0 && ReceiversFree(s)
    requires s.sess[id].pc.Arrived? ==> GeneratorFree(s)
    ensures Leads(s, s') && Reachable(s') && Served(s', id)
    decreases HandlerRank(s.sess[id].pc)
  {
    var m := HandlerMoves(s, id);
    StillReachable(s, m);
    if HandlerRank(m.sess[id].pc) == 0 {
      s' := m;
      Stays(m);
    } else {
      s' := HandlerFinishes(m, id);
    }
    Before(s, m, s');
  }

  /** From every reachable state with a request in progress a run leads to its end: if all its tickers
  exist the client is in `subscribers`, registered with exactly these tickers and in the index set of
  each, and otherwise it is refused and in none of the three maps. */
  lemma RequestCanBeServed(s: State, id: Id)
    requires Reachable(s) && id in s.sess && HandlerRank(s.sess[id].pc) > 0
    ensures exists s' :: Leads(s, s') && Outcome(s, id, s')
  {
    var m := RoomToFinish(s, id);
    var s' := HandlerFinishes(m, id);
    Chain(s, m, s');
    LeadsKeeps(s, s');
    ServedOutcome(s, id, s');
    assert Leads(s, s') && Outcome(s, id, s');
  }

  lemma RoomToFinish(s: State, id: Id) returns (m: State)
    requires Reachable(s) && id in s.sess && HandlerRank(s.sess[id].pc) > 0
    ensures Leads(s, m) && Reachable(m) && id in m.sess && m.sess[id].pc == s.sess[id].pc && ReceiversFree(m)
    ensures m.sess[id].pc.Arrived? ==> GeneratorFree(m)
  {
    if Holds(s, id) {
      m := WalksClose(s);
    } else {
      m := LocksFree(s);
    }
    assert SameBut(s.sess[id], m.sess[id]);
  }

  /** What has become of the request of `id` in state `s'`, in terms of the tickers that exist in `s`. */
  ghost predicate Outcome(s: State, id: Id, s': State)
    requires id in s.sess
  {
    var want := s.sess[id].want;
    if forall t :: t in want ==> t in s.index then
      && id in s'.subscribers && id in s'.receivers
      && (forall t :: t in s'.receivers[id] <==> t in want)
      && forall t :: t in s'.index ==> (id in s'.index[t] <==> t in want)
    else Gone(s', id)
  }

  lemma ServedOutcome(s: State, id: Id, s': State)
    requires id in s.sess && Reachable(s') && Served(s', id) && s'.index.Keys == s.index.Keys
    requires s'.sess[id].want == s.sess[id].want
    ensures Outcome(s, id, s')
  {
    ReachableSession(s', id);
    if AllKnown(s', id) {
      ListedOutcome(s', id);
    } else {
      LifecycleSafety(s', id);
    }
  }

  lemma ListedOutcome(s: State, id: Id)
    requires id in s.sess && SessionOk(s, id) && s.sess[id].pc.Listed?
    ensures id in s.subscribers && id in s.receivers
    ensures forall t :: t in s.receivers[id] <==> t in s.sess[id].want
    ensures forall t :: t in s.index ==> (id in s.index[t] <==> t in s.sess[id].want)
  {}

  /** A new request can come in at any time, with any tickers. */
  lemma RequestCanArrive(s: State, want: seq<Ticker>) returns (s': State)
    requires Reachable(s)
    ensures Next(s, s') && s.nextId !in s.sess && s.nextId in s'.sess
    ensures s'.sess[s.nextId].want == want && HandlerRank(s'.sess[s.nextId].pc) > 0
  {
    ReachableIds(s);
    s' := s.(nextId := s.nextId + 1,
             sess := s.sess[s.nextId := Session(Arrived, want, true, [], false, false, [], [], map[])]);
    assert Arrive(s, want, s');
  }

  /** A listed client can start to stream, with its monitor beside it. */
  lemma ListedCanStream(s: State, id: Id) returns (s': State)
    requires id in s.sess && s.sess[id].pc.Listed?
    ensures Next(s, s') && id in s'.sess && s'.sess[id] == s.sess[id].(pc := Looping, watched := true)
  {
    s' := s.(sess := s.sess[id := s.sess[id].(pc := Looping, watched := true)]);
    assert Bind(s, id, true, s') && StreamStep(s, id, s') && SessionStep(s, id, s');
  }

  /** Without a socket it can be unregistered at once. */
  lemma ListedCanLeave(s: State, id: Id)
    requires Reachable(s) && id in s.sess && s.sess[id].pc.Listed?
    ensures exists s' :: Leads(s, s') && id in s'.sess && s'.sess[id].pc.Closed? && Gone(s', id)
  {
    var m := SetPc(s, id, Leaving);
    assert Bind(s, id, false, m) && StreamStep(s, id, m) && SessionStep(s, id, m);
    StillReachable(s, m);
    LeavingIsListed(m, id);
    var n := AfterUnlist(m, id);
    assert SessionStep(m, id, n);
    StillReachable(m, n);
    FlaggedCanUnregister(n, id);
    var s' :| Leads(n, s') && id in s'.sess && s'.sess[id].pc.Closed? && Gone(s', id);
    Before(m, n, s');
    Before(s, m, s');
  }

  lemma LeavingIsListed(s: State, id: Id)
    requires Reachable(s) && id in s.sess && s.sess[id].pc.Leaving?
    ensures id in s.subscribers
  {
    ReachableSession(s, id);
  }

  // ----- rounds -----

  /** Where a ticker thread stands in its round: steps to go, not counting ids to visit. */
  function RoundRank(pc: TickPc): nat {
    match pc
    case Idle => 0
    case Priced(_) => 8
    case Stored(_) => 7
    case Snapped(_, _) => 6
    case Walking(_, _, _, _, _) => 5
    case Cleaning(_) => 4
    case Purging(Look(_), _) => 3
    case Purging(Unmap(_, _), _) => 2
    case Purging(Unindex(_, _), _) => 1
  }

  /** The ids still to visit or to remove. */
  function IdsLeft(pc: TickPc): nat {
    match pc
    case Walking(_, _, left, _, _) => |left|
    case Cleaning(todo) => |todo|
    case Purging(_, todo) => |todo|
    case _ => 0
  }

  /** Only the ticker thread `t` moved, and its history is as before. */
  ghost predicate TickMoved(s: State, t: Ticker, s': State) {
    t in s.tick && t in s'.tick && Next(s, s') && s'.tick[t].made == s.tick[t].made && s'.tick[t].first == s.tick[t].first
  }

  /** The removal of dead receivers goes on. */
  lemma CleanMoves(s: State, t: Ticker) returns (s': State)
    requires t in s.tick && (s.tick[t].pc.Cleaning? || s.tick[t].pc.Purging?) && ReceiversFree(s) && IndexFree(s)
    ensures TickMoved(s, t, s') && (s'.tick[t].pc.Idle? || s'.tick[t].pc.Cleaning? || s'.tick[t].pc.Purging?)
    ensures IdsLeft(s'.tick[t].pc) <= IdsLeft(s.tick[t].pc)
    ensures IdsLeft(s'.tick[t].pc) < IdsLeft(s.tick[t].pc) || CleanRank(s'.tick[t].pc) < CleanRank(s.tick[t].pc)
  {
    match s.tick[t].pc
    case Cleaning(todo) => s' := StartPurge(s, t);
    case Purging(_, _) => s' := AfterSweep(s, t);
  }

  /** Within the removal of one id: a purge ends where the next one starts. */
  function CleanRank(pc: TickPc): nat {
    match pc
    case Cleaning(_) => 1
    case Purging(Look(_), _) => 4
    case Purging(Unmap(_, _), _) => 3
    case Purging(Unindex(_, _), _) => 2
    case _ => 0
  }

  lemma StartPurge(s: State, t: Ticker) returns (s': State)
    requires t in s.tick && s.tick[t].pc.Cleaning?
    ensures TickMoved(s, t, s') && (s'.tick[t].pc.Idle? || s'.tick[t].pc.Purging?)
    ensures s'.tick[t].pc.Idle? ==> IdsLeft(s'.tick[t].pc) <= IdsLeft(s.tick[t].pc)
    ensures s'.tick[t].pc.Purging? ==> IdsLeft(s'.tick[t].pc) < IdsLeft(s.tick[t].pc)
  {
    var todo := s.tick[t].pc.todo;
    if todo == {} {
      s' := SetTick(s, t, Idle);
      assert Rest(s, t, s');
    } else {
      var id :| id in todo;
      s' := SetTick(s, t, Purging(Look(id), todo - {id}));
      assert Purge(s, t, id, s');
    }
    assert CleanStep(s, t, s') && TickStep(s, t, s');
  }

  lemma AfterSweep(s: State, t: Ticker) returns (s': State)
    requires t in s.tick && s.tick[t].pc.Purging? && ReceiversFree(s) && IndexFree(s)
    ensures TickMoved(s, t, s') && (s'.tick[t].pc.Cleaning? || s'.tick[t].pc.Purging?)
    ensures IdsLeft(s'.tick[t].pc) == IdsLeft(s.tick[t].pc) && CleanRank(s'.tick[t].pc) < CleanRank(s.tick[t].pc)
  {
    var pc := s.tick[t].pc;
    s' := if pc.r.Unindex? then SetTick(RemoverApply(s, pc.r), t, Cleaning(pc.todo))
          else SetTick(RemoverApply(s, pc.r), t, Purging(RemoverNext(s, pc.r), pc.todo));
    assert Sweep(s, t, s');
    assert CleanStep(s, t, s') && TickStep(s, t, s');
  }

  lemma FreeForTick(s: State, t: Ticker) returns (m: State)
    requires Reachable(s) && t in s.tick && !s.tick[t].pc.Walking?
    ensures Leads(s, m) && Reachable(m) && ReceiversFree(m) && IndexFree(m) && t in m.tick && m.tick[t] == s.tick[t]
  {
    m := LocksFree(s);
    forall x | x in m.sess ensures !m.sess[x].pc.Checked? {
      assert !HoldsGenerator(m.sess[x].pc);
    }
  }

  lemma {:induction false} CleanEnds(s: State, t: Ticker) returns (s': State)
    requires Reachable(s) && t in s.tick && (s.tick[t].pc.Cleaning? || s.tick[t].pc.Purging? || s.tick[t].pc.Idle?)
    ensures Leads(s, s') && Reachable(s') && t in s'.tick && s'.tick[t].pc.Idle? && s'.tick[t].made == s.tick[t].made
    decreases IdsLeft(s.tick[t].pc), CleanRank(s.tick[t].pc)
  {
    if s.tick[t].pc.Idle? {
      s' := s;
      Stays(s);
    } else {
      var m := FreeForTick(s, t);
      var n := CleanMoves(m, t);
      StillReachable(m, n);
      s' := CleanEnds(n, t);
      Before(m, n, s');
      Chain(s, m, s');
    }
  }

  lemma {:induction false} WalkEnds(s: State, t: Ticker) returns (s': State)
    requires Reachable(s) && t in s.tick && s.tick[t].pc.Walking?
    ensures Leads(s, s') && Reachable(s') && t in s'.tick && s'.tick[t].pc.Cleaning? && s'.tick[t].made == s.tick[t].made
    decreases PcWork(s.tick[t].pc)
  {
    var m := WalkGoesOn(s, t);
    StillReachable(s, m);
    if m.tick[t].pc.Cleaning? {
      s' := m;
      Stays(m);
    } else {
      s' := WalkEnds(m, t);
    }
    Before(s, m, s');
  }

  /** The steps before the walk take no lock that another thread could keep. */
  lemma QuoteMoves(s: State, t: Ticker, volume: nat, now: nat) returns (s': State)
    requires Reachable(s) && t in s.tick && VolumeOk(t, volume)
    requires s.tick[t].pc.Priced? || s.tick[t].pc.Stored? || s.tick[t].pc.Snapped?
    ensures Next(s, s') && t in s'.tick && RoundRank(s'.tick[t].pc) < RoundRank(s.tick[t].pc)
    ensures s'.tick[t].pc.Stored? || s'.tick[t].pc.Snapped? || s'.tick[t].pc.Walking?
    ensures s'.tick[t].made == s.tick[t].made +
              if s.tick[t].pc.Priced? then [Quote(t, s.tick[t].pc.price, volume, now)] else []
  {
    var k := s.tick[t];
    ReachableIds(s);
    match k.pc
    case Priced(price) =>
      var q := Quote(t, price, volume, now);
      s' := s.(prices := s.prices[t := q.price], tick := s.tick[t := k.(pc := Stored(q), made := k.made + [q])]);
      assert Store(s, t, volume, now, s');
      assert QuoteStep(s, t, s') && TickStep(s, t, s');
    case Stored(q) =>
      s' := SetTick(s, t, Snapped(q, if t in s.index then s.index[t] else {}));
      assert Snap(s, t, s');
      assert QuoteStep(s, t, s') && TickStep(s, t, s');
    case Snapped(q, snap) =>
      s' := SetTick(s, t, Walking(q, snap, snap, {}, {}));
      assert Open(s, t, s');
      assert SendStep(s, t, s') && TickStep(s, t, s');
  }

  /** The quote that this round is about to add, if it has yet to be stored. */
  function Coming(k: Tick, t: Ticker, volume: nat, now: nat): seq<Quote> {
    if k.pc.Priced? then [Quote(t, k.pc.price, volume, now)] else []
  }

  lemma {:induction false} RoundEnds(s: State, t: Ticker, volume: nat, now: nat) returns (s': State)
    requires Reachable(s) && t in s.tick && VolumeOk(t, volume)
    ensures Leads(s, s') && Reachable(s') && t in s'.tick && s'.tick[t].pc.Idle?
    ensures s'.tick[t].made == s.tick[t].made + Coming(s.tick[t], t, volume, now)
    decreases RoundRank(s.tick[t].pc)
  {
    var pc := s.tick[t].pc;
    if pc.Walking? {
      var m := WalkEnds(s, t);
      s' := CleanEnds(m, t);
      Chain(s, m, s');
    } else if pc.Priced? || pc.Stored? || pc.Snapped? {
      var m := QuoteMoves(s, t, volume, now);
      StillReachable(s, m);
      s' := RoundEnds(m, t, volume, now);
      Before(s, m, s');
    } else {
      s' := CleanEnds(s, t);
    }
  }

  /** From every reachable state every ticker thread has a run that completes its round. Between rounds
  it has, for each change of at most two per cent, each volume in range and each clock reading, a run
  that completes the next one: exactly that quote is made, and at the end every registered, indexed
  subscriber with a live channel has been sent every quote of the ticker since it joined. */
  lemma RoundCanComplete(s: State, t: Ticker, change: real, volume: nat, now: nat)
    requires Reachable(s) && t in s.tick && s.tick[t].pc.Idle?
    requires -0.02 <= change <= 0.02 && VolumeOk(t, volume)
    ensures t in s.prices
    ensures exists s' :: Leads(s, s') && RoundDone(s, t, Quote(t, Prices.NewPrice(s.prices[t], change), volume, now), s')
  {
    ReachableIds(s);
    var price := Prices.NewPrice(s.prices[t], change);
    var m := SetTick(s, t, Priced(price));
    assert Price(s, t, change, m);
    assert QuoteStep(s, t, m) && TickStep(s, t, m);
    StillReachable(s, m);
    var s' := RoundEnds(m, t, volume, now);
    Before(s, m, s');
    AllServed(s', t);
    assert Leads(s, s') && RoundDone(s, t, Quote(t, price, volume, now), s');
  }

  lemma RoundCanEnd(s: State, t: Ticker)
    requires Reachable(s) && t in s.tick
    ensures exists s' :: Leads(s, s') && t in s'.tick && s'.tick[t].pc.Idle?
  {
    var s' := RoundEnds(s, t, 1000, 0);
  }

  ghost predicate RoundDone(s: State, t: Ticker, q: Quote, s': State)
    requires t in s.tick
  {
    && t in s'.tick && s'.tick[t].pc.Idle? && s'.tick[t].made == s.tick[t].made + [q]
    && forall id :: id in s'.sess ==> HasAll(s', t, id)
  }

  /** A live, indexed subscriber of `t` has been sent every quote of `t` since it joined. */
  ghost predicate HasAll(s: State, t: Ticker, id: Id)
    requires t in s.tick && id in s.sess
  {
    var c := s.sess[id];
    id in s.receivers && t in c.joined && c.open ==>
      c.joined[t] <= |s.tick[t].made| && Project(c.taken + c.queue, t) == s.tick[t].made[c.joined[t]..]
  }

  lemma AllServed(s: State, t: Ticker)
    requires Reachable(s) && t in s.tick && s.tick[t].pc.Idle?
    ensures forall id :: id in s.sess ==> HasAll(s, t, id)
  {
    forall id | id in s.sess ensures HasAll(s, t, id) {
      if id in s.receivers && t in s.sess[id].joined && s.sess[id].open {
        DeliveryComplete(s, t, id);
      }
    }
  }
}
