/** The end of a session: what its shutdown flag brings about, and that it can always be finished. */
module Unregister {
  import opened Registry
  import opened Machine
  import opened Lifecycle
  import opened Delivery

  /** The loop is running or over; it has not been before the bind. */
  predicate Spawned(pc: SessionPc) {
    pc.Looping? || pc.Receiving? || pc.Joining? || pc.Leaving? || pc.Unlisted? || pc.Removing? || Ended(pc)
  }

  // ----- shutdown flags, monitors and the generator mutex -----

  /** A monitor runs only beside the streaming loop; a set flag means that it has ended. */
  predicate GuardOk(c: Session) {
    && (c.watched ==> c.pc.Looping? || c.pc.Receiving? || c.pc.Joining? || c.pc.Dead?)
    && (c.flagged ==> !c.watched && Spawned(c.pc) && !c.pc.Rejected?)
    && (InLoop(c.pc) ==> c.watched || c.flagged)
    && (c.pc.Unlisted? || c.pc.Removing? ==> c.flagged)
  }

  /** Streaming, or waiting for the monitor. */
  predicate InLoop(pc: SessionPc) {
    pc.Looping? || pc.Receiving? || pc.Joining?
  }

  predicate Holds(s: State, x: Id) {
    x in s.sess && HoldsGenerator(s.sess[x].pc)
  }

  /** Mutual exclusion on the generator, and the guards of every session. */
  ghost predicate Guards(s: State) {
    && (forall x :: x in s.sess ==> GuardOk(s.sess[x]))
    && (forall x, y :: Holds(s, x) && Holds(s, y) ==> x == y)
  }

  lemma GuardLock(s: State, id: Id, s': State)
    requires id in s.sess && GuardOk(s.sess[id]) && Lock(s, id, s')
    ensures id in s'.sess && GuardOk(s'.sess[id]) && GeneratorFree(s)
  {}

  lemma GuardCheck(s: State, id: Id, s': State)
    requires id in s.sess && GuardOk(s.sess[id]) && Check(s, id, s')
    ensures id in s'.sess && GuardOk(s'.sess[id]) && Holds(s, id)
  {}

  lemma GuardAdd(s: State, id: Id, s': State)
    requires id in s.sess && GuardOk(s.sess[id])
    requires Insert(s, id, s') || Publish(s, id, s') || List(s, id, s')
    ensures id in s'.sess && GuardOk(s'.sess[id]) && (Holds(s', id) ==> Holds(s, id))
  {}

  lemma GuardBind(s: State, id: Id, ok: bool, s': State)
    requires id in s.sess && GuardOk(s.sess[id]) && Bind(s, id, ok, s')
    ensures id in s'.sess && GuardOk(s'.sess[id]) && !Holds(s', id)
  {}

  lemma GuardTest(s: State, id: Id, s': State)
    requires id in s.sess && GuardOk(s.sess[id])
    requires Test(s, id, s') || Wait(s, id, s')
    ensures id in s'.sess && GuardOk(s'.sess[id]) && (Holds(s', id) ==> Holds(s, id))
  {}

  lemma GuardTake(s: State, id: Id, s': State)
    requires id in s.sess && GuardOk(s.sess[id])
    requires Take(s, id, s')
    ensures id in s'.sess && GuardOk(s'.sess[id]) && (Holds(s', id) ==> Holds(s, id))
  {}

  lemma GuardDie(s: State, id: Id, s': State)
    requires id in s.sess && GuardOk(s.sess[id])
    requires Die(s, id, s')
    ensures id in s'.sess && GuardOk(s'.sess[id]) && (Holds(s', id) ==> Holds(s, id))
  {}

  lemma GuardFlag(s: State, id: Id, s': State)
    requires id in s.sess && GuardOk(s.sess[id])
    requires Flag(s, id, s') || Join(s, id, s')
    ensures id in s'.sess && GuardOk(s'.sess[id]) && (Holds(s', id) ==> Holds(s, id))
  {}

  lemma GuardUnlist(s: State, id: Id, s': State)
    requires id in s.sess && GuardOk(s.sess[id])
    requires Unlist(s, id, s')
    ensures id in s'.sess && GuardOk(s'.sess[id]) && (Holds(s', id) ==> Holds(s, id))
  {}

  lemma GuardClone(s: State, id: Id, s': State)
    requires id in s.sess && GuardOk(s.sess[id])
    requires Clone(s, id, s')
    ensures id in s'.sess && GuardOk(s'.sess[id]) && (Holds(s', id) ==> Holds(s, id))
  {}

  lemma GuardRemove(s: State, id: Id, s': State)
    requires id in s.sess && GuardOk(s.sess[id]) && Remove(s, id, s')
    ensures id in s'.sess && GuardOk(s'.sess[id]) && !Holds(s', id)
  {}

  lemma GuardOwn(s: State, id: Id, s': State)
    requires id in s.sess && SessionOk(s, id) && GuardOk(s.sess[id]) && SessionStep(s, id, s')
    ensures id in s'.sess && GuardOk(s'.sess[id]) && (Holds(s', id) ==> Holds(s, id) || GeneratorFree(s))
  {
    if Lock(s, id, s') {
      GuardLock(s, id, s');
    } else if Check(s, id, s') {
      GuardCheck(s, id, s');
    } else if Insert(s, id, s') || Publish(s, id, s') || List(s, id, s') {
      GuardAdd(s, id, s');
    } else if Test(s, id, s') || Wait(s, id, s') {
      GuardTest(s, id, s');
    } else if Take(s, id, s') {
      GuardTake(s, id, s');
    } else if Die(s, id, s') {
      GuardDie(s, id, s');
    } else if Flag(s, id, s') || Join(s, id, s') {
      GuardFlag(s, id, s');
    } else if Unlist(s, id, s') {
      GuardUnlist(s, id, s');
    } else if Clone(s, id, s') {
      GuardClone(s, id, s');
    } else if Remove(s, id, s') {
      GuardRemove(s, id, s');
    } else {
      NoDisconnect(s, id, s');
      var ok :| Bind(s, id, ok, s');
      GuardBind(s, id, ok, s');
    }
  }

  lemma SessionGuards(s: State, id: Id, s': State)
    requires Inv(s) && Guards(s) && SessionStep(s, id, s')
    ensures Guards(s')
  {
    SessionShape(s, id, s');
    assert SessionOk(s, id);
    GuardOwn(s, id, s');
    forall x, y | Holds(s', x) && Holds(s', y) ensures x == y {
      assert x != id ==> Holds(s, x);
      assert y != id ==> Holds(s, y);
    }
  }

  lemma ArriveGuards(s: State, want: seq<Ticker>, s': State)
    requires IdsOk(s) && Guards(s) && Arrive(s, want, s')
    ensures Guards(s')
  {
    assert s.nextId !in s.sess;
    SamePcs(s, s');
  }

  lemma TickGuards(s: State, t: Ticker, s': State)
    requires Guards(s) && OneTick(s, t, s')
    ensures Guards(s')
  {
    SamePcs(s, s');
  }

  lemma StepGuards(s: State, s': State)
    requires Inv(s) && Guards(s) && Next(s, s')
    ensures Guards(s')
  {
    if want :| Arrive(s, want, s') {
      ArriveGuards(s, want, s');
    } else if id :| SessionStep(s, id, s') {
      SessionGuards(s, id, s');
    } else {
      var t :| TickStep(s, t, s');
      TickShape(s, t, s');
      TickGuards(s, t, s');
    }
  }

  predicate SameGuard(c: Session, d: Session) {
    d.pc == c.pc && d.flagged == c.flagged && d.watched == c.watched
  }

  /** Sessions that keep their program counter and flags, and new ones that hold nothing. */
  lemma SamePcs(s: State, s': State)
    requires Guards(s) && forall x :: x in s.sess ==> x in s'.sess && SameGuard(s.sess[x], s'.sess[x])
    requires forall x :: x in s'.sess && x !in s.sess ==> s'.sess[x].pc.Arrived? && GuardOk(s'.sess[x])
    ensures Guards(s')
  {
    forall x, y | Holds(s', x) && Holds(s', y) ensures x == y {
      assert Holds(s, x) && Holds(s, y);
    }
  }

  lemma InitGuards(s: State)
    requires Init(s)
    ensures Guards(s)
  {}

  lemma {:induction false} RunGuards(b: seq<State>, i: nat)
    requires Run(b) && Init(b[0]) && i < |b|
    ensures Guards(b[i])
  {
    if i == 0 {
      InitGuards(b[0]);
    } else {
      RunGuards(b, i - 1);
      GuardsAt(b, i);
    }
  }

  lemma GuardsAt(b: seq<State>, i: nat)
    requires Run(b) && Init(b[0]) && 0 < i < |b| && Guards(b[i - 1])
    ensures Guards(b[i])
  {
    RunReachable(b, i - 1);
    ReachableInv(b[i - 1]);
    assert StepAt(b, i - 1);
    StepGuards(b[i - 1], b[i]);
  }

  /** In every reachable state at most one request handler holds the generator mutex, and a session
  whose shutdown flag is set has left its handler and has no monitor any more; and a session in its
  loop has a running monitor or a set flag. */
  lemma ReachableGuards(s: State)
    requires Reachable(s)
    ensures forall x, y :: Holds(s, x) && Holds(s, y) ==> x == y
    ensures forall x :: x in s.sess && s.sess[x].flagged ==>
              !s.sess[x].watched && Spawned(s.sess[x].pc) && !s.sess[x].pc.Rejected?
    ensures forall x :: x in s.sess && InLoop(s.sess[x].pc) ==> s.sess[x].watched || s.sess[x].flagged
    ensures forall x :: x in s.sess && (s.sess[x].pc.Unlisted? || s.sess[x].pc.Removing?) ==> s.sess[x].flagged
    ensures forall x :: x in s.sess && s.sess[x].watched ==> InLoop(s.sess[x].pc) || s.sess[x].pc.Dead?
  {
    var b :| Run(b) && Init(b[0]) && b[|b| - 1] == s;
    RunGuards(b, |b| - 1);
  }

  // ----- a flagged session winds down -----

  /** What a flagged session may still take from its channel, added to what it took. */
  function Budget(c: Session): nat {
    |c.taken| + if c.pc.Receiving? then 1 else 0
  }

  /** How many moves a flagged session still has before it: at most one quote, the join, and the
  sections of remove_subscriber. */
  function MovesLeft(pc: SessionPc): nat {
    match pc
    case Receiving => 8
    case Looping => 7
    case Joining => 6
    case Leaving => 5
    case Unlisted => 4
    case Removing(Look(_)) => 3
    case Removing(Unmap(_, _)) => 2
    case Removing(Unindex(_, _)) => 1
    case _ => 0
  }

  ghost predicate WindsDown(s: State, id: Id, s': State)
    requires id in s.sess
  {
    && id in s'.sess && s'.sess[id].flagged && Spawned(s'.sess[id].pc)
    && Budget(s'.sess[id]) <= Budget(s.sess[id])
    && (!s.sess[id].pc.Receiving? ==> !s'.sess[id].pc.Receiving?)
    && (s'.sess[id].pc == s.sess[id].pc || MovesLeft(s'.sess[id].pc) < MovesLeft(s.sess[id].pc))
    && (!s.sess[id].watched ==> !s'.sess[id].watched)
  }

  lemma SpawnedIsNoHandler(s: State, id: Id, s': State)
    requires id in s.sess && Spawned(s.sess[id].pc)
    ensures !HandlerStep(s, id, s')
  {}

  lemma FlaggedReceive(s: State, id: Id, s': State)
    requires id in s.sess && s.sess[id].flagged && Spawned(s.sess[id].pc)
    requires Test(s, id, s') || Wait(s, id, s')
    ensures WindsDown(s, id, s')
  {}

  lemma FlaggedTake(s: State, id: Id, s': State)
    requires id in s.sess && s.sess[id].flagged && Spawned(s.sess[id].pc) && Take(s, id, s')
    ensures WindsDown(s, id, s')
  {}

  lemma FlaggedBreak(s: State, id: Id, s': State)
    requires id in s.sess && s.sess[id].flagged && Spawned(s.sess[id].pc)
    requires Disconnect(s, id, s') || Die(s, id, s')
    ensures WindsDown(s, id, s')
  {}

  lemma FlaggedUnlist(s: State, id: Id, s': State)
    requires id in s.sess && s.sess[id].flagged && Spawned(s.sess[id].pc)
    requires Unlist(s, id, s')
    ensures WindsDown(s, id, s')
  {}

  lemma FlaggedLeave(s: State, id: Id, s': State)
    requires id in s.sess && s.sess[id].flagged && Spawned(s.sess[id].pc)
    requires Flag(s, id, s') || Join(s, id, s') || Clone(s, id, s')
    ensures WindsDown(s, id, s')
  {}

  lemma FlaggedRemove(s: State, id: Id, s': State)
    requires id in s.sess && s.sess[id].flagged && Spawned(s.sess[id].pc) && Remove(s, id, s')
    ensures WindsDown(s, id, s')
  {}

  lemma FlaggedOwn(s: State, id: Id, s': State)
    requires id in s.sess && s.sess[id].flagged && Spawned(s.sess[id].pc) && SessionStep(s, id, s')
    ensures WindsDown(s, id, s')
  {
    SpawnedIsNoHandler(s, id, s');
    if Remove(s, id, s') {
      FlaggedRemove(s, id, s');
    } else if Test(s, id, s') || Wait(s, id, s') {
      FlaggedReceive(s, id, s');
    } else if Take(s, id, s') {
      FlaggedTake(s, id, s');
    } else if Disconnect(s, id, s') || Die(s, id, s') {
      FlaggedBreak(s, id, s');
    } else if Unlist(s, id, s') {
      FlaggedUnlist(s, id, s');
    } else {
      FlaggedLeave(s, id, s');
    }
  }

  /** Once the monitor has flagged a session its thread receives at most one more quote, the one
  it may already be waiting for, and never goes back to waiting after that; and the monitor has
  ended for good. */
  lemma {:induction false} FlagStopsStreaming(b: seq<State>, i: nat, j: nat, id: Id)
    requires Run(b) && Init(b[0]) && i <= j < |b|
    requires id in b[i].sess && b[i].sess[id].flagged
    ensures id in b[j].sess && b[j].sess[id].flagged && !b[j].sess[id].watched && Spawned(b[j].sess[id].pc)
    ensures b[i].sess[id].taken <= b[j].sess[id].taken
    ensures Budget(b[j].sess[id]) <= Budget(b[i].sess[id])
    ensures !b[i].sess[id].pc.Receiving? ==> !b[j].sess[id].pc.Receiving?
    decreases j - i
  {
    if i == j {
      RunGuards(b, i);
    } else {
      FlagStopsStreaming(b, i, j - 1, id);
      FlaggedAt(b, j, id);
    }
  }

  lemma FlaggedAt(b: seq<State>, k: nat, id: Id)
    requires Run(b) && Init(b[0]) && 0 < k < |b|
    requires id in b[k - 1].sess && b[k - 1].sess[id].flagged && Spawned(b[k - 1].sess[id].pc)
    ensures id in b[k].sess && b[k].sess[id].flagged && Spawned(b[k].sess[id].pc)
    ensures b[k - 1].sess[id].taken <= b[k].sess[id].taken && Budget(b[k].sess[id]) <= Budget(b[k - 1].sess[id])
    ensures !b[k - 1].sess[id].pc.Receiving? ==> !b[k].sess[id].pc.Receiving?
    ensures !b[k - 1].sess[id].watched ==> !b[k].sess[id].watched
    ensures Descends(b, k, id)
  {
    RunReachable(b, k - 1);
    ReachableInv(b[k - 1]);
    assert StepAt(b, k - 1);
    FlaggedStep(b[k - 1], b[k], id);
  }

  lemma FlaggedStep(s: State, s': State, id: Id)
    requires Inv(s) && Next(s, s') && id in s.sess && s.sess[id].flagged && Spawned(s.sess[id].pc)
    ensures id in s'.sess && s'.sess[id].flagged && Spawned(s'.sess[id].pc)
    ensures s.sess[id].taken <= s'.sess[id].taken && Budget(s'.sess[id]) <= Budget(s.sess[id])
    ensures !s.sess[id].pc.Receiving? ==> !s'.sess[id].pc.Receiving?
    ensures s'.sess[id].pc == s.sess[id].pc || MovesLeft(s'.sess[id].pc) < MovesLeft(s.sess[id].pc)
    ensures !s.sess[id].watched ==> !s'.sess[id].watched
  {
    if want :| Arrive(s, want, s') {
      assert s.nextId !in s.sess;
    } else if x :| SessionStep(s, x, s') {
      SessionShape(s, x, s');
      if x == id {
        FlaggedOwn(s, id, s');
      }
    } else {
      var t :| TickStep(s, t, s');
      FlaggedTick(s, t, s', id);
    }
  }

  lemma FlaggedTick(s: State, t: Ticker, s': State, id: Id)
    requires Inv(s) && TickStep(s, t, s') && id in s.sess
    ensures id in s'.sess
    ensures var (c, d) := (s.sess[id], s'.sess[id]); d.pc == c.pc && d.flagged == c.flagged && d.watched == c.watched && d.taken == c.taken
  {
    TickShape(s, t, s');
  }

  /** The steps between two states of a run in which the session's thread moved. */
  function Moves(b: seq<State>, i: nat, j: nat, id: Id): nat
    requires i <= j < |b|
    decreases j
  {
    if i == j then 0 else Moves(b, i, j - 1, id) + if MovesAt(b[j - 1], b[j], id) then 1 else 0
  }

  predicate MovesAt(s: State, s': State, id: Id) {
    id in s.sess && id in s'.sess && s'.sess[id].pc != s.sess[id].pc
  }

  /** The step to state `k` uses up a move if the session's thread moved. */
  ghost predicate Descends(b: seq<State>, k: nat, id: Id)
    requires 0 < k < |b|
  {
    && id in b[k - 1].sess && id in b[k].sess
    && (if MovesAt(b[k - 1], b[k], id) then 1 else 0) + MovesLeft(b[k].sess[id].pc) <= MovesLeft(b[k - 1].sess[id].pc)
  }

  lemma {:induction false} MovesBound(b: seq<State>, i: nat, j: nat, id: Id)
    requires i <= j < |b| && id in b[i].sess && forall k :: i < k <= j ==> Descends(b, k, id)
    ensures id in b[j].sess && Moves(b, i, j, id) + MovesLeft(b[j].sess[id].pc) <= MovesLeft(b[i].sess[id].pc)
    decreases j
  {
    if i < j {
      MovesBound(b, i, j - 1, id);
      assert Descends(b, j, id);
    }
  }

  /** A flagged session uses up one of at most eight moves whenever its thread moves, whatever all
  other threads do in between; when they are used up it has ended, and a session that ended by
  returning is in none of the three maps. */
  lemma FlaggedEnds(b: seq<State>, i: nat, j: nat, id: Id)
    requires Run(b) && Init(b[0]) && i <= j < |b|
    requires id in b[i].sess && b[i].sess[id].flagged
    ensures id in b[j].sess
    ensures Moves(b, i, j, id) + MovesLeft(b[j].sess[id].pc) <= MovesLeft(b[i].sess[id].pc) <= 8
    ensures Moves(b, i, j, id) == MovesLeft(b[i].sess[id].pc) ==> Ended(b[j].sess[id].pc)
    ensures b[j].sess[id].pc.Closed? ==> Gone(b[j], id)
  {
    RunGuards(b, i);
    forall k | i < k <= j ensures Descends(b, k, id) {
      FlagStopsStreaming(b, i, k - 1, id);
      FlaggedAt(b, k, id);
    }
    MovesBound(b, i, j, id);
    FlagStopsStreaming(b, i, j, id);
    NoMovesLeft(b[i].sess[id].pc);
    NoMovesLeft(b[j].sess[id].pc);
    RunReachable(b, j);
    ClosedIsGone(b[j], id);
  }

  /** In none of the three maps. */
  ghost predicate Gone(s: State, id: Id) {
    id !in s.subscribers && id !in s.receivers && forall t :: t in s.index ==> id !in s.index[t]
  }

  lemma ClosedIsGone(s: State, id: Id)
    requires Reachable(s) && id in s.sess
    ensures s.sess[id].pc.Closed? ==> Gone(s, id)
  {
    if s.sess[id].pc.Closed? {
      LifecycleSafety(s, id);
    }
  }

  lemma NoMovesLeft(pc: SessionPc)
    requires Spawned(pc)
    ensures MovesLeft(pc) <= 8 && (MovesLeft(pc) == 0 <==> Ended(pc))
  {}

  // ----- and can always be finished -----

  /** Some run leads from `s` to `s'`. */
  ghost predicate Leads(s: State, s': State) {
    exists b :: Run(b) && b[0] == s && b[|b| - 1] == s'
  }

  lemma Stays(s: State)
    ensures Leads(s, s)
  {
    assert Run([s]);
  }

  lemma StillReachable(s: State, s': State)
    requires Reachable(s) && Next(s, s')
    ensures Reachable(s')
  {
    var b :| Run(b) && Init(b[0]) && b[|b| - 1] == s;
    var c := b + [s'];
    forall i | 0 <= i < |c| - 1 ensures StepAt(c, i) {
      if i < |b| - 1 {
        assert StepAt(b, i);
      }
    }
    assert Run(c) && Init(c[0]) && c[|c| - 1] == s';
  }

  /** The same session, but for quotes sent to it. */
  predicate SameBut(c: Session, d: Session) {
    d == c.(queue := d.queue, enq := d.enq)
  }

  /** Only walks went on. */
  predicate SamePhase(s: State, s': State) {
    && s'.sess.Keys == s.sess.Keys && (forall x :: x in s.sess ==> SameBut(s.sess[x], s'.sess[x]))
    && s'.tick.Keys == s.tick.Keys && forall t :: t in s.tick && !s.tick[t].pc.Walking? ==> s'.tick[t] == s.tick[t]
  }

  /** What the open walks still have to do. */
  ghost function WalkWork(ticks: map<Ticker, Tick>): nat
    decreases |ticks|
  {
    if ticks == map[] then 0
    else
      var t :| t in ticks;
      PcWork(ticks[t].pc) + WalkWork(ticks - {t})
  }

  function PcWork(pc: TickPc): nat {
    if pc.Walking? then 1 + |pc.left| else 0
  }

  lemma {:induction false} WalkSplit(ticks: map<Ticker, Tick>, t: Ticker)
    requires t in ticks
    ensures WalkWork(ticks) == PcWork(ticks[t].pc) + WalkWork(ticks - {t})
    decreases |ticks|
  {
    var u :| u in ticks && WalkWork(ticks) == PcWork(ticks[u].pc) + WalkWork(ticks - {u});
    if u != t {
      WalkSplit(ticks - {u}, t);
      WalkSplit(ticks - {t}, u);
      assert ticks - {u} - {t} == ticks - {t} - {u};
    }
  }

  /** A walk can always go on: visit an id of its snapshot, or close. */
  lemma WalkGoesOn(s: State, t: Ticker) returns (s': State)
    requires Reachable(s) && t in s.tick && s.tick[t].pc.Walking?
    ensures Next(s, s') && SamePhase(s, s')
    ensures t in s'.tick && s'.tick == s.tick[t := s'.tick[t]] && PcWork(s'.tick[t].pc) < PcWork(s.tick[t].pc)
    ensures s'.tick[t] == s.tick[t].(pc := s'.tick[t].pc) && (s'.tick[t].pc.Walking? || s'.tick[t].pc.Cleaning?)
  {
    var pc := s.tick[t].pc;
    if pc.left == {} {
      s' := SetTick(s, t, Cleaning(pc.dead));
      assert Close(s, t, s');
    } else {
      ReachableStory(s);
      assert TickStory(s, t);
      var id :| id in pc.left;
      s' := AfterVisit(s, t, id);
    }
    assert SendStep(s, t, s');
    assert TickStep(s, t, s');
  }

  lemma AfterVisit(s: State, t: Ticker, id: Id) returns (s': State)
    requires t in s.tick && s.tick[t].pc.Walking? && id in s.tick[t].pc.left && id in s.sess
    ensures Visit(s, t, id, s') && SamePhase(s, s')
    ensures t in s'.tick && s'.tick == s.tick[t := s'.tick[t]] && PcWork(s'.tick[t].pc) < PcWork(s.tick[t].pc)
    ensures s'.tick[t] == s.tick[t].(pc := s'.tick[t].pc) && (s'.tick[t].pc.Walking? || s'.tick[t].pc.Cleaning?)
  {
    var pc := s.tick[t].pc;
    var left := pc.left - {id};
    if id !in s.receivers {
      s' := SetTick(s, t, Walking(pc.q, pc.snap, left, pc.sent, pc.dead));
    } else if s.sess[id].open {
      s' := SetTick(Send(s, id, pc.q), t, Walking(pc.q, pc.snap, left, pc.sent + {id}, pc.dead));
    } else {
      s' := SetTick(s, t, Walking(pc.q, pc.snap, left, pc.sent + {id}, pc.dead + {id}));
    }
  }

  lemma SamePhaseOn(s: State, m: State, s': State)
    requires SamePhase(s, m) && SamePhase(m, s')
    ensures SamePhase(s, s')
  {
    forall x | x in s.sess ensures SameBut(s.sess[x], s'.sess[x]) {
      assert SameBut(s.sess[x], m.sess[x]) && SameBut(m.sess[x], s'.sess[x]);
    }
  }

  lemma {:induction false} WalksClose(s: State) returns (s': State)
    requires Reachable(s)
    ensures Leads(s, s') && Reachable(s') && SamePhase(s, s') && ReceiversFree(s')
    decreases WalkWork(s.tick)
  {
    if t :| t in s.tick && s.tick[t].pc.Walking? {
      var m := WalkGoesOn(s, t);
      StillReachable(s, m);
      WalkSplit(s.tick, t);
      WalkSplit(m.tick, t);
      assert m.tick - {t} == s.tick - {t};
      s' := WalksClose(m);
      Before(s, m, s');
      SamePhaseOn(s, m, s');
    } else {
      s' := s;
      Stays(s);
    }
  }

  lemma Before(s: State, m: State, s': State)
    requires Next(s, m) && Leads(m, s')
    ensures Leads(s, s')
  {
    var b :| Run(b) && b[0] == m && b[|b| - 1] == s';
    var c := [s] + b;
    forall i | 0 <= i < |c| - 1 ensures StepAt(c, i) {
      if i > 0 {
        assert StepAt(b, i - 1);
      }
    }
    assert Run(c) && c[0] == s && c[|c| - 1] == s';
  }

  lemma Chain(s: State, m: State, s': State)
    requires Leads(s, m) && Leads(m, s')
    ensures Leads(s, s')
  {
    var b :| Run(b) && b[0] == s && b[|b| - 1] == m;
    var c :| Run(c) && c[0] == m && c[|c| - 1] == s';
    var d := b + c[1..];
    forall i | 0 <= i < |d| - 1 ensures StepAt(d, i) {
      if i < |b| - 1 {
        assert StepAt(b, i);
      } else {
        assert StepAt(c, i - (|b| - 1));
      }
    }
    assert Run(d) && d[0] == s && d[|d| - 1] == s';
  }

  /** Steps left to the holder of the generator mutex. */
  function HolderWork(pc: SessionPc): nat {
    match pc
    case Locked => 3
    case Checked => 2
    case Inserted => 1
    case _ => 0
  }

  /** With no walk open the holder of the mutex can go on: it holds the index guard alone. */
  lemma HolderGoesOn(s: State, h: Id) returns (s': State)
    requires Reachable(s) && Holds(s, h) && ReceiversFree(s)
    ensures Next(s, s') && ReceiversFree(s') && h in s'.sess && s'.sess == s.sess[h := s'.sess[h]] && s'.tick == s.tick
    ensures HolderWork(s'.sess[h].pc) < HolderWork(s.sess[h].pc)
  {
    match s.sess[h].pc {
      case Locked =>
        s' := if Known(s, h) then SetPc(s, h, Checked) else Drop(s, h, Rejected);
        assert Check(s, h, s');
      case Checked =>
        s' := SetPc(s.(receivers := s.receivers[h := ToSet(s.sess[h].want)]), h, Inserted);
        assert Insert(s, h, s');
      case Inserted =>
        s' := AfterPublish(s, h);
    }
    assert HandlerStep(s, h, s');
    assert SessionStep(s, h, s');
  }

  lemma AfterPublish(s: State, h: Id) returns (s': State)
    requires Reachable(s) && h in s.sess && s.sess[h].pc.Inserted?
    ensures Publish(s, h, s') && s'.tick == s.tick && h in s'.sess && s'.sess == s.sess[h := s'.sess[h]] && s'.sess[h].pc.Added?
  {
    ReachableGuards(s);
    forall x | x in s.sess ensures !s.sess[x].pc.Checked? {
      assert Holds(s, h);
      assert s.sess[x].pc.Checked? ==> Holds(s, x);
    }
    var ts := ToSet(s.sess[h].want);
    var joined := map t | t in ts :: if t in s.tick then NextRound(s.tick[t]) else 0;
    s' := s.(index := AddToIndex(s.index, ts, h), sess := s.sess[h := s.sess[h].(pc := Added, joined := joined)]);
  }

  /** Sessions that did not hold the mutex, and ticker threads that were not walking, are as before, but
  for quotes sent. */
  predicate Undisturbed(s: State, s': State) {
    && (forall x :: x in s.sess && !Holds(s, x) ==> x in s'.sess && SameBut(s.sess[x], s'.sess[x]))
    && s'.tick.Keys == s.tick.Keys && forall t :: t in s.tick && !s.tick[t].pc.Walking? ==> s'.tick[t] == s.tick[t]
  }

  lemma {:induction false} MutexFrees(s: State, h: Id) returns (s': State)
    requires Reachable(s) && ReceiversFree(s) && forall x :: Holds(s, x) ==> x == h
    ensures Leads(s, s') && Reachable(s') && ReceiversFree(s') && GeneratorFree(s') && s'.tick == s.tick
    ensures forall x :: x in s.sess && x != h ==> x in s'.sess && s'.sess[x] == s.sess[x]
    ensures !Holds(s, h) ==> s' == s
    decreases if h in s.sess then HolderWork(s.sess[h].pc) else 0
  {
    if Holds(s, h) {
      var m := HolderGoesOn(s, h);
      StillReachable(s, m);
      forall x | Holds(m, x) ensures x == h {
        assert x != h ==> Holds(s, x);
      }
      s' := MutexFrees(m, h);
      Before(s, m, s');
    } else {
      forall x | x in s.sess ensures !HoldsGenerator(s.sess[x].pc) {
        assert !Holds(s, x);
      }
      s' := s;
      Stays(s);
    }
  }

  /** Whatever locks are held, the other threads can be run until all are free. */
  lemma LocksFree(s: State) returns (s': State)
    requires Reachable(s)
    ensures Leads(s, s') && Reachable(s') && ReceiversFree(s') && GeneratorFree(s') && Undisturbed(s, s')
  {
    var m := WalksClose(s);
    ReachableGuards(m);
    var h: Id := if x: Id :| Holds(m, x) then x else 0;
    s' := MutexFrees(m, h);
    Chain(s, m, s');
    forall x | x in s.sess && !Holds(s, x) ensures x in s'.sess && SameBut(s.sess[x], s'.sess[x]) {
      assert SameBut(s.sess[x], m.sess[x]);
      assert !Holds(m, x);
    }
  }

  /** The lock that the next section of the thread takes, if it takes one, is free. */
  predicate Ready(s: State, pc: SessionPc) {
    match pc
    case Unlisted => GeneratorFree(s)
    case Removing(r) => RemoverEnabled(s, r)
    case _ => true
  }

  /** In every reachable state a flagged session whose thread has not ended can move, unless it is at
  a section whose lock another thread holds: the monitor that flagged it has ended, so the join does
  not wait. The move leaves every lock as it was. */
  lemma FlaggedCanMove(s: State, id: Id) returns (s': State)
    requires Reachable(s) && id in s.sess && s.sess[id].flagged && !Ended(s.sess[id].pc)
    requires Ready(s, s.sess[id].pc)
    ensures SessionStep(s, id, s') && MovesAt(s, s', id) && !s'.sess[id].pc.Dead?
    ensures s'.tick == s.tick && s'.sess == s.sess[id := s'.sess[id]] && !Holds(s', id)
  {
    ReachableGuards(s);
    match s.sess[id].pc
    case Receiving => s' := AfterReceive(s, id);
    case Leaving => s' := AfterUnlist(s, id);
    case Removing(_) => s' := AfterRemove(s, id);
    case _ => s' := AfterWait(s, id);
  }

  lemma AfterWait(s: State, id: Id) returns (s': State)
    requires id in s.sess && s.sess[id].flagged && !s.sess[id].watched && Ready(s, s.sess[id].pc)
    requires s.sess[id].pc.Looping? || s.sess[id].pc.Joining? || s.sess[id].pc.Unlisted?
    ensures SessionStep(s, id, s') && MovesAt(s, s', id)
    ensures s'.tick == s.tick && s'.sess == s.sess[id := s'.sess[id]]
    ensures s'.sess[id].pc.Joining? || s'.sess[id].pc.Leaving? || s'.sess[id].pc.Removing?
  {
    match s.sess[id].pc
    case Looping =>
      s' := SetPc(s, id, Joining);
      assert Test(s, id, s');
    case Joining =>
      s' := SetPc(s, id, Leaving);
      assert Join(s, id, s');
    case Unlisted =>
      s' := SetPc(s, id, Removing(Look(id)));
      assert Clone(s, id, s');
  }

  lemma AfterRemove(s: State, id: Id) returns (s': State)
    requires id in s.sess && s.sess[id].pc.Removing? && RemoverEnabled(s, s.sess[id].pc.r)
    ensures LeaveStep(s, id, s') && MovesAt(s, s', id)
    ensures s'.tick == s.tick && s'.sess == s.sess[id := s'.sess[id]] && (s'.sess[id].pc.Removing? || s'.sess[id].pc.Closed?)
  {
    var r := s.sess[id].pc.r;
    s' := if r.Unindex? then Drop(RemoverApply(s, r), id, Closed)
          else SetPc(RemoverApply(s, r), id, Removing(RemoverNext(s, r)));
    assert Remove(s, id, s');
  }

  lemma AfterReceive(s: State, id: Id) returns (s': State)
    requires id in s.sess && s.sess[id].pc.Receiving?
    ensures StreamStep(s, id, s') && MovesAt(s, s', id)
    ensures s'.tick == s.tick && s'.sess == s.sess[id := s'.sess[id]] && s'.sess[id].pc.Looping?
  {
    var c := s.sess[id];
    if c.queue == [] {
      s' := SetPc(s, id, Looping);
      assert Wait(s, id, s');
    } else {
      s' := s.(sess := s.sess[id := c.(pc := Looping, queue := c.queue[1..], taken := c.taken + [c.queue[0]])]);
      assert Take(s, id, s');
    }
  }

  lemma AfterUnlist(s: State, id: Id) returns (s': State)
    requires id in s.sess && s.sess[id].pc.Leaving?
    ensures LeaveStep(s, id, s') && MovesAt(s, s', id)
    ensures s'.tick == s.tick && s'.sess == s.sess[id := s'.sess[id]] && (s'.sess[id].pc.Unlisted? || s'.sess[id].pc.Closed?)
    ensures id in s.subscribers ==> s'.sess[id].pc.Unlisted? && s'.sess[id].flagged
  {
    if id in s.subscribers {
      s' := s.(subscribers := s.subscribers - {id},
               sess := s.sess[id := s.sess[id].(pc := Unlisted, flagged := true)]);
    } else {
      s' := Drop(s, id, Closed);
    }
    assert Unlist(s, id, s');
  }

  lemma {:induction false} FinishesFreely(s: State, id: Id) returns (s': State)
    requires Reachable(s) && id in s.sess && s.sess[id].flagged && !s.sess[id].pc.Dead?
    requires GeneratorFree(s) && ReceiversFree(s)
    ensures Leads(s, s') && Reachable(s') && id in s'.sess && s'.sess[id].pc.Closed?
    decreases MovesLeft(s.sess[id].pc)
  {
    ReachableGuards(s);
    if Ended(s.sess[id].pc) {
      s' := s;
      Stays(s);
    } else {
      var m := FreeMove(s, id);
      s' := FinishesFreely(m, id);
      Before(s, m, s');
    }
  }

  lemma StillFree(s: State, m: State, id: Id)
    requires GeneratorFree(s) && ReceiversFree(s)
    requires id in m.sess && m.sess == s.sess[id := m.sess[id]] && m.tick == s.tick && !Holds(m, id)
    ensures GeneratorFree(m) && ReceiversFree(m)
  {}

  lemma FreeMove(s: State, id: Id) returns (m: State)
    requires Reachable(s) && id in s.sess && s.sess[id].flagged && !Ended(s.sess[id].pc)
    requires GeneratorFree(s) && ReceiversFree(s)
    ensures Next(s, m) && Reachable(m) && id in m.sess && m.sess[id].flagged && !m.sess[id].pc.Dead?
    ensures GeneratorFree(m) && ReceiversFree(m) && MovesLeft(m.sess[id].pc) < MovesLeft(s.sess[id].pc)
  {
    m := FlaggedCanMove(s, id);
    StillFree(s, m, id);
    StillReachable(s, m);
    ReachableGuards(s);
    ReachableInv(s);
    FlaggedStep(s, m, id);
  }

  /** From every reachable state, whatever all threads are doing and whatever locks they hold, a
  flagged session whose thread is alive can be brought to its end: some run leads to a state in
  which start_streaming has returned and the id is in none of the three maps. */
  lemma FlaggedCanUnregister(s: State, id: Id)
    requires Reachable(s) && id in s.sess && s.sess[id].flagged && !s.sess[id].pc.Dead?
    ensures exists s' :: Leads(s, s') && id in s'.sess && s'.sess[id].pc.Closed? && Gone(s', id)
  {
    ReachableGuards(s);
    var m := LocksFree(s);
    assert SameBut(s.sess[id], m.sess[id]);
    var s' := FinishesFreely(m, id);
    Chain(s, m, s');
    ClosedIsGone(s', id);
  }

  /** A running monitor can give its verdict at any moment, and that sets the flag. */
  lemma MonitorCanFlag(s: State, id: Id) returns (s': State)
    requires id in s.sess && s.sess[id].watched
    ensures Next(s, s') && id in s'.sess && s'.sess[id].flagged && !s'.sess[id].watched && s'.sess[id].pc == s.sess[id].pc
  {
    s' := s.(sess := s.sess[id := s.sess[id].(flagged := true, watched := false)]);
    assert Flag(s, id, s') && LeaveStep(s, id, s') && SessionStep(s, id, s');
  }

  /** From every reachable state in which a session is in its loop, a run leads through the verdict of
  its monitor, if that still runs, to its end: the client can always be found dead and unregistered. */
  lemma VerdictCanUnregister(s: State, id: Id)
    requires Reachable(s) && id in s.sess && InLoop(s.sess[id].pc)
    ensures exists s' :: Leads(s, s') && id in s'.sess && s'.sess[id].pc.Closed? && Gone(s', id)
  {
    ReachableGuards(s);
    if s.sess[id].flagged {
      FlaggedCanUnregister(s, id);
    } else {
      var m := MonitorCanFlag(s, id);
      StillReachable(s, m);
      FlaggedCanUnregister(m, id);
      var s' :| Leads(m, s') && id in s'.sess && s'.sess[id].pc.Closed? && Gone(s', id);
      Before(s, m, s');
    }
  }

  // ----- infinite runs -----

  ghost predicate Forever(b: nat -> State) {
    Init(b(0)) && forall i: nat :: NextAt(b, i)
  }

  ghost predicate NextAt(b: nat -> State, i: nat) {
    Next(b(i), b(i + 1))
  }

  /** The thread of a flagged session is not left unmoved for ever while it has not ended. */
  ghost predicate NotStuck(b: nat -> State, id: Id) {
    forall i: nat :: MovesOn(b, i, id)
  }

  ghost predicate MovesOn(b: nat -> State, i: nat, id: Id) {
    Unfinished(b(i), id) ==> exists k: nat :: i <= k && MovesIn(b, k, id)
  }

  /** The thread moves with the step from state `k`. */
  predicate MovesIn(b: nat -> State, k: nat, id: Id) {
    MovesAt(b(k), b(k + 1), id)
  }

  predicate Unfinished(s: State, id: Id) {
    id in s.sess && s.sess[id].flagged && !Ended(s.sess[id].pc)
  }

  lemma {:induction false} ForeverReachable(b: nat -> State, i: nat)
    requires Forever(b)
    ensures Reachable(b(i))
  {
    if i == 0 {
      assert Run([b(0)]);
    } else {
      ForeverReachable(b, i - 1);
      assert NextAt(b, i - 1);
      StillReachable(b(i - 1), b(i));
    }
  }

  lemma ForeverStep(b: nat -> State, k: nat, id: Id)
    requires Forever(b) && id in b(k).sess && b(k).sess[id].flagged
    ensures id in b(k + 1).sess && b(k + 1).sess[id].flagged
    ensures MovesLeft(b(k + 1).sess[id].pc) <= MovesLeft(b(k).sess[id].pc)
    ensures MovesAt(b(k), b(k + 1), id) ==> MovesLeft(b(k + 1).sess[id].pc) < MovesLeft(b(k).sess[id].pc)
  {
    ForeverReachable(b, k);
    ReachableGuards(b(k));
    ReachableInv(b(k));
    assert NextAt(b, k);
    FlaggedStep(b(k), b(k + 1), id);
  }

  lemma {:induction false} ForeverFlagged(b: nat -> State, i: nat, k: nat, id: Id)
    requires Forever(b) && i <= k && id in b(i).sess && b(i).sess[id].flagged
    ensures id in b(k).sess && b(k).sess[id].flagged && MovesLeft(b(k).sess[id].pc) <= MovesLeft(b(i).sess[id].pc)
    decreases k - i
  {
    if i < k {
      ForeverFlagged(b, i, k - 1, id);
      ForeverStep(b, k - 1, id);
    }
  }

  lemma {:induction false} EndsEventually(b: nat -> State, i: nat, id: Id) returns (j: nat)
    requires Forever(b) && NotStuck(b, id) && id in b(i).sess && b(i).sess[id].flagged
    ensures i <= j && id in b(j).sess && Ended(b(j).sess[id].pc)
    decreases MovesLeft(b(i).sess[id].pc)
  {
    if Ended(b(i).sess[id].pc) {
      j := i;
    } else {
      var k := NextMove(b, i, id);
      j := EndsEventually(b, k, id);
    }
  }

  lemma NextMove(b: nat -> State, i: nat, id: Id) returns (k: nat)
    requires Forever(b) && NotStuck(b, id) && id in b(i).sess && b(i).sess[id].flagged && !Ended(b(i).sess[id].pc)
    ensures i < k && id in b(k).sess && b(k).sess[id].flagged
    ensures MovesLeft(b(k).sess[id].pc) < MovesLeft(b(i).sess[id].pc)
  {
    assert MovesOn(b, i, id) && Unfinished(b(i), id);
    var m: nat :| i <= m && MovesIn(b, m, id);
    MoveCounts(b, i, m, id);
    k := m + 1;
  }

  lemma MoveCounts(b: nat -> State, i: nat, k: nat, id: Id)
    requires Forever(b) && i <= k && id in b(i).sess && b(i).sess[id].flagged && MovesAt(b(k), b(k + 1), id)
    ensures id in b(k + 1).sess && b(k + 1).sess[id].flagged
    ensures MovesLeft(b(k + 1).sess[id].pc) < MovesLeft(b(i).sess[id].pc)
  {
    ForeverFlagged(b, i, k, id);
    ForeverStep(b, k, id);
  }

  /** In every infinite run in which its thread is not left unmoved for ever, a flagged session ends,
  and from then on it is in none of the three maps unless its thread died. */
  lemma FlaggedUnregisters(b: nat -> State, i: nat, id: Id)
    requires Forever(b) && NotStuck(b, id) && id in b(i).sess && b(i).sess[id].flagged
    ensures exists j: nat :: i <= j && SettledFrom(b, j, id)
  {
    var j := EndsEventually(b, i, id);
    forall k: nat | j <= k ensures Settled(b(k), id) {
      EndLasts(b, j, k, id);
      ForeverFlagged(b, i, k, id);
      ForeverReachable(b, k);
      ReachableGuards(b(k));
      ClosedIsGone(b(k), id);
    }
    assert SettledFrom(b, j, id);
  }

  /** The monitor of `id` ends with the step to state `i + 1`. */
  predicate MonitorEnds(b: nat -> State, i: nat, id: Id) {
    && id in b(i).sess && b(i).sess[id].watched
    && id in b(i + 1).sess && !b(i + 1).sess[id].watched
  }

  /** The verdict is enough: in every infinite run in which the monitor of a session ends and its
  thread is not left unmoved for ever, the session ends, and from then on it is in none of the
  three maps unless its thread died. */
  lemma VerdictUnregisters(b: nat -> State, i: nat, id: Id)
    requires Forever(b) && NotStuck(b, id) && MonitorEnds(b, i, id)
    ensures exists j: nat :: i <= j && SettledFrom(b, j, id)
  {
    ForeverReachable(b, i);
    ForeverReachable(b, i + 1);
    ReachableGuards(b(i));
    ReachableGuards(b(i + 1));
    assert NextAt(b, i);
    MonitorEndsInLoop(b(i), b(i + 1), id);
    FlaggedUnregisters(b, i + 1, id);
    var j: nat :| i + 1 <= j && SettledFrom(b, j, id);
    assert i <= j && SettledFrom(b, j, id);
  }

  /** A monitor ends only by its verdict. */
  lemma MonitorEndsInLoop(s: State, s': State, id: Id)
    requires Reachable(s) && Next(s, s') && id in s.sess && id in s'.sess && s.sess[id].watched && !s'.sess[id].watched
    ensures s'.sess[id].flagged
  {
    ReachableInv(s);
    ReachableGuards(s);
    if x :| SessionStep(s, x, s') {
      SessionShape(s, x, s');
      if x == id {
        WatchedOwn(s, id, s');
      }
    } else if t :| TickStep(s, t, s') {
      FlaggedTick(s, t, s', id);
    }
  }

  lemma WatchedOwn(s: State, id: Id, s': State)
    requires id in s.sess && SessionOk(s, id) && SessionStep(s, id, s') && s.sess[id].watched
    requires InLoop(s.sess[id].pc) || s.sess[id].pc.Dead?
    requires id in s'.sess && !s'.sess[id].watched
    ensures s'.sess[id].flagged
  {
    if !Flag(s, id, s') {
      WatchedStays(s, id, s');
    }
  }

  lemma WatchedStays(s: State, id: Id, s': State)
    requires id in s.sess && SessionOk(s, id) && SessionStep(s, id, s') && s.sess[id].watched && !Flag(s, id, s')
    requires InLoop(s.sess[id].pc) || s.sess[id].pc.Dead?
    ensures id in s'.sess && s'.sess[id].watched
  {
    if s.sess[id].pc.Dead? {
      EndedOnlyFlags(s, id, s');
    } else {
      NoDisconnect(s, id, s');
      LoopSteps(s, id, s');
    }
  }

  lemma EndedOnlyFlags(s: State, id: Id, s': State)
    requires id in s.sess && s.sess[id].pc.Dead? && SessionStep(s, id, s')
    ensures Flag(s, id, s')
  {}

  lemma LoopSteps(s: State, id: Id, s': State)
    requires id in s.sess && InLoop(s.sess[id].pc) && s.sess[id].watched && SessionStep(s, id, s')
    requires !Flag(s, id, s') && !Disconnect(s, id, s')
    ensures id in s'.sess && s'.sess[id].watched
  {
    assert !HandlerStep(s, id, s');
    assert !Unlist(s, id, s') && !Clone(s, id, s') && !Remove(s, id, s') && !Join(s, id, s');
    assert Test(s, id, s') || Take(s, id, s') || Wait(s, id, s') || Die(s, id, s');
  }

  ghost predicate SettledFrom(b: nat -> State, j: nat, id: Id) {
    forall k: nat :: j <= k ==> Settled(b(k), id)
  }

  /** The thread has returned and the id is in none of the three maps, or the thread is dead. */
  ghost predicate Settled(s: State, id: Id) {
    id in s.sess && ((s.sess[id].pc.Closed? && Gone(s, id)) || s.sess[id].pc.Dead?)
  }

  lemma {:induction false} EndLasts(b: nat -> State, j: nat, k: nat, id: Id)
    requires Forever(b) && j <= k && id in b(j).sess && Ended(b(j).sess[id].pc)
    ensures id in b(k).sess && Ended(b(k).sess[id].pc)
    decreases k - j
  {
    if j < k {
      EndLasts(b, j, k - 1, id);
      ForeverShape(b, k - 1);
    }
  }

  lemma ForeverShape(b: nat -> State, k: nat)
    requires Forever(b)
    ensures Shape(b(k), b(k + 1))
  {
    ForeverReachable(b, k);
    ReachableInv(b(k));
    assert NextAt(b, k);
    StepShape(b(k), b(k + 1));
  }
}
