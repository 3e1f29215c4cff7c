/** What can always go on: quotes are taken, requests are served, rounds are completed. */
module Progress {
  import opened Registry
  import opened Machine
  import opened Lifecycle
  import opened Delivery
  import opened Unregister
  import Prices

  // ----- an initial state exists -----

  /** The server can be started with any tickers at any start prices in range. */
  lemma CanStart(prices: map<Ticker, real>) returns (s: State)
    requires forall t :: t in prices ==> 0.01 <= prices[t] < 100.0
    ensures Init(s) && Reachable(s) && s.prices == prices
  {
    s := State(0, prices, map[], map t | t in prices :: {}, {}, map[], map t | t in prices :: Tick(Idle, prices[t], []));
    assert Run([s]);
  }

  // ----- a streaming thread takes its quotes -----

  /** One move of the streaming thread of `id`. */
  ghost predicate StreamAt(b: seq<State>, i: nat, id: Id)
    requires i < |b| - 1
  {
    StreamStep(b[i], id, b[i + 1])
  }

  /** A run of `id`'s streaming thread alone. */
  ghost predicate OwnRun(b: seq<State>, id: Id) {
    Run(b) && forall i :: 0 <= i < |b| - 1 ==> StreamAt(b, i, id)
  }

  lemma TakesNow(s: State, id: Id) returns (s': State)
    requires id in s.sess && s.sess[id].pc.Receiving? && s.sess[id].queue != []
    ensures StreamStep(s, id, s') && Next(s, s') && id in s'.sess && s'.sess[id].pc.Looping?
    ensures s'.sess[id].taken == s.sess[id].taken + [s.sess[id].queue[0]] && s'.sess[id].queue == s.sess[id].queue[1..]
    ensures s'.sess[id].flagged == s.sess[id].flagged
  {
    var c := s.sess[id];
    s' := s.(sess := s.sess[id := c.(pc := Looping, queue := c.queue[1..], taken := c.taken + [c.queue[0]])]);
    assert Take(s, id, s') && StreamStep(s, id, s') && SessionStep(s, id, s');
  }

  lemma WaitsNow(s: State, id: Id) returns (s': State)
    requires id in s.sess && s.sess[id].pc.Looping? && !s.sess[id].flagged
    ensures StreamStep(s, id, s') && Next(s, s') && id in s'.sess && s'.sess[id] == s.sess[id].(pc := Receiving)
  {
    s' := SetPc(s, id, Receiving);
    assert Test(s, id, s') && StreamStep(s, id, s') && SessionStep(s, id, s');
  }

  lemma OneMove(s: State, s': State, id: Id)
    requires StreamStep(s, id, s') && Next(s, s')
    ensures OwnRun([s, s'], id)
  {
    var b := [s, s'];
    assert StepAt(b, 0) && StreamAt(b, 0, id);
  }

  lemma TwoMoves(s: State, m: State, s': State, id: Id)
    requires StreamStep(s, id, m) && Next(s, m) && StreamStep(m, id, s') && Next(m, s')
    ensures OwnRun([s, m, s'], id)
  {
    var b := [s, m, s'];
    assert StepAt(b, 0) && StreamAt(b, 0, id);
    assert StepAt(b, 1) && StreamAt(b, 1, id);
  }

  /** In every state, reachable or not, in which an unflagged session is in its loop and a quote waits
  in its channel, at most two moves of its own thread take the quote at the head. */
  lemma CanTake(s: State, id: Id) returns (b: seq<State>)
    requires id in s.sess && (s.sess[id].pc.Looping? || s.sess[id].pc.Receiving?)
    requires !s.sess[id].flagged && s.sess[id].queue != []
    ensures OwnRun(b, id) && |b| <= 3 && b[0] == s && id in b[|b| - 1].sess
    ensures b[|b| - 1].sess[id].taken == s.sess[id].taken + [s.sess[id].queue[0]]
    ensures b[|b| - 1].sess[id].queue == s.sess[id].queue[1..]
  {
    if s.sess[id].pc.Receiving? {
      var s' := TakesNow(s, id);
      b := [s, s'];
      OneMove(s, s', id);
    } else {
      var m := WaitsNow(s, id);
      var s' := TakesNow(m, id);
      b := [s, m, s'];
      TwoMoves(s, m, s', id);
    }
  }

  // ----- and takes all of them, in every infinite run -----

  /** From state `i` on the thread streams: its flag is never set, it does not die, and it is never left
  unmoved for ever. */
  ghost predicate Streams(b: nat -> State, i: nat, id: Id) {
    forall k: nat :: i <= k ==> StreamsAt(b, k, id)
  }

  ghost predicate StreamsAt(b: nat -> State, k: nat, id: Id) {
    Streaming(b(k), id) && exists l: nat :: k <= l && MovesIn(b, l, id)
  }

  predicate Streaming(s: State, id: Id) {
    id in s.sess && !s.sess[id].flagged && !s.sess[id].pc.Dead?
  }

  predicate Waiting(pc: SessionPc) {
    pc.Looping? || pc.Receiving?
  }

  /** What a step of a run does to a streaming session. */
  ghost predicate Follows(c: Session, d: Session) {
    && Waiting(d.pc) && c.enq <= d.enq && c.taken <= d.taken
    && (d.pc == c.pc ==> d.taken == c.taken)
    && (d.pc != c.pc && c.pc.Looping? ==> d.taken == c.taken)
    && (d.pc != c.pc && c.pc.Receiving? && |c.taken| < |c.enq| ==> |d.taken| > |c.taken|)
  }

  lemma OwnFollows(s: State, id: Id, s': State)
    requires id in s.sess && SessionOk(s, id) && Waiting(s.sess[id].pc) && SessionStep(s, id, s')
    requires Streaming(s, id) && Streaming(s', id)
    ensures Follows(s.sess[id], s'.sess[id])
  {
    NoDisconnect(s, id, s');
    assert !HandlerStep(s, id, s');
    if Test(s, id, s') || Wait(s, id, s') {
      TestFollows(s, id, s');
    } else if Take(s, id, s') {
      TakeFollows(s, id, s');
    }
  }

  lemma TestFollows(s: State, id: Id, s': State)
    requires id in s.sess && SessionOk(s, id) && Streaming(s, id) && (Test(s, id, s') || Wait(s, id, s'))
    ensures id in s'.sess && Follows(s.sess[id], s'.sess[id])
  {}

  lemma TakeFollows(s: State, id: Id, s': State)
    requires id in s.sess && Take(s, id, s')
    ensures id in s'.sess && Follows(s.sess[id], s'.sess[id])
  {}

  lemma StepFollows(s: State, s': State, id: Id)
    requires Reachable(s) && Next(s, s') && Streaming(s, id) && Streaming(s', id) && Waiting(s.sess[id].pc)
    ensures Follows(s.sess[id], s'.sess[id])
  {
    ReachableInv(s);
    if want :| Arrive(s, want, s') {
      assert s.nextId !in s.sess;
    } else if x :| SessionStep(s, x, s') {
      SessionShape(s, x, s');
      if x == id {
        OwnFollows(s, id, s');
      }
    } else {
      var t :| TickStep(s, t, s');
      TickFollows(s, t, s', id);
    }
  }

  lemma TickFollows(s: State, t: Ticker, s': State, id: Id)
    requires Inv(s) && TickStep(s, t, s') && id in s.sess && Waiting(s.sess[id].pc)
    ensures id in s'.sess && Follows(s.sess[id], s'.sess[id])
  {
    if v :| Visit(s, t, v, s') {
      VisitEffect(s, t, v, s');
    } else {
      SilentTick(s, t, s');
    }
  }

  lemma SilentTick(s: State, t: Ticker, s': State)
    requires Inv(s) && TickStep(s, t, s') && forall v :: !Visit(s, t, v, s')
    ensures s'.sess == s.sess
  {
    if Sweep(s, t, s') {
      SweepFrame(s, t, s');
    } else {
      QuietShape(s, t, s');
    }
  }

  /** A session in its loop at state `k`. */
  ghost predicate InStream(b: nat -> State, k: nat, id: Id) {
    Streaming(b(k), id) && Waiting(b(k).sess[id].pc)
  }

  lemma FollowsAt(b: nat -> State, k: nat, id: Id)
    requires Forever(b) && InStream(b, k, id) && Streaming(b(k + 1), id)
    ensures Follows(b(k).sess[id], b(k + 1).sess[id]) && InStream(b, k + 1, id)
  {
    ForeverReachable(b, k);
    assert NextAt(b, k);
    StepFollows(b(k), b(k + 1), id);
  }

  function Phase(pc: SessionPc): nat {
    if pc.Looping? then 1 else 0
  }

  lemma {:induction false} StaysInStream(b: nat -> State, i: nat, k: nat, id: Id)
    requires Forever(b) && Streams(b, i, id) && InStream(b, i, id) && i <= k
    ensures InStream(b, k, id) && b(i).sess[id].enq <= b(k).sess[id].enq
    decreases k - i
  {
    if i < k {
      StaysInStream(b, i, k - 1, id);
      assert StreamsAt(b, k, id);
      FollowsAt(b, k - 1, id);
    }
  }

  /** A count that never falls, and below `n` rises with every second move at the latest. */
  predicate Climbs(got: nat -> nat, phase: nat -> nat, moves: nat -> bool, n: nat, k: nat) {
    && got(k) <= got(k + 1)
    && (!moves(k) ==> phase(k + 1) == phase(k))
    && (moves(k) && got(k) < n ==> got(k) < got(k + 1) || phase(k + 1) < phase(k))
  }

  ghost predicate MovesAgain(moves: nat -> bool, k: nat) {
    exists l: nat :: k <= l && moves(l)
  }

  /** Such a count arrives, if the moves go on. */
  lemma {:induction false} Arrives(got: nat -> nat, phase: nat -> nat, moves: nat -> bool, n: nat, i: nat, l: nat) returns (j: nat)
    requires forall k: nat :: i <= k ==> Climbs(got, phase, moves, n, k) && MovesAgain(moves, k)
    requires i <= l && moves(l)
    ensures i <= j && got(j) >= n
    decreases if got(i) < n then n - got(i) else 0, phase(i), l - i
  {
    if got(i) >= n {
      j := i;
    } else {
      assert Climbs(got, phase, moves, n, i);
      var l' := l;
      if moves(i) {
        assert MovesAgain(moves, i + 1);
        l' :| i + 1 <= l' && moves(l');
      }
      j := Arrives(got, phase, moves, n, i + 1, l');
    }
  }

  /** The count of quotes taken climbs up to the number sent by state `i`. */
  lemma TakingClimbs(b: nat -> State, i: nat, k: nat, id: Id)
    requires Forever(b) && Streams(b, i, id) && InStream(b, i, id) && i <= k
    ensures InStream(b, k, id) && InStream(b, k + 1, id)
    ensures var (c, d, n) := (b(k).sess[id], b(k + 1).sess[id], |b(i).sess[id].enq|);
            && |c.taken| <= |d.taken|
            && (!MovesIn(b, k, id) ==> Phase(d.pc) == Phase(c.pc))
            && (MovesIn(b, k, id) && |c.taken| < n ==> |c.taken| < |d.taken| || Phase(d.pc) < Phase(c.pc))
  {
    StaysInStream(b, i, k, id);
    assert StreamsAt(b, k + 1, id);
    FollowsAt(b, k, id);
  }

  function Got(b: nat -> State, id: Id): nat -> nat {
    (k: nat) => if id in b(k).sess then |b(k).sess[id].taken| else 0
  }

  function Phases(b: nat -> State, id: Id): nat -> nat {
    (k: nat) => if id in b(k).sess then Phase(b(k).sess[id].pc) else 0
  }

  function MovesOf(b: nat -> State, id: Id): nat -> bool {
    (k: nat) => MovesIn(b, k, id)
  }

  lemma ClimbsAt(b: nat -> State, i: nat, k: nat, n: nat, id: Id)
    requires Forever(b) && Streams(b, i, id) && InStream(b, i, id) && i <= k && n == |b(i).sess[id].enq|
    ensures Climbs(Got(b, id), Phases(b, id), MovesOf(b, id), n, k)
  {
    TakingClimbs(b, i, k, id);
  }

  lemma AgainAt(b: nat -> State, i: nat, k: nat, id: Id)
    requires Streams(b, i, id) && i <= k
    ensures MovesAgain(MovesOf(b, id), k)
  {
    assert StreamsAt(b, k, id);
    var l: nat :| k <= l && MovesIn(b, l, id);
    assert MovesOf(b, id)(l);
  }

  lemma CountArrives(b: nat -> State, i: nat, n: nat, id: Id) returns (j: nat)
    requires Forever(b) && Streams(b, i, id) && InStream(b, i, id) && n == |b(i).sess[id].enq|
    ensures i <= j && Got(b, id)(j) >= n
  {
    forall k: nat | i <= k ensures Climbs(Got(b, id), Phases(b, id), MovesOf(b, id), n, k) && MovesAgain(MovesOf(b, id), k) {
      ClimbsAt(b, i, k, n, id);
      AgainAt(b, i, k, id);
    }
    assert MovesAgain(MovesOf(b, id), i);
    var l: nat :| i <= l && MovesOf(b, id)(l);
    j := Arrives(Got(b, id), Phases(b, id), MovesOf(b, id), n, i, l);
  }

  /** No quote waits for ever: in every infinite run, all that was sent to a streaming session up to
  some moment has at some later moment been taken, in order. */
  lemma EventuallyTaken(b: nat -> State, i: nat, id: Id)
    requires Forever(b) && Streams(b, i, id) && InStream(b, i, id)
    ensures exists j: nat :: i <= j && TakenAt(b, j, id, b(i).sess[id].enq)
  {
    var j := CountArrives(b, i, |b(i).sess[id].enq|, id);
    AllTaken(b, i, j, id);
  }

  ghost predicate TakenAt(b: nat -> State, j: nat, id: Id, sent: seq<Quote>) {
    id in b(j).sess && sent <= b(j).sess[id].taken
  }

  lemma AllTaken(b: nat -> State, i: nat, j: nat, id: Id)
    requires Forever(b) && Streams(b, i, id) && InStream(b, i, id) && i <= j
    requires Got(b, id)(j) >= |b(i).sess[id].enq|
    ensures TakenAt(b, j, id, b(i).sess[id].enq)
  {
    StaysInStream(b, i, j, id);
    ForeverReachable(b, j);
    ReachableSession(b(j), id);
    TakenCovers(b(j).sess[id], b(i).sess[id].enq);
  }

  lemma TakenCovers(c: Session, sent: seq<Quote>)
    requires sent <= c.enq && |sent| <= |c.taken|
    requires (if c.open then c.taken + c.queue == c.enq else c.taken <= c.enq)
    ensures sent <= c.taken
  {}
}
