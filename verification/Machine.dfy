/** The server as a step machine: one atomic step per critical section.

A session is one subscriber: the request handler that adds it and, once spawned, its streaming
thread. A tick is one ticker thread. Both may walk the three sections of `remove_receiver`.
Sections that nest or stay open across several steps keep their lock in the program counter:
the generator mutex is held in Locked, Checked and Inserted, a read guard on the index in
Checked, a read guard on the receivers in Walking. Every other section is opened and closed
within its step. The numbers of sessions and of ticks are not bounded. */
module Machine {
  import opened Registry
  import Prices

  datatype SessionPc =
    | Arrived                      // id taken from the counter, channel created
    | Locked                       // generator mutex held
    | Checked                      // all tickers known; mutex and index read guard held
    | Inserted                     // in `receivers`; mutex held
    | Rejected                     // add_receiver failed; both channel ends dropped
    | Added                        // add_receiver returned Ok
    | Listed                       // in `subscribers`, streaming thread spawned
    | Looping                      // streaming: about to test the shutdown flag
    | Receiving                    // streaming: waiting on the channel
    | Joining                      // loop left, waiting for the monitor thread
    | Leaving                      // about to call remove_subscriber
    | Unlisted                     // out of `subscribers`, about to lock the generator
    | Removing(r: Remover)
    | Closed                       // start_streaming returned, receiving end dropped
    | Dead                         // streaming thread died, receiving end dropped

  /** `open`: the receiving end exists. `enq`, `taken` and `joined` record the history:
  all quotes sent successfully, all quotes received from the channel, and for each ticker the
  number of the first quote whose index snapshot came after this session was indexed. */
  datatype Session = Session(
    pc: SessionPc, want: seq<Ticker>, open: bool, queue: seq<Quote>, flagged: bool, watched: bool,
    enq: seq<Quote>, taken: seq<Quote>, joined: map<Ticker, nat>)

  datatype TickPc =
    | Idle
    | Priced(price: real)          // new price drawn, not yet stored
    | Stored(q: Quote)             // price stored, quote built
    | Snapped(q: Quote, snap: set<Id>)
    | Walking(q: Quote, snap: set<Id>, left: set<Id>, sent: set<Id>, dead: set<Id>)
    | Cleaning(todo: set<Id>)
    | Purging(r: Remover, todo: set<Id>)

  /** `first` is the random start price, `made` all quotes of this ticker so far. */
  datatype Tick = Tick(pc: TickPc, first: real, made: seq<Quote>)

  datatype State = State(
    nextId: nat,
    prices: map<Ticker, real>,
    receivers: map<Id, set<Ticker>>,
    index: map<Ticker, set<Id>>,
    subscribers: set<Id>,
    sess: map<Id, Session>,
    tick: map<Ticker, Tick>)

  // ----- locks held across steps -----

  predicate HoldsGenerator(pc: SessionPc) {
    pc.Locked? || pc.Checked? || pc.Inserted?
  }

  /** The generator mutex is free. */
  predicate GeneratorFree(s: State) {
    forall x :: x in s.sess ==> !HoldsGenerator(s.sess[x].pc)
  }

  /** No read guard on the index is open, so it can be locked for writing. */
  predicate IndexFree(s: State) {
    forall x :: x in s.sess ==> !s.sess[x].pc.Checked?
  }

  /** No read guard on the receivers is open, so they can be locked for writing. */
  predicate ReceiversFree(s: State) {
    forall t :: t in s.tick ==> !s.tick[t].pc.Walking?
  }

  // ----- the sections of remove_receiver -----

  predicate RemoverEnabled(s: State, r: Remover) {
    match r
    case Look(_) => true
    case Unmap(_, _) => ReceiversFree(s)
    case Unindex(_, _) => IndexFree(s)
  }

  function Subscribed(s: State, id: Id): set<Ticker> {
    if id in s.receivers then s.receivers[id] else {}
  }

  function RemoverApply(s: State, r: Remover): State {
    match r
    case Look(_) => s
    case Unmap(id, _) => s.(receivers := s.receivers - {id})
    case Unindex(id, ts) => s.(index := DropFromIndex(s.index, ts, id))
  }

  /** The section that follows; Unindex is the last one. */
  function RemoverNext(s: State, r: Remover): Remover
    requires !r.Unindex?
  {
    match r
    case Look(id) => Unmap(id, Subscribed(s, id))
    case Unmap(id, ts) => Unindex(id, ts)
  }

  // ----- small updates -----

  function SetPc(s: State, id: Id, pc: SessionPc): State
    requires id in s.sess
  {
    s.(sess := s.sess[id := s.sess[id].(pc := pc)])
  }

  /** The session ends and its receiving end is dropped with everything still queued. */
  function Drop(s: State, id: Id, pc: SessionPc): State
    requires id in s.sess
  {
    s.(sess := s.sess[id := s.sess[id].(pc := pc, open := false, queue := [])])
  }

  function SetTick(s: State, t: Ticker, pc: TickPc): State
    requires t in s.tick
  {
    s.(tick := s.tick[t := s.tick[t].(pc := pc)])
  }

  // ----- the request handler: add_subscriber and add_receiver -----

  predicate Arrive(s: State, want: seq<Ticker>, s': State) {
    s' == s.(nextId := s.nextId + 1,
             sess := s.sess[s.nextId := Session(Arrived, want, true, [], false, false, [], [], map[])])
  }

  predicate Lock(s: State, id: Id, s': State) {
    && id in s.sess && s.sess[id].pc.Arrived? && GeneratorFree(s)
    && s' == SetPc(s, id, Locked)
  }

  predicate Known(s: State, id: Id)
    requires id in s.sess
  {
    forall t :: t in s.sess[id].want ==> t in s.index
  }

  predicate Check(s: State, id: Id, s': State) {
    && id in s.sess && s.sess[id].pc.Locked?
    && if Known(s, id) then s' == SetPc(s, id, Checked) else s' == Drop(s, id, Rejected)
  }

  predicate Insert(s: State, id: Id, s': State) {
    && id in s.sess && s.sess[id].pc.Checked? && ReceiversFree(s)
    && s' == SetPc(s.(receivers := s.receivers[id := ToSet(s.sess[id].want)]), id, Inserted)
  }

  /** The number of the next quote whose index snapshot is still to come. */
  function NextRound(k: Tick): nat {
    if k.pc.Stored? && |k.made| > 0 then |k.made| - 1 else |k.made|
  }

  /** The last section of add_receiver: the id enters the set of each of its tickers. */
  predicate Publish(s: State, id: Id, s': State) {
    && id in s.sess && s.sess[id].pc.Inserted? && IndexFree(s)
    && var ts := ToSet(s.sess[id].want);
       var joined := map t | t in ts :: if t in s.tick then NextRound(s.tick[t]) else 0;
       s' == s.(index := AddToIndex(s.index, ts, id),
                sess := s.sess[id := s.sess[id].(pc := Added, joined := joined)])
  }

  predicate List(s: State, id: Id, s': State) {
    && id in s.sess && s.sess[id].pc.Added?
    && s' == SetPc(s.(subscribers := s.subscribers + {id}), id, Listed)
  }

  // ----- the streaming thread: start_streaming and remove_subscriber -----

  predicate Bind(s: State, id: Id, ok: bool, s': State) {
    && id in s.sess && s.sess[id].pc.Listed?
    && if ok then s' == s.(sess := s.sess[id := s.sess[id].(pc := Looping, watched := true)])
       else s' == SetPc(s, id, Leaving)
  }

  predicate Test(s: State, id: Id, s': State) {
    && id in s.sess && s.sess[id].pc.Looping?
    && s' == SetPc(s, id, if s.sess[id].flagged then Joining else Receiving)
  }

  predicate Take(s: State, id: Id, s': State) {
    && id in s.sess && s.sess[id].pc.Receiving? && s.sess[id].queue != []
    && var c := s.sess[id];
       s' == s.(sess := s.sess[id := c.(pc := Looping, queue := c.queue[1..], taken := c.taken + [c.queue[0]])])
  }

  predicate Wait(s: State, id: Id, s': State) {
    && id in s.sess && s.sess[id].pc.Receiving? && s.sess[id].queue == []
    && s' == SetPc(s, id, Looping)
  }

  /** The channel is empty and its sending end, owned by the receiver entry, is gone. */
  predicate Disconnect(s: State, id: Id, s': State) {
    && id in s.sess && s.sess[id].pc.Receiving? && s.sess[id].queue == [] && id !in s.receivers
    && s' == s.(sess := s.sess[id := s.sess[id].(pc := Joining, flagged := true)])
  }

  /** The monitor thread declares the client dead and ends. */
  predicate Flag(s: State, id: Id, s': State) {
    && id in s.sess && s.sess[id].watched
    && s' == s.(sess := s.sess[id := s.sess[id].(flagged := true, watched := false)])
  }

  predicate Join(s: State, id: Id, s': State) {
    && id in s.sess && s.sess[id].pc.Joining? && !s.sess[id].watched
    && s' == SetPc(s, id, Leaving)
  }

  predicate Unlist(s: State, id: Id, s': State) {
    && id in s.sess && s.sess[id].pc.Leaving?
    && if id in s.subscribers then
         s' == s.(subscribers := s.subscribers - {id},
                  sess := s.sess[id := s.sess[id].(pc := Unlisted, flagged := true)])
       else s' == Drop(s, id, Closed)
  }

  predicate Clone(s: State, id: Id, s': State) {
    && id in s.sess && s.sess[id].pc.Unlisted? && GeneratorFree(s)
    && s' == SetPc(s, id, Removing(Look(id)))
  }

  predicate Remove(s: State, id: Id, s': State) {
    && id in s.sess && s.sess[id].pc.Removing? && RemoverEnabled(s, s.sess[id].pc.r)
    && var r := s.sess[id].pc.r;
       if r.Unindex? then s' == Drop(RemoverApply(s, r), id, Closed)
       else s' == SetPc(RemoverApply(s, r), id, Removing(RemoverNext(s, r)))
  }

  predicate MayDie(pc: SessionPc) {
    pc.Listed? || pc.Looping? || pc.Receiving? || pc.Joining? || pc.Leaving? || pc.Unlisted?
  }

  /** The streaming thread dies before it starts to unregister. */
  predicate Die(s: State, id: Id, s': State) {
    && id in s.sess
    && MayDie(s.sess[id].pc)
    && s' == Drop(s, id, Dead)
  }

  // ----- the ticker thread: start_for_quote -----

  predicate Price(s: State, t: Ticker, change: real, s': State) {
    && t in s.tick && t in s.prices && s.tick[t].pc.Idle? && Prices.ChangeOk(change)
    && s' == SetTick(s, t, Priced(Prices.NewPrice(s.prices[t], change)))
  }

  predicate VolumeOk(t: Ticker, volume: nat) {
    if t in ["AAPL", "MSFT", "TSLA"] then 1000 <= volume < 6000 else 100 <= volume < 1100
  }

  predicate Store(s: State, t: Ticker, volume: nat, now: nat, s': State) {
    && t in s.tick && t in s.prices && s.tick[t].pc.Priced? && VolumeOk(t, volume)
    && var q := Quote(t, s.tick[t].pc.price, volume, now);
       s' == s.(prices := s.prices[t := q.price],
                tick := s.tick[t := s.tick[t].(pc := Stored(q), made := s.tick[t].made + [q])])
  }

  predicate Snap(s: State, t: Ticker, s': State) {
    && t in s.tick && s.tick[t].pc.Stored?
    && s' == SetTick(s, t, Snapped(s.tick[t].pc.q, if t in s.index then s.index[t] else {}))
  }

  predicate Open(s: State, t: Ticker, s': State) {
    && t in s.tick && s.tick[t].pc.Snapped?
    && var pc := s.tick[t].pc;
       s' == SetTick(s, t, Walking(pc.q, pc.snap, pc.snap, {}, {}))
  }

  /** One turn of the send loop: a registered id gets the quote, or is noted as dead when its
  receiving end is gone; an id that left the registry is skipped. */
  predicate Visit(s: State, t: Ticker, id: Id, s': State) {
    && t in s.tick && s.tick[t].pc.Walking? && id in s.tick[t].pc.left && id in s.sess
    && var pc := s.tick[t].pc;
       var left := pc.left - {id};
       if id !in s.receivers then
         s' == SetTick(s, t, Walking(pc.q, pc.snap, left, pc.sent, pc.dead))
       else if s.sess[id].open then
         s' == SetTick(Send(s, id, pc.q), t, Walking(pc.q, pc.snap, left, pc.sent + {id}, pc.dead))
       else
         s' == SetTick(s, t, Walking(pc.q, pc.snap, left, pc.sent + {id}, pc.dead + {id}))
  }

  function Send(s: State, id: Id, q: Quote): State
    requires id in s.sess
  {
    var c := s.sess[id];
    s.(sess := s.sess[id := c.(queue := c.queue + [q], enq := c.enq + [q])])
  }

  predicate Close(s: State, t: Ticker, s': State) {
    && t in s.tick && s.tick[t].pc.Walking? && s.tick[t].pc.left == {}
    && s' == SetTick(s, t, Cleaning(s.tick[t].pc.dead))
  }

  predicate Purge(s: State, t: Ticker, id: Id, s': State) {
    && t in s.tick && s.tick[t].pc.Cleaning? && id in s.tick[t].pc.todo
    && s' == SetTick(s, t, Purging(Look(id), s.tick[t].pc.todo - {id}))
  }

  predicate Sweep(s: State, t: Ticker, s': State) {
    && t in s.tick && s.tick[t].pc.Purging? && RemoverEnabled(s, s.tick[t].pc.r)
    && var pc := s.tick[t].pc;
       if pc.r.Unindex? then s' == SetTick(RemoverApply(s, pc.r), t, Cleaning(pc.todo))
       else s' == SetTick(RemoverApply(s, pc.r), t, Purging(RemoverNext(s, pc.r), pc.todo))
  }

  predicate Rest(s: State, t: Ticker, s': State) {
    && t in s.tick && s.tick[t].pc.Cleaning? && s.tick[t].pc.todo == {}
    && s' == SetTick(s, t, Idle)
  }

  // ----- runs -----

  /** A step of a request handler. */
  ghost predicate HandlerStep(s: State, id: Id, s': State) {
    Lock(s, id, s') || Check(s, id, s') || Insert(s, id, s') || Publish(s, id, s') || List(s, id, s')
  }

  /** A step of a streaming thread in its loop. */
  ghost predicate StreamStep(s: State, id: Id, s': State) {
    || (exists ok :: Bind(s, id, ok, s')) || Test(s, id, s') || Take(s, id, s') || Wait(s, id, s')
    || Disconnect(s, id, s') || Die(s, id, s')
  }

  /** A step of a monitor thread, or of a streaming thread on its way out. */
  ghost predicate LeaveStep(s: State, id: Id, s': State) {
    || Flag(s, id, s') || Join(s, id, s') || Unlist(s, id, s') || Clone(s, id, s') || Remove(s, id, s')
  }

  ghost predicate SessionStep(s: State, id: Id, s': State) {
    HandlerStep(s, id, s') || StreamStep(s, id, s') || LeaveStep(s, id, s')
  }

  /** A step of a ticker thread up to its index snapshot. */
  ghost predicate QuoteStep(s: State, t: Ticker, s': State) {
    || (exists change :: Price(s, t, change, s'))
    || (exists volume, now :: Store(s, t, volume, now, s'))
    || Snap(s, t, s')
  }

  /** A step of a ticker thread sending its quote. */
  ghost predicate SendStep(s: State, t: Ticker, s': State) {
    Open(s, t, s') || (exists id :: Visit(s, t, id, s')) || Close(s, t, s')
  }

  /** A step of a ticker thread removing dead receivers. */
  ghost predicate CleanStep(s: State, t: Ticker, s': State) {
    (exists id :: Purge(s, t, id, s')) || Sweep(s, t, s') || Rest(s, t, s')
  }

  ghost predicate TickStep(s: State, t: Ticker, s': State) {
    QuoteStep(s, t, s') || SendStep(s, t, s') || CleanStep(s, t, s')
  }

  ghost predicate Next(s: State, s': State) {
    || (exists want :: Arrive(s, want, s'))
    || (exists id :: SessionStep(s, id, s'))
    || (exists t :: TickStep(s, t, s'))
  }

  /** The generator as created: every ticker once, at a random price, with no receiver. */
  predicate Init(s: State) {
    && s.nextId == 0 && s.receivers == map[] && s.subscribers == {} && s.sess == map[]
    && s.index.Keys == s.prices.Keys == s.tick.Keys
    && (forall t :: t in s.index ==> s.index[t] == {})
    && forall t :: t in s.tick ==>
         && s.tick[t] == Tick(Idle, s.prices[t], [])
         && Prices.MIN_PRICE <= s.prices[t] < Prices.MAX_START_PRICE
  }

  ghost predicate Run(b: seq<State>) {
    |b| > 0 && forall i :: 0 <= i < |b| - 1 ==> StepAt(b, i)
  }

  ghost predicate StepAt(b: seq<State>, i: nat)
    requires i < |b| - 1
  {
    Next(b[i], b[i + 1])
  }

  ghost predicate Reachable(s: State) {
    exists b :: Run(b) && Init(b[0]) && b[|b| - 1] == s
  }
}
