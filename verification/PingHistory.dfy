/** The ring buffer of pings against the whole history of the client. */
module PingHistory {
  import opened Wrappers
  import opened PingLog

  /** The timestamps recorded by one more event. */
  function New(s: State, e: Event): seq<nat> {
    if e.Recorded? && s.pinging then [e.timestamp] else []
  }

  /** The timestamps of all recorded pings, in order. Pings are numbered from zero. */
  function Sends(events: seq<Event>): seq<nat> {
    if events == [] then []
    else
      var (init, e) := (events[..|events| - 1], events[|events| - 1]);
      Sends(init) + New(Run(init), e)
  }

  /** A pong with timestamp `ts` is for ping number `n`: of the last ten pings, the oldest with that
  timestamp. Timestamps repeat when the clock is set back. */
  predicate IsFor(sends: seq<nat>, ts: nat, n: nat) {
    Oldest(sends) <= n < |sends| && sends[n] == ts && forall m :: Oldest(sends) <= m < n ==> sends[m] != ts
  }

  /** In state `s`, after the pings of `sends`, the event answers ping number `n`. */
  predicate IsAnswer(s: State, sends: seq<nat>, e: Event, n: nat) {
    e.Datagram? && e.msg.Pong? && !s.shutdown && IsFor(sends, e.msg.timestamp, n)
  }

  /** The moments at which the listener processed a pong for ping number `n`, in order. */
  function Answers(events: seq<Event>, n: nat): seq<nat> {
    if events == [] then []
    else
      var (init, e) := (events[..|events| - 1], events[|events| - 1]);
      Answers(init, n) + if IsAnswer(Run(init), Sends(init), e, n) then [e.now] else []
  }

  /** For each ping number, from its timestamp to the last answer, if there was one. */
  function RoundTripTimes(events: seq<Event>): (nat, nat) -> Option<nat> {
    (n, ts) =>
      var answers := Answers(events, n);
      if answers == [] then None else Some(SaturatingSub(answers[|answers| - 1], ts))
  }

  /** Every buffered record, from ping number `oldest` on, has the given round-trip time. */
  ghost predicate Timed(log: seq<PingRecord>, rtt: (nat, nat) -> Option<nat>, oldest: nat) {
    forall i: nat :: i < |log| ==> log[i].rtt == rtt(oldest + i, log[i].timestamp)
  }

  // ----- single steps -----

  lemma RecordWindow(log: seq<PingRecord>, sends: seq<nat>, ts: nat)
    requires Window(log, sends)
    ensures Window(Record(log, ts), sends + [ts])
  {}

  lemma MatchWindow(log: seq<PingRecord>, sends: seq<nat>, ts: nat, now: nat)
    requires Window(log, sends)
    ensures Window(Match(log, ts, now), sends)
  {
    MatchFirst(log, ts, now);
  }

  lemma Snoc(events: seq<Event>, e: Event)
    ensures Run(events + [e]) == Step(Run(events), e)
    ensures Sends(events + [e]) == Sends(events) + New(Run(events), e)
  {
    assert (events + [e])[..|events|] == events;
  }

  lemma {:induction false} UnsentIsUnanswered(events: seq<Event>, n: nat)
    requires n >= |Sends(events)|
    ensures Answers(events, n) == []
  {
    if events != [] {
      UnsentIsUnanswered(events[..|events| - 1], n);
    }
  }

  lemma {:induction false} SendsMeanPinging(events: seq<Event>)
    ensures Sends(events) != [] ==> Run(events).pinging
  {
    if events != [] {
      SendsMeanPinging(events[..|events| - 1]);
    }
  }

  lemma {:induction false} HistoryGrows(events: seq<Event>, k: nat, n: nat)
    requires k <= |events|
    ensures Sends(events[..k]) <= Sends(events) && Answers(events[..k], n) <= Answers(events, n)
  {
    if k == |events| {
      assert events[..k] == events;
    } else {
      var init := events[..|events| - 1];
      assert init[..k] == events[..k];
      HistoryGrows(init, k, n);
    }
  }

  /** The event answers at most the pings it is for. */
  ghost predicate Updates(f: (nat, nat) -> Option<nat>, g: (nat, nat) -> Option<nat>, s: State, sends: seq<nat>, e: Event) {
    forall n, ts :: g(n, ts) == if IsAnswer(s, sends, e, n) then Some(SaturatingSub(e.now, ts)) else f(n, ts)
  }

  lemma HistoryUpdates(init: seq<Event>, e: Event)
    ensures Updates(RoundTripTimes(init), RoundTripTimes(init + [e]), Run(init), Sends(init), e)
  {
    assert (init + [e])[..|init|] == init;
  }

  /** Recording shifts the buffer by one when it is full. */
  lemma RecordShape(log: seq<PingRecord>, sends: seq<nat>, ts: nat)
    requires Window(log, sends)
    ensures var shift := Oldest(sends + [ts]) - Oldest(sends);
            0 <= shift <= 1 && shift <= |log| && Record(log, ts) == log[shift..] + [PingRecord(ts, None)]
  {}

  lemma ShiftTimed(log: seq<PingRecord>, r: PingRecord, rtt: (nat, nat) -> Option<nat>, oldest: nat, shift: nat)
    requires shift <= |log| && Timed(log, rtt, oldest) && r.rtt == rtt(oldest + |log|, r.timestamp)
    ensures Timed(log[shift..] + [r], rtt, oldest + shift)
  {
    var log' := log[shift..] + [r];
    forall i: nat | i < |log'| ensures log'[i].rtt == rtt(oldest + shift + i, log'[i].timestamp) {
      if i < |log'| - 1 {
        assert log'[i] == log[shift + i];
      }
    }
  }

  /** The record a pong fills in is that of the ping it is for. */
  lemma ForIsFirst(log: seq<PingRecord>, sends: seq<nat>, ts: nat, i: nat)
    requires Window(log, sends) && i < |log|
    ensures IsFor(sends, ts, Oldest(sends) + i) <==> IsFirst(log, ts, i)
  {
    var d := Oldest(sends);
    assert forall j :: 0 <= j < i ==> log[j].timestamp == sends[d + j];
    assert forall m :: d <= m < d + i ==> sends[m] == log[m - d].timestamp;
  }

  lemma PongStep(s: State, e: Event, sends: seq<nat>, f: (nat, nat) -> Option<nat>, g: (nat, nat) -> Option<nat>)
    requires e.Datagram? && e.msg.Pong? && !s.shutdown
    requires Window(s.log, sends) && Timed(s.log, f, Oldest(sends)) && Updates(f, g, s, sends, e)
    ensures Timed(Match(s.log, e.msg.timestamp, e.now), g, Oldest(sends))
  {
    MatchFirst(s.log, e.msg.timestamp, e.now);
    var log' := Match(s.log, e.msg.timestamp, e.now);
    forall i: nat | i < |log'| ensures log'[i].rtt == g(Oldest(sends) + i, log'[i].timestamp) {
      ForIsFirst(s.log, sends, e.msg.timestamp, i);
    }
  }

  lemma SameTimed(log: seq<PingRecord>, f: (nat, nat) -> Option<nat>, g: (nat, nat) -> Option<nat>, oldest: nat)
    requires Timed(log, f, oldest) && forall n, ts :: g(n, ts) == f(n, ts)
    ensures Timed(log, g, oldest)
  {}

  lemma RecordStep(log: seq<PingRecord>, ts: nat, sends: seq<nat>, f: (nat, nat) -> Option<nat>)
    requires Window(log, sends) && Timed(log, f, Oldest(sends)) && f(|sends|, ts) == None
    ensures Timed(Record(log, ts), f, Oldest(sends + [ts]))
  {
    RecordShape(log, sends, ts);
    var (oldest, oldest') := (Oldest(sends), Oldest(sends + [ts]));
    assert oldest + |log| == |sends|;
    ShiftTimed(log, PingRecord(ts, None), f, oldest, oldest' - oldest);
    assert oldest + (oldest' - oldest) == oldest';
  }

  /** What an event does to the buffer. */
  function StepLog(s: State, e: Event): seq<PingRecord> {
    if e.Recorded? && s.pinging then Record(s.log, e.timestamp)
    else if e.Datagram? && e.msg.Pong? && !s.shutdown && (s.pinging || e.fromMaster) then Match(s.log, e.msg.timestamp, e.now)
    else s.log
  }

  lemma StepOnLog(s: State, e: Event)
    ensures Step(s, e).log == StepLog(s, e)
  {}

  lemma RingStep(s: State, e: Event, sends: seq<nat>, f: (nat, nat) -> Option<nat>, g: (nat, nat) -> Option<nat>)
    requires (sends != [] ==> s.pinging) && forall ts :: f(|sends|, ts) == None
    requires Window(s.log, sends) && Timed(s.log, f, Oldest(sends)) && Updates(f, g, s, sends, e)
    ensures Window(StepLog(s, e), sends + New(s, e)) && Timed(StepLog(s, e), g, Oldest(sends + New(s, e)))
  {
    if e.Recorded? && s.pinging {
      RecordWindow(s.log, sends, e.timestamp);
      RecordStep(s.log, e.timestamp, sends, f);
      SameTimed(StepLog(s, e), f, g, Oldest(sends + New(s, e)));
    } else {
      assert sends + New(s, e) == sends;
      if e.Datagram? && e.msg.Pong? && !s.shutdown && (s.pinging || e.fromMaster) {
        MatchWindow(s.log, sends, e.msg.timestamp, e.now);
        PongStep(s, e, sends, f, g);
      } else {
        SameTimed(s.log, f, g, Oldest(sends));
      }
    }
  }

  // ----- main results -----

  /** The ring buffer refines the full history, whatever the clock does. The buffer is exactly the
  last ten recorded pings, or all of them if fewer, in order; and a buffered record has a round-trip
  time exactly when a pong for its ping was processed, namely the time to the last such pong. */
  lemma {:induction false} RingRefines(events: seq<Event>)
    ensures Window(Run(events).log, Sends(events))
    ensures Timed(Run(events).log, RoundTripTimes(events), Oldest(Sends(events)))
  {
    if events != [] {
      var (init, e) := (events[..|events| - 1], events[|events| - 1]);
      assert events == init + [e];
      Snoc(init, e);
      SendsMeanPinging(init);
      UnsentIsUnanswered(init, |Sends(init)|);
      RingRefines(init);
      HistoryUpdates(init, e);
      RingStep(Run(init), e, Sends(init), RoundTripTimes(init), RoundTripTimes(events));
      StepOnLog(Run(init), e);
    }
  }

  /** Pinging starts with the first datagram from the master, whatever strangers send, and goes on. */
  lemma {:induction false} PingingExactly(events: seq<Event>)
    ensures Run(events).pinging <==> exists i :: 0 <= i < |events| && events[i].Datagram? && events[i].fromMaster
    ensures !Run(events).pinging ==> Run(events).log == [] && !Run(events).shutdown
  {
    if events != [] {
      var (init, e) := (events[..|events| - 1], events[|events| - 1]);
      PingingExactly(init);
      PingingStep(Run(init), e);
      assert forall i :: 0 <= i < |init| ==> init[i] == events[i];
    }
  }

  lemma PingingStep(s: State, e: Event)
    requires !s.pinging ==> s.log == [] && !s.shutdown
    ensures Step(s, e).pinging <==> s.pinging || (e.Datagram? && e.fromMaster)
    ensures !Step(s, e).pinging ==> Step(s, e).log == [] && !Step(s, e).shutdown
  {}

  /** A round-trip time, once set, is never cleared while the record of that ping is buffered. */
  lemma RttNeverCleared(events: seq<Event>, k: nat, n: nat)
    requires k <= |events| && Oldest(Sends(events)) <= n < |Sends(events[..k])|
    ensures var (was, now) := (n - Oldest(Sends(events[..k])), n - Oldest(Sends(events)));
            && 0 <= was < |Run(events[..k]).log| && 0 <= now < |Run(events).log|
            && Run(events[..k]).log[was].timestamp == Run(events).log[now].timestamp
            && (Run(events[..k]).log[was].rtt.Some? ==> Run(events).log[now].rtt.Some?)
  {
    HistoryGrows(events, k, n);
    RttAt(events[..k], n);
    RttAt(events, n);
  }

  lemma HasRtt(events: seq<Event>, n: nat, ts: nat)
    ensures RoundTripTimes(events)(n, ts).Some? <==> Answers(events, n) != []
  {}

  /** Record `i` is that of a ping sent at `ts`, and has a round-trip time if and only if `answered`. */
  predicate IsRecord(log: seq<PingRecord>, i: int, ts: nat, answered: bool) {
    0 <= i < |log| && log[i].timestamp == ts && (log[i].rtt.Some? <==> answered)
  }

  /** The record of a buffered ping, by its number. */
  lemma RttAt(events: seq<Event>, n: nat)
    requires Oldest(Sends(events)) <= n < |Sends(events)|
    ensures IsRecord(Run(events).log, n - Oldest(Sends(events)), Sends(events)[n], Answers(events, n) != [])
  {
    RingRefines(events);
    RecordOf(Run(events).log, Sends(events), RoundTripTimes(events), n);
    HasRtt(events, n, Sends(events)[n]);
  }

  lemma RecordOf(log: seq<PingRecord>, sends: seq<nat>, rtt: (nat, nat) -> Option<nat>, n: nat)
    requires Window(log, sends) && Timed(log, rtt, Oldest(sends)) && Oldest(sends) <= n < |sends|
    ensures var i := n - Oldest(sends);
            i < |log| && log[i].timestamp == sends[n] && log[i].rtt == rtt(n, sends[n])
  {
    var i := n - Oldest(sends);
    assert log[i].timestamp == sends[Oldest(sends) + i];
  }

  // ----- with a steady clock -----

  predicate Increasing(xs: seq<nat>) {
    forall i, j :: 0 <= i < j < |xs| ==> Less(xs, i, j)
  }

  predicate Less(xs: seq<nat>, i: nat, j: nat)
    requires i < j < |xs|
  {
    xs[i] < xs[j]
  }

  predicate IsPongFor(init: seq<Event>, e: Event, ts: nat) {
    e.Datagram? && e.msg == Pong(ts) && !Run(init).shutdown && ts in Sends(init)
  }

  /** The moments at which the listener processed any pong with timestamp `ts` after a ping with it
  was recorded, in order. */
  function PongsFor(events: seq<Event>, ts: nat): seq<nat> {
    if events == [] then []
    else
      var (init, e) := (events[..|events| - 1], events[|events| - 1]);
      PongsFor(init, ts) + if IsPongFor(init, e, ts) then [e.now] else []
  }

  lemma LastIsNew(xs: seq<nat>, x: nat)
    requires Increasing(xs + [x])
    ensures x !in xs
  {
    forall i | 0 <= i < |xs| ensures xs[i] < x {
      assert Less(xs + [x], i, |xs|);
    }
  }

  lemma PrefixIncreasing(xs: seq<nat>, ys: seq<nat>)
    requires Increasing(ys) && xs <= ys
    ensures Increasing(xs)
  {
    forall i, j | 0 <= i < j < |xs| ensures Less(xs, i, j) {
      assert Less(ys, i, j);
    }
  }

  lemma {:induction false} UnsentHasNoPong(events: seq<Event>, ts: nat)
    requires ts !in Sends(events)
    ensures PongsFor(events, ts) == []
  {
    if events != [] {
      UnsentHasNoPong(events[..|events| - 1], ts);
    }
  }

  /** With increasing timestamps a pong is for the one ping that has its timestamp. */
  lemma ForIsUnique(sends: seq<nat>, ts: nat, n: nat)
    requires Increasing(sends) && Oldest(sends) <= n < |sends|
    ensures IsFor(sends, ts, n) <==> sends[n] == ts
  {
    forall m | Oldest(sends) <= m < n ensures sends[m] < sends[n] {
      assert Less(sends, m, n);
    }
  }

  /** As long as the clock does not go back, the answers to a buffered ping are all the pongs with
  its timestamp that were processed since it was recorded. */
  lemma {:induction false} SteadyClock(events: seq<Event>, n: nat)
    requires Increasing(Sends(events)) && Oldest(Sends(events)) <= n < |Sends(events)|
    ensures Answers(events, n) == PongsFor(events, Sends(events)[n])
  {
    var (init, e) := (events[..|events| - 1], events[|events| - 1]);
    PrefixIncreasing(Sends(init), Sends(events));
    if n < |Sends(init)| {
      SteadyClock(init, n);
      SteadyStep(init, e, Sends(init), n);
    } else {
      assert Sends(events) == Sends(init) + [Sends(events)[n]];
      LastIsNew(Sends(init), Sends(events)[n]);
      UnsentIsUnanswered(init, n);
      UnsentHasNoPong(init, Sends(events)[n]);
    }
  }

  lemma SteadyStep(init: seq<Event>, e: Event, sends: seq<nat>, n: nat)
    requires sends == Sends(init) && Increasing(sends) && Oldest(sends) <= n < |sends|
    ensures IsAnswer(Run(init), sends, e, n) <==> IsPongFor(init, e, sends[n])
  {
    if e.Datagram? && e.msg.Pong? {
      ForIsUnique(sends, e.msg.timestamp, n);
    }
  }
}
