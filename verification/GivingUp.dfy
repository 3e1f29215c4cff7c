/** When the client gives up on the server, and how long it has then waited. */
module GivingUp {
  import opened Wrappers
  import opened PingLog
  import opened PingHistory

  const READ_TIMEOUT := 100

  lemma {:induction false} AllUnanswered(log: seq<PingRecord>)
    ensures Unanswered(log) <= |log|
    ensures Unanswered(log) == |log| <==> forall i :: 0 <= i < |log| ==> log[i].rtt.None?
  {
    if log != [] {
      AllUnanswered(log[..|log| - 1]);
    }
  }

  /** Ten pings have been recorded and none of the last ten has been answered. */
  predicate TenUnanswered(events: seq<Event>, sends: seq<nat>) {
    |sends| >= MAX_PING_LOGS && forall n: nat :: Oldest(sends) <= n < |sends| ==> Answers(events, n) == []
  }

  /** The client decides to shut down at a receive timeout if and only if ten pings have been
  recorded and none of the last ten has been answered, whatever the clock does. */
  lemma ShutdownExactly(events: seq<Event>, now: nat)
    requires !Run(events).shutdown
    ensures Step(Run(events), TimedOut(now)).shutdown <==> TenUnanswered(events, Sends(events))
  {
    RingRefines(events);
    AllUnanswered(Run(events).log);
    FullWindow(Run(events).log, Sends(events));
    if |Sends(events)| >= MAX_PING_LOGS {
      WindowNone(Run(events).log, Sends(events), RoundTripTimes(events));
      NoneAnswered(events, Sends(events));
    }
  }

  /** Nothing but a receive timeout makes the client give up, and it never takes that back. */
  lemma OnlyTimeoutsDecide(s: State, e: Event)
    ensures Step(s, e).shutdown && !s.shutdown ==> e.TimedOut?
    ensures s.shutdown ==> Step(s, e).shutdown
  {}

  lemma FullWindow(log: seq<PingRecord>, sends: seq<nat>)
    requires Window(log, sends)
    ensures |log| <= MAX_PING_LOGS && (|log| == MAX_PING_LOGS <==> |sends| >= MAX_PING_LOGS)
  {}

  /** None of the last ten pings has a round-trip time. */
  ghost predicate NoneTimed(sends: seq<nat>, rtt: (nat, nat) -> Option<nat>) {
    forall n: nat :: Oldest(sends) <= n < |sends| ==> rtt(n, sends[n]).None?
  }

  lemma WindowNone(log: seq<PingRecord>, sends: seq<nat>, rtt: (nat, nat) -> Option<nat>)
    requires Window(log, sends) && Timed(log, rtt, Oldest(sends))
    ensures (forall i :: 0 <= i < |log| ==> log[i].rtt.None?) <==> NoneTimed(sends, rtt)
  {
    forall n: nat | Oldest(sends) <= n < |sends| ensures log[n - Oldest(sends)].rtt == rtt(n, sends[n]) {
      RecordOf(log, sends, rtt, n);
    }
    if NoneTimed(sends, rtt) {
      forall i | 0 <= i < |log| ensures log[i].rtt.None? {
        RecordOf(log, sends, rtt, Oldest(sends) + i);
      }
    }
  }

  lemma NoneAnswered(events: seq<Event>, sends: seq<nat>)
    requires |sends| >= MAX_PING_LOGS
    ensures NoneTimed(sends, RoundTripTimes(events)) <==> TenUnanswered(events, sends)
  {
    forall n: nat | Oldest(sends) <= n < |sends|
      ensures RoundTripTimes(events)(n, sends[n]).None? <==> Answers(events, n) == []
    {
      HasRtt(events, n, sends[n]);
    }
  }

  // ----- how long the server has been silent -----

  /** Each timestamp is at least `gap` after the one before. */
  predicate Spaced(xs: seq<nat>, gap: nat) {
    forall i :: 0 < i < |xs| ==> Pause(xs, i, gap)
  }

  predicate Pause(xs: seq<nat>, i: nat, gap: nat)
    requires 0 < i < |xs|
  {
    xs[i - 1] + gap <= xs[i]
  }

  /** Each timestamp is exactly `gap` after the one before. */
  predicate Even(xs: seq<nat>, gap: nat) {
    forall i :: 0 < i < |xs| ==> ExactPause(xs, i, gap)
  }

  predicate ExactPause(xs: seq<nat>, i: nat, gap: nat)
    requires 0 < i < |xs|
  {
    xs[i] == xs[i - 1] + gap
  }

  lemma {:induction false} SpacedSum(xs: seq<nat>, gap: nat, i: nat, j: nat)
    requires Spaced(xs, gap) && i <= j < |xs|
    ensures xs[i] + (j - i) * gap <= xs[j]
    decreases j
  {
    if i < j {
      SpacedSum(xs, gap, i, j - 1);
      assert Pause(xs, j, gap);
      assert (j - i) * gap == (j - 1 - i) * gap + gap;
    }
  }

  lemma {:induction false} EvenSum(xs: seq<nat>, gap: nat, i: nat, j: nat)
    requires Even(xs, gap) && i <= j < |xs|
    ensures xs[j] == xs[i] + (j - i) * gap
    decreases j
  {
    if i < j {
      EvenSum(xs, gap, i, j - 1);
      assert ExactPause(xs, j, gap);
      assert (j - i) * gap == (j - 1 - i) * gap + gap;
    }
  }

  lemma SpacedIncreases(xs: seq<nat>, gap: nat)
    requires Spaced(xs, gap) && gap > 0
    ensures Increasing(xs)
  {
    forall i, j | 0 <= i < j < |xs| ensures Less(xs, i, j) {
      SpacedSum(xs, gap, i, j);
      assert (j - i) * gap > 0;
    }
  }

  /** No recorded ping is later than `now`. */
  predicate Past(sends: seq<nat>, now: nat) {
    forall ts :: ts in sends ==> ts <= now
  }

  /** The tenth last recorded ping is at least `silence` old. */
  predicate OldFor(sends: seq<nat>, now: nat, silence: nat) {
    |sends| >= MAX_PING_LOGS && sends[|sends| - MAX_PING_LOGS] + silence <= now
  }

  /** No pong for the tenth last ping has been processed since it was recorded. */
  predicate NeverHeard(events: seq<Event>, sends: seq<nat>) {
    |sends| >= MAX_PING_LOGS && PongsFor(events, sends[|sends| - MAX_PING_LOGS]) == []
  }

  /** With at least two seconds between pings, the decision means that the oldest of the ten was
  sent at least eighteen seconds earlier, nine pauses and not ten, and never answered. */
  lemma ShutdownSilence(events: seq<Event>, sends: seq<nat>, now: nat)
    requires sends == Sends(events) && Spaced(sends, BASE_PING_DELAY) && Past(sends, now)
    requires !Run(events).shutdown && Step(Run(events), TimedOut(now)).shutdown
    ensures OldFor(sends, now, 18_000) && NeverHeard(events, sends)
  {
    ShutdownExactly(events, now);
    OldestUnanswered(events, sends);
    NinePauses(sends, now);
  }

  lemma OldestUnanswered(events: seq<Event>, sends: seq<nat>)
    requires sends == Sends(events) && TenUnanswered(events, sends) && Spaced(sends, BASE_PING_DELAY)
    ensures NeverHeard(events, sends)
  {
    SpacedIncreases(sends, BASE_PING_DELAY);
    SteadyClock(events, |sends| - MAX_PING_LOGS);
  }

  lemma NinePauses(sends: seq<nat>, now: nat)
    requires |sends| >= MAX_PING_LOGS && Spaced(sends, BASE_PING_DELAY) && Past(sends, now)
    ensures OldFor(sends, now, (MAX_PING_LOGS - 1) * BASE_PING_DELAY)
  {
    SpacedSum(sends, BASE_PING_DELAY, |sends| - MAX_PING_LOGS, |sends| - 1);
    assert sends[|sends| - 1] in sends;
  }

  /** `now` is a full pause after the last recorded ping. */
  predicate PauseOver(sends: seq<nat>, now: nat) {
    sends != [] && sends[|sends| - 1] + BASE_PING_DELAY <= now
  }

  /** By how much the pauses from ping number `n` on exceed two seconds, together. */
  function Excess(sends: seq<nat>, n: nat): int
    requires n < |sends|
    decreases |sends| - n
  {
    if n == |sends| - 1 then 0 else sends[n + 1] - sends[n] - BASE_PING_DELAY + Excess(sends, n + 1)
  }

  lemma {:induction false} ExcessSum(sends: seq<nat>, n: nat)
    requires n < |sends|
    ensures sends[|sends| - 1] == sends[n] + (|sends| - 1 - n) * BASE_PING_DELAY + Excess(sends, n)
    ensures Spaced(sends, BASE_PING_DELAY) ==> Excess(sends, n) >= 0
    ensures Even(sends, BASE_PING_DELAY) ==> Excess(sends, n) == 0
    decreases |sends| - n
  {
    if n < |sends| - 1 {
      ExcessSum(sends, n + 1);
      assert Spaced(sends, BASE_PING_DELAY) ==> Pause(sends, n + 1, BASE_PING_DELAY);
      assert Even(sends, BASE_PING_DELAY) ==> ExactPause(sends, n + 1, BASE_PING_DELAY);
    }
  }

  /** When the documented twenty seconds are kept, for any timestamps at all: exactly when the nine
  pauses were late by so much, and the decision comes so long after the last recorded ping, that
  both together make up the missing tenth pause. With pauses of at least two seconds a full pause
  after the last ping is enough, and with pauses of exactly two seconds nothing less is. */
  lemma TwentySeconds(events: seq<Event>, now: nat)
    requires !Run(events).shutdown && Step(Run(events), TimedOut(now)).shutdown
    ensures |Sends(events)| >= MAX_PING_LOGS && TenthPause(Sends(events), now)
  {
    ShutdownExactly(events, now);
    TenPauses(Sends(events), now);
  }

  predicate TenthPause(sends: seq<nat>, now: nat)
    requires |sends| >= MAX_PING_LOGS
  {
    && (OldFor(sends, now, MAX_PING_LOGS * BASE_PING_DELAY) <==>
        now + Excess(sends, |sends| - MAX_PING_LOGS) >= sends[|sends| - 1] + BASE_PING_DELAY)
    && (Spaced(sends, BASE_PING_DELAY) && PauseOver(sends, now) ==>
          OldFor(sends, now, MAX_PING_LOGS * BASE_PING_DELAY))
    && (Even(sends, BASE_PING_DELAY) ==>
          (OldFor(sends, now, MAX_PING_LOGS * BASE_PING_DELAY) <==> PauseOver(sends, now)))
  }

  lemma TenPauses(sends: seq<nat>, now: nat)
    requires |sends| >= MAX_PING_LOGS
    ensures TenthPause(sends, now)
  {
    ExcessSum(sends, |sends| - MAX_PING_LOGS);
  }

  // ----- a run that gives up after eighteen seconds -----

  function Latest(events: seq<Event>): nat {
    if events == [] then 0
    else
      match events[|events| - 1]
      case Recorded(ts) => ts
      case Datagram(_, _, now) => now
      case TimedOut(now) => now
      case _ => Latest(events[..|events| - 1])
  }

  /** When the listener last came back from a wait. */
  function LastHeard(events: seq<Event>): Option<nat> {
    if events == [] then None
    else
      match events[|events| - 1]
      case Datagram(_, _, now) => Some(now)
      case TimedOut(now) => Some(now)
      case _ => LastHeard(events[..|events| - 1])
  }

  /** The event can come next in time: the clock does not go back, and once the listener was heard
  of it waits for at most the read timeout, and for all of it before it times out. */
  predicate InTime(init: seq<Event>, e: Event) {
    var heard := LastHeard(init);
    match e
    case Recorded(ts) => Latest(init) <= ts && (heard.Some? ==> ts <= heard.value + READ_TIMEOUT)
    case Datagram(_, _, now) => Latest(init) <= now && (heard.Some? ==> now <= heard.value + READ_TIMEOUT)
    case TimedOut(now) => Latest(init) <= now && (heard.Some? ==> now == heard.value + READ_TIMEOUT)
    case _ => true
  }

  predicate Paced(events: seq<Event>) {
    events == [] || (Paced(events[..|events| - 1]) && InTime(events[..|events| - 1], events[|events| - 1]))
  }

  /** The receive timeouts number `a` up to but not including `b`, counted from time zero. */
  function Timeouts(a: nat, b: nat): seq<Event> {
    if b <= a then [] else Timeouts(a, b - 1) + [TimedOut(READ_TIMEOUT * (b - 1))]
  }

  /** A quote from the master at time zero and then `n` pings two seconds apart, with every receive
  timeout of the listener up to the last ping. */
  function Script(n: nat): seq<Event>
    requires n > 0
  {
    if n == 1 then [Datagram(true, Quote, 0), Recorded(0)]
    else
      Script(n - 1) + Timeouts(if n == 2 then 1 else 20 * (n - 2), 20 * (n - 1)) + [Recorded(BASE_PING_DELAY * (n - 1))]
  }

  /** `n` unanswered pings, every two seconds from zero, and a client still running. */
  predicate Waiting(s: State, sends: seq<nat>, n: nat) {
    && s.pinging && !s.shutdown && |s.log| == n && |sends| == n
    && (forall i :: 0 <= i < n ==> s.log[i].rtt.None?)
    && forall i :: 0 <= i < n ==> sends[i] == BASE_PING_DELAY * i
  }

  predicate ScriptOk(es: seq<Event>, n: nat, heard: nat, latest: nat) {
    && Paced(es) && LastHeard(es) == Some(heard) && Latest(es) == latest
    && Waiting(Run(es), Sends(es), n)
  }

  lemma TimeAfter(es: seq<Event>, e: Event)
    requires Paced(es) && InTime(es, e)
    ensures Paced(es + [e])
    ensures e.Datagram? ==> LastHeard(es + [e]) == Some(e.now) && Latest(es + [e]) == e.now
    ensures e.TimedOut? ==> LastHeard(es + [e]) == Some(e.now) && Latest(es + [e]) == e.now
    ensures e.Recorded? ==> LastHeard(es + [e]) == LastHeard(es) && Latest(es + [e]) == e.timestamp
  {
    assert (es + [e])[..|es|] == es;
  }

  /** With fewer than ten pings a timeout decides nothing. */
  lemma TimeoutStep(es: seq<Event>, n: nat, heard: nat, latest: nat, now: nat)
    requires ScriptOk(es, n, heard, latest) && n < MAX_PING_LOGS && now == heard + READ_TIMEOUT && latest <= now
    ensures ScriptOk(es + [TimedOut(now)], n, now, now)
  {
    TimeAfter(es, TimedOut(now));
    Snoc(es, TimedOut(now));
    AllUnanswered(Run(es).log);
    assert Sends(es) + [] == Sends(es);
  }

  lemma {:induction false} TimeoutsRun(es: seq<Event>, n: nat, latest: nat, a: nat, b: nat)
    requires 0 < a < b && n < MAX_PING_LOGS
    requires ScriptOk(es, n, READ_TIMEOUT * (a - 1), latest) && latest <= READ_TIMEOUT * a
    ensures ScriptOk(es + Timeouts(a, b), n, READ_TIMEOUT * (b - 1), READ_TIMEOUT * (b - 1))
  {
    if b == a + 1 {
      TimeoutStep(es, n, READ_TIMEOUT * (a - 1), latest, READ_TIMEOUT * a);
      assert Timeouts(a, b) == [TimedOut(READ_TIMEOUT * a)];
    } else {
      TimeoutsRun(es, n, latest, a, b - 1);
      TimeoutStep(es + Timeouts(a, b - 1), n, READ_TIMEOUT * (b - 2), READ_TIMEOUT * (b - 2), READ_TIMEOUT * (b - 1));
      assert es + Timeouts(a, b) == es + Timeouts(a, b - 1) + [TimedOut(READ_TIMEOUT * (b - 1))];
    }
  }

  lemma WaitingStep(s: State, sends: seq<nat>, n: nat)
    requires Waiting(s, sends, n) && n < MAX_PING_LOGS
    ensures Waiting(Step(s, Recorded(BASE_PING_DELAY * n)), sends + [BASE_PING_DELAY * n], n + 1)
  {}

  lemma RecordedStep(es: seq<Event>, n: nat, heard: nat, latest: nat)
    requires ScriptOk(es, n, heard, latest) && n < MAX_PING_LOGS
    requires latest <= BASE_PING_DELAY * n <= heard + READ_TIMEOUT
    ensures ScriptOk(es + [Recorded(BASE_PING_DELAY * n)], n + 1, heard, BASE_PING_DELAY * n)
  {
    TimeAfter(es, Recorded(BASE_PING_DELAY * n));
    Snoc(es, Recorded(BASE_PING_DELAY * n));
    WaitingStep(Run(es), Sends(es), n);
  }

  lemma FirstPing()
    ensures ScriptOk(Script(1), 1, 0, 0)
  {
    var e := Datagram(true, Quote, 0);
    assert [] + [e] == [e];
    TimeAfter([], e);
    Snoc([], e);
    assert [e] + [Recorded(BASE_PING_DELAY * 0)] == Script(1);
    RecordedStep([e], 0, 0, 0);
  }

  lemma NextPing(es: seq<Event>, n: nat, a: nat, b: nat)
    requires 0 < n < MAX_PING_LOGS && a == (if n == 1 then 1 else 20 * (n - 1)) && b == 20 * n
    requires ScriptOk(es, n, READ_TIMEOUT * (a - 1), BASE_PING_DELAY * (n - 1))
    ensures ScriptOk(es + Timeouts(a, b) + [Recorded(BASE_PING_DELAY * n)], n + 1, READ_TIMEOUT * (b - 1), BASE_PING_DELAY * n)
  {
    TimeoutsRun(es, n, BASE_PING_DELAY * (n - 1), a, b);
    RecordedStep(es + Timeouts(a, b), n, READ_TIMEOUT * (b - 1), READ_TIMEOUT * (b - 1));
  }

  lemma {:induction false} ScriptRun(n: nat)
    requires 0 < n <= MAX_PING_LOGS
    ensures ScriptOk(Script(n), n, if n == 1 then 0 else READ_TIMEOUT * (20 * (n - 1) - 1), BASE_PING_DELAY * (n - 1))
  {
    if n == 1 {
      FirstPing();
    } else {
      ScriptRun(n - 1);
      NextPing(Script(n - 1), n - 1, if n == 2 then 1 else 20 * (n - 2), 20 * (n - 1));
    }
  }

  /** The eighteen seconds are reached, although the documentation speaks of twenty: in this run,
  whose clock and waits are those of a real client, ten pings go out every two seconds from zero,
  the timeouts before the tenth decide nothing, and the one at eighteen seconds ends the client. */
  lemma ShutdownAfterEighteenSeconds()
    ensures var events := Script(10);
            && Paced(events + [TimedOut(18_000)])
            && |Sends(events)| == 10 && (forall i :: 0 <= i < 10 ==> Sends(events)[i] == 2_000 * i)
            && !Run(events).shutdown && Run(events + [TimedOut(18_000)]).shutdown
  {
    ScriptRun(10);
    TenWaiting(Script(10));
  }

  lemma TenWaiting(es: seq<Event>)
    requires ScriptOk(es, 10, 17_900, 18_000)
    ensures Paced(es + [TimedOut(18_000)]) && !Run(es).shutdown && Run(es + [TimedOut(18_000)]).shutdown
    ensures |Sends(es)| == 10 && forall i :: 0 <= i < 10 ==> Sends(es)[i] == 2_000 * i
  {
    TimeAfter(es, TimedOut(18_000));
    Snoc(es, TimedOut(18_000));
    GivesUp(Run(es), Sends(es));
  }

  lemma GivesUp(s: State, sends: seq<nat>)
    requires Waiting(s, sends, MAX_PING_LOGS)
    ensures Step(s, TimedOut(18_000)).shutdown
  {
    AllUnanswered(s.log);
  }

  // ----- a silent server -----

  /** The listener hears one datagram from the master, and nothing after it. */
  predicate Silence(events: seq<Event>) {
    && events != [] && events[0].Datagram? && events[0].fromMaster
    && forall i :: 0 < i < |events| ==> events[i].Recorded? || events[i].TimedOut?
  }

  /** While the client runs, the next ping is recorded before time passes the end of its pause. */
  predicate Punctual(events: seq<Event>) {
    events == [] || (Punctual(events[..|events| - 1]) && OnTime(Run(events), Sends(events), Latest(events)))
  }

  predicate OnTime(s: State, sends: seq<nat>, latest: nat) {
    s.shutdown || sends == [] || latest <= sends[|sends| - 1] + BASE_PING_DELAY
  }

  /** A running client that has heard nothing since it began to ping, up to the tenth ping. */
  predicate Unheard(s: State, sends: seq<nat>, heard: Option<nat>, latest: nat) {
    && s.pinging && !s.shutdown && |s.log| == |sends| <= MAX_PING_LOGS
    && (forall i :: 0 <= i < |s.log| ==> s.log[i].rtt.None?)
    && heard.Some? && heard.value <= latest
    && (sends != [] ==> sends[|sends| - 1] <= latest)
    && (|sends| == MAX_PING_LOGS ==> latest == sends[|sends| - 1])
  }

  lemma UnheardPing(s: State, sends: seq<nat>, heard: Option<nat>, latest: nat, ts: nat)
    requires Unheard(s, sends, heard, latest) && latest <= ts <= heard.value + READ_TIMEOUT
    requires Even(sends + [ts], BASE_PING_DELAY)
    ensures Unheard(Step(s, Recorded(ts)), sends + [ts], heard, ts)
  {
    if sends != [] {
      assert ExactPause(sends + [ts], |sends|, BASE_PING_DELAY);
    }
  }

  /** A timeout decides if and only if the tenth ping has been recorded. */
  lemma UnheardTimeout(s: State, sends: seq<nat>, heard: Option<nat>, latest: nat, now: nat)
    requires Unheard(s, sends, heard, latest) && latest <= now
    ensures Step(s, TimedOut(now)).shutdown <==> |sends| == MAX_PING_LOGS
    ensures |sends| < MAX_PING_LOGS ==> Unheard(Step(s, TimedOut(now)), sends, Some(now), now)
  {
    AllUnanswered(s.log);
  }

  lemma FirstDatagram(e: Event)
    requires e.Datagram? && e.fromMaster
    ensures Unheard(Run([e]), Sends([e]), LastHeard([e]), Latest([e]))
  {
    assert [] + [e] == [e];
    Snoc([], e);
    assert [e][..0] == [];
  }

  lemma EvenPrefix(xs: seq<nat>, ys: seq<nat>, gap: nat)
    requires Even(ys, gap) && xs <= ys
    ensures Even(xs, gap)
  {
    forall i | 0 < i < |xs| ensures ExactPause(xs, i, gap) {
      assert ExactPause(ys, i, gap);
    }
  }

  lemma LastOf(init: seq<Event>, e: Event)
    ensures Paced(init + [e]) <==> Paced(init) && InTime(init, e)
    ensures e.Recorded? ==> Latest(init + [e]) == e.timestamp && LastHeard(init + [e]) == LastHeard(init)
    ensures e.TimedOut? ==> Latest(init + [e]) == e.now && LastHeard(init + [e]) == Some(e.now)
  {
    assert (init + [e])[..|init|] == init;
  }

  lemma {:induction false} SilentRun(events: seq<Event>)
    requires Paced(events) && Silence(events) && Even(Sends(events), BASE_PING_DELAY) && !Run(events).shutdown
    ensures Unheard(Run(events), Sends(events), LastHeard(events), Latest(events))
  {
    var (init, e) := (events[..|events| - 1], events[|events| - 1]);
    assert events == init + [e];
    if init == [] {
      FirstDatagram(e);
    } else {
      Snoc(init, e);
      LastOf(init, e);
      OnlyTimeoutsDecide(Run(init), e);
      EvenPrefix(Sends(init), Sends(events), BASE_PING_DELAY);
      SilentRun(init);
      SilentStep(Run(init), Sends(init), LastHeard(init), Latest(init), e);
    }
  }

  /** When the event comes, as far as the timing of a running listener goes. */
  predicate Timely(heard: Option<nat>, latest: nat, e: Event) {
    && heard.Some?
    && (e.Recorded? ==> latest <= e.timestamp <= heard.value + READ_TIMEOUT)
    && (e.TimedOut? ==> latest <= e.now == heard.value + READ_TIMEOUT)
  }

  lemma SilentStep(s: State, sends: seq<nat>, heard: Option<nat>, latest: nat, e: Event)
    requires Unheard(s, sends, heard, latest) && Timely(heard, latest, e) && !Step(s, e).shutdown
    requires e.Recorded? || e.TimedOut?
    requires Even(sends + New(s, e), BASE_PING_DELAY)
    ensures e.Recorded? ==> Unheard(Step(s, e), sends + New(s, e), heard, e.timestamp)
    ensures e.TimedOut? ==> Unheard(Step(s, e), sends + New(s, e), Some(e.now), e.now)
  {
    if e.Recorded? {
      UnheardPing(s, sends, heard, latest, e.timestamp);
    } else {
      UnheardTimeout(s, sends, heard, latest, e.now);
      assert sends + New(s, e) == sends;
    }
  }

  /** The run decides at event `k`. */
  predicate Decides(events: seq<Event>, k: nat)
    requires k < |events|
  {
    !Run(events[..k]).shutdown && Step(Run(events[..k]), events[k]).shutdown
  }

  lemma {:induction false} SomeDecides(events: seq<Event>) returns (k: nat)
    requires Run(events).shutdown
    ensures k < |events| && Decides(events, k)
  {
    var init := events[..|events| - 1];
    if Run(init).shutdown {
      k := SomeDecides(init);
      assert events[..k] == init[..k];
    } else {
      k := |init|;
    }
  }

  lemma {:induction false} PacedPrefix(events: seq<Event>, k: nat)
    requires k < |events| && Paced(events)
    ensures Paced(events[..k]) && InTime(events[..k], events[k])
  {
    var init := events[..|events| - 1];
    if k < |init| {
      PacedPrefix(init, k);
      assert init[..k] == events[..k];
    }
  }

  /** Ten pings, nine pauses. */
  lemma NineEven(sends: seq<nat>)
    requires 0 < |sends| && Even(sends, BASE_PING_DELAY)
    ensures sends[|sends| - 1] == sends[0] + (|sends| - 1) * BASE_PING_DELAY
  {
    EvenSum(sends, BASE_PING_DELAY, 0, |sends| - 1);
  }

  /** A decision `now` between eighteen seconds and one read timeout more after the first of exactly
  ten pings. */
  predicate EighteenSeconds(sends: seq<nat>, now: nat) {
    |sends| == MAX_PING_LOGS && sends[0] + 18_000 <= now <= sends[0] + 18_000 + READ_TIMEOUT
  }

  /** With a silent server the decision always comes between 18 000 and 18 100 milliseconds after the
  oldest of the ten pings, so it never keeps the twenty seconds. */
  lemma SilentDecision(events: seq<Event>, k: nat)
    requires Paced(events) && Silence(events) && Even(Sends(events), BASE_PING_DELAY)
    requires k < |events| && Decides(events, k)
    ensures events[k].TimedOut? && EighteenSeconds(Sends(events[..k]), events[k].now)
    ensures !OldFor(Sends(events[..k]), events[k].now, MAX_PING_LOGS * BASE_PING_DELAY)
  {
    PacedPrefix(events, k);
    HistoryGrows(events, k, 0);
    EvenPrefix(Sends(events[..k]), Sends(events), BASE_PING_DELAY);
    FirstDecidesNothing(events[0]);
    SilentRun(events[..k]);
    DecisionTime(Run(events[..k]), Sends(events[..k]), LastHeard(events[..k]), Latest(events[..k]), events[k]);
  }

  lemma FirstDecidesNothing(e: Event)
    requires e.Datagram?
    ensures !Step(Run([]), e).shutdown
  {}

  lemma DecisionTime(s: State, sends: seq<nat>, heard: Option<nat>, latest: nat, e: Event)
    requires Unheard(s, sends, heard, latest) && Timely(heard, latest, e) && Step(s, e).shutdown
    requires Even(sends, BASE_PING_DELAY)
    ensures e.TimedOut? && EighteenSeconds(sends, e.now) && !OldFor(sends, e.now, MAX_PING_LOGS * BASE_PING_DELAY)
  {
    UnheardTimeout(s, sends, heard, latest, if e.TimedOut? then e.now else latest);
    NineEven(sends);
  }

  /** And it does come: no punctual client is still running eighteen seconds after its first ping,
  once the clock is past that. */
  lemma SilentServer(events: seq<Event>)
    requires Paced(events) && Silence(events) && Even(Sends(events), BASE_PING_DELAY) && Punctual(events)
    requires Sends(events) != [] && Latest(events) > Sends(events)[0] + 18_000
    ensures exists k: nat :: k < |events| && Decides(events, k)
              && events[k].TimedOut? && EighteenSeconds(Sends(events[..k]), events[k].now)
  {
    if !Run(events).shutdown {
      SilentRun(events);
      StillRunning(Run(events), Sends(events), LastHeard(events), Latest(events));
    }
    var k := SomeDecides(events);
    SilentDecision(events, k);
  }

  lemma StillRunning(s: State, sends: seq<nat>, heard: Option<nat>, latest: nat)
    requires Unheard(s, sends, heard, latest) && OnTime(s, sends, latest) && sends != [] && Even(sends, BASE_PING_DELAY)
    ensures latest <= sends[0] + 18_000
  {
    NineEven(sends);
  }
}
