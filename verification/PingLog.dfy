/** The client's health check: the ring buffer of recent pings, pong matching, and the decision to
shut down. Times are milliseconds of the client's wall clock. */
module PingLog {
  import opened Wrappers

  const MAX_PING_LOGS := 10
  const BASE_PING_DELAY := 2_000

  /** `rtt` is filled in when the matching pong arrives. */
  datatype PingRecord = PingRecord(timestamp: nat, rtt: Option<nat>)

  datatype Message = Quote | Ping | Pong(timestamp: nat)

  /** What happens to the worker's two threads, in the order it takes effect on the shared state.
  A ping counts when it is recorded, which is after it was sent; `now` is the clock when a
  datagram is handled or a wait timed out. */
  datatype Event =
    | Recorded(timestamp: nat)
    | SendFailed
    | Datagram(fromMaster: bool, msg: Message, now: nat)
    | Undecodable
    | TimedOut(now: nat)
    | ReadFailed

  /** `pinging`: the ping thread has been started, by the first datagram from the master. */
  datatype State = State(pinging: bool, log: seq<PingRecord>, shutdown: bool)

  // ----- single operations -----

  function Record(log: seq<PingRecord>, timestamp: nat): seq<PingRecord> {
    (if |log| >= MAX_PING_LOGS then log[1..] else log) + [PingRecord(timestamp, None)]
  }

  /** The number of the oldest ping that is among the last ten. */
  function Oldest(sends: seq<nat>): (n: nat)
    ensures n <= |sends|
  {
    if |sends| <= MAX_PING_LOGS then 0 else |sends| - MAX_PING_LOGS
  }

  /** The buffer holds the last ten of the given pings, in order, or all if there are fewer. */
  predicate Window(log: seq<PingRecord>, sends: seq<nat>) {
    && |log| == |sends| - Oldest(sends)
    && forall i :: 0 <= i < |log| ==> log[i].timestamp == sends[Oldest(sends) + i]
  }

  /** The first record with this timestamp. */
  predicate IsFirst(log: seq<PingRecord>, timestamp: nat, i: nat)
    requires i < |log|
  {
    log[i].timestamp == timestamp && forall j :: 0 <= j < i ==> log[j].timestamp != timestamp
  }

  function SaturatingSub(a: nat, b: nat): nat {
    if a < b then 0 else a - b
  }

  /** The first record with this timestamp, if any, gets the round-trip time. */
  function Match(log: seq<PingRecord>, timestamp: nat, now: nat): seq<PingRecord> {
    if log == [] then []
    else if log[0].timestamp == timestamp then
      [log[0].(rtt := Some(SaturatingSub(now, timestamp)))] + log[1..]
    else [log[0]] + Match(log[1..], timestamp, now)
  }

  /** A pong fills in the first record with its timestamp, whatever else is buffered, with the time
  that passed, and changes nothing more. */
  lemma {:induction false} MatchFirst(log: seq<PingRecord>, ts: nat, now: nat)
    ensures |Match(log, ts, now)| == |log|
    ensures forall i: nat :: i < |log| && IsFirst(log, ts, i) ==>
              Match(log, ts, now)[i] == PingRecord(ts, Some(if ts <= now then now - ts else 0))
    ensures forall i: nat :: i < |log| ==>
              Match(log, ts, now)[i] ==
              if IsFirst(log, ts, i) then PingRecord(ts, Some(SaturatingSub(now, ts))) else log[i]
  {
    if log != [] && log[0].timestamp != ts {
      MatchFirst(log[1..], ts, now);
      forall i: nat | 0 < i < |log| ensures IsFirst(log, ts, i) <==> IsFirst(log[1..], ts, i - 1) {
        assert forall j :: 0 < j < |log| ==> log[1..][j - 1] == log[j];
      }
    }
  }

  function Unanswered(log: seq<PingRecord>): nat {
    if log == [] then 0
    else Unanswered(log[..|log| - 1]) + if log[|log| - 1].rtt.None? then 1 else 0
  }

  /** The number of records without a round-trip time. */
  lemma {:induction false} UnansweredIs(log: seq<PingRecord>)
    ensures Unanswered(log) == |set i | 0 <= i < |log| && log[i].rtt.None?|
  {
    var missing := set i | 0 <= i < |log| && log[i].rtt.None?;
    if log == [] {
      assert missing == {};
    } else {
      var n := |log| - 1;
      UnansweredIs(log[..n]);
      var before := set i | 0 <= i < |log[..n]| && log[..n][i].rtt.None?;
      assert missing == before + if log[n].rtt.None? then {n} else {};
    }
  }

  function Step(s: State, e: Event): State {
    match e
    case Recorded(ts) => if s.pinging then s.(log := Record(s.log, ts)) else s
    case SendFailed => s
    case Datagram(fromMaster, msg, now) =>
      if s.shutdown || (!s.pinging && !fromMaster) then s
      else if msg.Pong? then State(true, Match(s.log, msg.timestamp, now), false)
      else State(true, s.log, false)
    case Undecodable => s
    case TimedOut(_) =>
      if !s.shutdown && Unanswered(s.log) >= MAX_PING_LOGS then s.(shutdown := true) else s
    case ReadFailed => s
  }

  function Run(events: seq<Event>): State {
    if events == [] then State(false, [], false)
    else Step(Run(events[..|events| - 1]), events[|events| - 1])
  }

  /** The worker with its fields as the source keeps them. */
  class Worker {
    var pinging: bool
    var pings: seq<PingRecord>
    var shutdown: bool

    constructor ()
      ensures Current() == Run([])
    {
      pinging, pings, shutdown := false, [], false;
    }

    function Current(): State
      reads this
    {
      State(pinging, pings, shutdown)
    }

    method RecordPing(timestamp: nat)
      modifies this`pings
      ensures pings == Record(old(pings), timestamp)
      ensures forall sends :: Window(old(pings), sends) ==> Window(pings, sends + [timestamp])
    {
      if |pings| >= MAX_PING_LOGS {
        pings := pings[1..];
      }
      pings := pings + [PingRecord(timestamp, None)];
    }

    /** Finds the position of the first record with the timestamp, and fills it in. */
    method MatchPong(timestamp: nat, now: nat)
      modifies this`pings
      ensures pings == Match(old(pings), timestamp, now)
    {
      var pos := 0;
      while pos < |pings| && pings[pos].timestamp != timestamp
        invariant pos <= |pings| && pings == old(pings)
        invariant Match(pings, timestamp, now) == pings[..pos] + Match(pings[pos..], timestamp, now)
      {
        assert pings[..pos + 1] == pings[..pos] + [pings[pos]];
        pos := pos + 1;
      }
      if pos < |pings| {
        pings := pings[pos := pings[pos].(rtt := Some(SaturatingSub(now, timestamp)))];
      }
    }

    method CountUnanswered() returns (n: nat)
      ensures n == Unanswered(pings)
    {
      n := 0;
      for i := 0 to |pings|
        invariant n == Unanswered(pings[..i])
      {
        assert pings[..i + 1][..i] == pings[..i];
        if pings[i].rtt.None? {
          n := n + 1;
        }
      }
      assert pings[..|pings|] == pings;
    }

    /** Both loops, interleaved as the events say. */
    method Loop(events: seq<Event>)
      requires Current() == Run([])
      modifies this
      ensures Current() == Run(events)
    {
      for i := 0 to |events|
        invariant Current() == Run(events[..i])
      {
        assert events[..i + 1][..i] == events[..i];
        match events[i] {
          case Recorded(ts) =>
            if pinging {
              RecordPing(ts);
            }
          case SendFailed =>
          case Datagram(fromMaster, msg, now) =>
            if !shutdown && (pinging || fromMaster) {
              pinging := true;
              match msg {
                case Quote =>
                case Ping =>
                case Pong(ts) => MatchPong(ts, now);
              }
            }
          case Undecodable =>
          case TimedOut(_) =>
            if !shutdown {
              var n := CountUnanswered();
              if n >= MAX_PING_LOGS {
                shutdown := true;
              }
            }
          case ReadFailed =>
        }
      }
      assert events[..|events|] == events;
    }
  }
}
