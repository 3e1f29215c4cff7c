/** The server's health check of one client: the loop that answers pings and declares the client
dead. Times are milliseconds of the server's clock. */
module Monitor {
  import opened Wrappers

  const MAX_PING_TIMEOUT := 5_000
  const FIRST_PING_TIMEOUT := 3 * MAX_PING_TIMEOUT
  const READ_TIMEOUT := 1_000

  /** What one call of recv_from came to, and the clock when it was handled. */
  datatype Input =
    | Ping(at: nat, timestamp: nat)
    | OtherMessage(at: nat)
    | Garbage(at: nat)
    | TimedOut(at: nat)
    | ReadFailed(at: nat)

  function LastPing(inputs: seq<Input>): Option<nat> {
    if inputs == [] then None
    else
      var e := inputs[|inputs| - 1];
      if e.Ping? then Some(e.at) else LastPing(inputs[..|inputs| - 1])
  }

  /** At input `k` the client is found dead: only a receive timeout looks at the clock. */
  predicate Flags(start: nat, inputs: seq<Input>, k: nat)
    requires k < |inputs|
  {
    && inputs[k].TimedOut?
    && match LastPing(inputs[..k])
       case Some(p) => inputs[k].at > p + MAX_PING_TIMEOUT
       case None => inputs[k].at > start + FIRST_PING_TIMEOUT
  }

  /** The timestamps of the pings, in order: each is answered by a pong with the same one. */
  function Pongs(inputs: seq<Input>): seq<nat> {
    if inputs == [] then []
    else
      var e := inputs[|inputs| - 1];
      Pongs(inputs[..|inputs| - 1]) + if e.Ping? then [e.timestamp] else []
  }

  /** Runs until it flags the client, or to the end of the given inputs. */
  method MonitorConnection(start: nat, inputs: seq<Input>) returns (flagged: bool, used: nat, pongs: seq<nat>)
    ensures used <= |inputs| && pongs == Pongs(inputs[..used])
    ensures flagged ==> used > 0 && Flags(start, inputs, used - 1) && forall k: nat :: k < used - 1 ==> !Flags(start, inputs, k)
    ensures !flagged ==> used == |inputs| && forall k: nat :: k < |inputs| ==> !Flags(start, inputs, k)
    ensures Ordered(start, inputs) ==>
              forall m: nat :: m < |inputs| && Silent(start, inputs, m) && inputs[|inputs| - 1].at > Deadline(start, inputs, m) ==>
                flagged && inputs[used - 1].at <= DeadBy(start, inputs, m)
  {
    var lastPing: Option<nat> := None;
    flagged, used, pongs := false, 0, [];
    while used < |inputs|
      invariant used <= |inputs| && !flagged
      invariant lastPing == LastPing(inputs[..used]) && pongs == Pongs(inputs[..used])
      invariant forall k: nat :: k < used ==> !Flags(start, inputs, k)
    {
      var e := inputs[used];
      assert inputs[..used + 1][..used] == inputs[..used] && inputs[..used + 1][used] == e;
      used := used + 1;
      match e {
        case Ping(at, timestamp) =>
          lastPing := Some(at);
          pongs := pongs + [timestamp];
        case OtherMessage(_) =>
        case Garbage(_) =>
        case TimedOut(at) =>
          match lastPing {
            case Some(p) =>
              if at > p + MAX_PING_TIMEOUT {
                flagged := true;
                break;
              }
            case None =>
              if at > start + FIRST_PING_TIMEOUT {
                flagged := true;
                break;
              }
          }
        case ReadFailed(_) =>
      }
    }
    if Ordered(start, inputs) {
      forall m: nat | m < |inputs| && Silent(start, inputs, m) && inputs[|inputs| - 1].at > Deadline(start, inputs, m)
        ensures flagged && inputs[used - 1].at <= DeadBy(start, inputs, m)
      {
        ReturnsInTime(start, inputs, m, flagged, used);
      }
    }
  }

  // ----- when the client is declared dead -----

  predicate Ordered(start: nat, inputs: seq<Input>) {
    && (inputs != [] ==> start <= inputs[0].at)
    && forall i, j :: 0 <= i <= j < |inputs| ==> inputs[i].at <= inputs[j].at
  }

  lemma {:induction false} LastPingIs(inputs: seq<Input>)
    ensures LastPing(inputs).None? <==> forall j :: 0 <= j < |inputs| ==> !inputs[j].Ping?
    ensures LastPing(inputs).Some? ==>
              exists j :: 0 <= j < |inputs| && inputs[j].Ping? && inputs[j].at == LastPing(inputs).value
                          && forall i :: j < i < |inputs| ==> !inputs[i].Ping?
  {
    if inputs != [] {
      var n := |inputs| - 1;
      LastPingIs(inputs[..n]);
      if inputs[n].Ping? {
      } else if LastPing(inputs).Some? {
        var j :| 0 <= j < n && inputs[..n][j].Ping? && inputs[..n][j].at == LastPing(inputs).value
                 && forall i :: j < i < n ==> !inputs[..n][i].Ping?;
        assert inputs[j].Ping? && forall i :: j < i < |inputs| ==> !inputs[i].Ping?;
      } else {
        forall j | 0 <= j < |inputs| ensures !inputs[j].Ping? {
          assert j < n ==> inputs[..n][j] == inputs[j];
        }
      }
    }
  }

  /** Soundness and completeness of the decision, without reference to the loop's state: a receive
  timeout flags the client if and only if every ping processed before it is more than five seconds
  old, or there was none and more than fifteen seconds have passed since the start. */
  lemma FlagExactly(start: nat, inputs: seq<Input>, k: nat)
    requires Ordered(start, inputs) && k < |inputs|
    ensures Flags(start, inputs, k) <==>
              && inputs[k].TimedOut?
              && (forall j :: 0 <= j < k && inputs[j].Ping? ==> inputs[k].at > inputs[j].at + 5_000)
              && ((forall j :: 0 <= j < k ==> !inputs[j].Ping?) ==> inputs[k].at > start + 15_000)
  {
    var before := inputs[..k];
    LastPingIs(before);
    assert forall j :: 0 <= j < k ==> before[j] == inputs[j];
  }

  /** A client that has not pinged yet has fifteen seconds, whatever the clock does. */
  lemma FirstPingFlag(start: nat, inputs: seq<Input>, k: nat)
    requires k < |inputs| && forall j :: 0 <= j < k ==> !inputs[j].Ping?
    ensures Flags(start, inputs, k) <==> inputs[k].TimedOut? && inputs[k].at > start + 15_000
  {
    LastPingIs(inputs[..k]);
    assert forall j :: 0 <= j < k ==> inputs[..k][j] == inputs[j];
  }

  /** The pongs: none without an input, one with its timestamp for a ping, none for any other input,
  and those of a sequence in order. */
  lemma {:induction false} PongsInOrder(a: seq<Input>, b: seq<Input>, e: Input)
    ensures Pongs([]) == [] && Pongs([e]) == (if e.Ping? then [e.timestamp] else [])
    ensures Pongs(a + b) == Pongs(a) + Pongs(b)
  {
    assert [e][..0] == [];
    if b == [] {
      assert a + b == a;
    } else {
      PongsInOrder(a, b[..|b| - 1], e);
      assert (a + b)[..|a + b| - 1] == a + b[..|b| - 1];
    }
  }

  // ----- how fast a dead client is found -----

  /** From input `m` on no datagram arrives and no other error occurs, and no wait is longer than the
  read timeout. */
  predicate Silent(start: nat, inputs: seq<Input>, m: nat) {
    forall k :: m <= k < |inputs| ==> inputs[k].TimedOut? && WaitOk(start, inputs, k)
  }

  /** The wait for input `k`, counted from the input before it, lasts at most the read timeout. */
  predicate WaitOk(start: nat, inputs: seq<Input>, k: nat)
    requires k < |inputs|
  {
    inputs[k].at <= Previous(start, inputs, k) + READ_TIMEOUT
  }

  function Previous(start: nat, inputs: seq<Input>, k: nat): nat
    requires k <= |inputs|
  {
    if k == 0 then start else inputs[k - 1].at
  }

  /** The first timeout past a deadline comes within one read timeout of the deadline, or of the
  last datagram if that is later. */
  lemma {:induction false} FirstPast(start: nat, inputs: seq<Input>, m: nat, deadline: nat) returns (k: nat)
    requires m < |inputs| && Silent(start, inputs, m) && inputs[|inputs| - 1].at > deadline
    ensures m <= k < |inputs| && deadline < inputs[k].at
    ensures inputs[k].at <= deadline + READ_TIMEOUT || (k == m && inputs[k].at <= Previous(start, inputs, m) + READ_TIMEOUT)
    decreases |inputs| - m
  {
    if inputs[m].at > deadline {
      k := m;
    } else {
      k := FirstPast(start, inputs, m + 1, deadline);
    }
  }

  lemma {:induction false} SilenceKeepsLastPing(start: nat, inputs: seq<Input>, m: nat, k: nat)
    requires m <= k <= |inputs| && Silent(start, inputs, m)
    ensures LastPing(inputs[..k]) == LastPing(inputs[..m])
    decreases k
  {
    if k > m {
      SilenceKeepsLastPing(start, inputs, m, k - 1);
      assert inputs[..k][..k - 1] == inputs[..k - 1];
    }
  }

  /** When the last ping, or the start if there was none, is too long ago. */
  function Deadline(start: nat, inputs: seq<Input>, m: nat): nat
    requires m <= |inputs|
  {
    match LastPing(inputs[..m])
    case Some(p) => p + MAX_PING_TIMEOUT
    case None => start + FIRST_PING_TIMEOUT
  }

  /** One read timeout after the deadline, or after the last datagram if that was later. */
  function DeadBy(start: nat, inputs: seq<Input>, m: nat): nat
    requires m <= |inputs|
  {
    var (deadline, last) := (Deadline(start, inputs, m), Previous(start, inputs, m));
    (if deadline < last then last else deadline) + READ_TIMEOUT
  }

  /** Once datagrams cease, the monitor flags the client by that moment, in every run that passes
  the deadline. */
  lemma DeadClientBound(start: nat, inputs: seq<Input>, m: nat)
    requires m < |inputs| && Silent(start, inputs, m) && inputs[|inputs| - 1].at > Deadline(start, inputs, m)
    ensures exists k :: m <= k < |inputs| && Flags(start, inputs, k) && inputs[k].at <= DeadBy(start, inputs, m)
  {
    var k := FirstPast(start, inputs, m, Deadline(start, inputs, m));
    SilenceKeepsLastPing(start, inputs, m, k);
    assert Flags(start, inputs, k);
  }

  /** In milliseconds: one second after the later of the last datagram and the deadline, five seconds
  after the last ping or fifteen after the start. That is at most six seconds after the last datagram
  if there was a ping, else at most sixteen after the later of it and the start. */
  lemma DeadByAtMost(start: nat, inputs: seq<Input>, m: nat)
    requires Ordered(start, inputs) && m <= |inputs|
    ensures var (deadline, last) := (match LastPing(inputs[..m]) case Some(p) => p + 5_000 case None => start + 15_000,
                                     Previous(start, inputs, m));
            DeadBy(start, inputs, m) == (if deadline < last then last else deadline) + 1_000
    ensures LastPing(inputs[..m]).Some? ==> DeadBy(start, inputs, m) <= Previous(start, inputs, m) + 6_000
    ensures LastPing(inputs[..m]).None? ==> DeadBy(start, inputs, m) <= Previous(start, inputs, m) + 16_000
  {
    LastPingIs(inputs[..m]);
  }

  /** The loop has then returned: the first input that flags is no later than that. */
  lemma ReturnsInTime(start: nat, inputs: seq<Input>, m: nat, flagged: bool, used: nat)
    requires Ordered(start, inputs) && used <= |inputs|
    requires m < |inputs| && Silent(start, inputs, m) && inputs[|inputs| - 1].at > Deadline(start, inputs, m)
    requires flagged ==> used > 0 && Flags(start, inputs, used - 1)
    requires if flagged then forall k: nat :: k < used - 1 ==> !Flags(start, inputs, k)
             else forall k: nat :: k < |inputs| ==> !Flags(start, inputs, k)
    ensures flagged && inputs[used - 1].at <= DeadBy(start, inputs, m)
  {
    DeadClientBound(start, inputs, m);
    var k: nat :| m <= k < |inputs| && Flags(start, inputs, k) && inputs[k].at <= DeadBy(start, inputs, m);
    assert used - 1 <= k;
  }

  // ----- a client that keeps pinging survives -----

  /** Input `j` is ping number `n` of the client. */
  predicate IsPing(inputs: seq<Input>, j: nat, n: nat, stamp: nat -> nat)
    requires j < |inputs|
  {
    inputs[j].Ping? && inputs[j].timestamp == stamp(n)
  }

  /** The client sends ping `n` at `sent(n)`: it sleeps two seconds between pings, and at most
  `jitter` more. */
  ghost predicate PingsSent(sent: nat -> nat, pause: nat, jitter: nat) {
    forall n: nat :: Gap(sent, n, pause, jitter)
  }

  predicate Gap(sent: nat -> nat, n: nat, pause: nat, jitter: nat) {
    sent(n) + pause <= sent(n + 1) <= sent(n) + pause + jitter
  }

  /** A ping that is not lost is processed within `transit` of being sent; pings come only from the
  client, and only after they were sent. */
  ghost predicate PingsArrive(inputs: seq<Input>, sent: nat -> nat, stamp: nat -> nat, lost: nat -> bool, transit: nat) {
    && (forall n: nat, i: nat :: i < |inputs| && !lost(n) && inputs[i].at > sent(n) + transit ==>
          Processed(inputs, i, n, stamp))
    && (forall j: nat :: j < |inputs| && inputs[j].Ping? ==> exists n: nat :: IsPing(inputs, j, n, stamp))
    && (forall j: nat, n: nat :: j < |inputs| && IsPing(inputs, j, n, stamp) ==> sent(n) <= inputs[j].at)
  }

  ghost predicate Processed(inputs: seq<Input>, i: nat, n: nat, stamp: nat -> nat)
    requires i < |inputs|
  {
    exists j: nat :: j < i && IsPing(inputs, j, n, stamp)
  }

  /** Of any two consecutive pings at most one is lost. */
  ghost predicate NoTwoLost(lost: nat -> bool) {
    forall n: nat :: !(lost(n) && lost(n + 1))
  }

  /** A ping is processed before the time for the first one is over. */
  predicate FirstPingInTime(start: nat, inputs: seq<Input>) {
    forall i: nat :: i < |inputs| && inputs[i].at > start + 15_000 ==>
      exists j: nat :: j < i && inputs[j].Ping?
  }

  /** The last ping sent by a given moment. */
  lemma {:induction false} LatestSent(sent: nat -> nat, jitter: nat, n: nat, now: nat) returns (k: nat)
    requires PingsSent(sent, 2_000, jitter) && sent(n) <= now
    ensures sent(k) <= now < sent(k + 1)
    decreases now - sent(n)
  {
    assert Gap(sent, n, 2_000, jitter);
    if now < sent(n + 1) {
      k := n;
    } else {
      k := LatestSent(sent, jitter, n + 1, now);
    }
  }

  /** Timed survival. If the client pings every two seconds, no two consecutive pings are lost,
  twice the sending jitter plus the transit time is at most one second, and a ping is processed
  within fifteen seconds of the start, then no input of any run makes the server flag it. */
  lemma TimedSurvival(start: nat, inputs: seq<Input>, k: nat,
                      sent: nat -> nat, stamp: nat -> nat, lost: nat -> bool, jitter: nat, transit: nat)
    requires Ordered(start, inputs) && k < |inputs|
    requires PingsSent(sent, 2_000, jitter) && PingsArrive(inputs, sent, stamp, lost, transit)
    requires NoTwoLost(lost) && 2 * jitter + transit <= 1_000 && FirstPingInTime(start, inputs)
    ensures !Flags(start, inputs, k)
  {
    match LastPing(inputs[..k])
    case None =>
      NoPingYet(start, inputs, k);
    case Some(p) =>
      var j := LastPingIndex(inputs, k);
      StillAlive(start, inputs, k, sent, stamp, lost, jitter, transit, j);
  }

  lemma NoPingYet(start: nat, inputs: seq<Input>, k: nat)
    requires k < |inputs| && LastPing(inputs[..k]).None? && FirstPingInTime(start, inputs)
    ensures !Flags(start, inputs, k)
  {
    LastPingIs(inputs[..k]);
    assert forall j: nat :: j < k ==> inputs[..k][j] == inputs[j];
  }

  lemma LastPingIndex(inputs: seq<Input>, k: nat) returns (j: nat)
    requires k < |inputs| && LastPing(inputs[..k]).Some?
    ensures j < k && inputs[j].Ping? && inputs[j].at == LastPing(inputs[..k]).value
    ensures forall i :: j < i < k ==> !inputs[i].Ping?
  {
    var before := inputs[..k];
    LastPingIs(before);
    j :| 0 <= j < k && before[j].Ping? && before[j].at == LastPing(before).value
         && forall i :: j < i < k ==> !before[i].Ping?;
    assert forall i :: j < i < k ==> inputs[i] == before[i];
  }

  lemma StillAlive(start: nat, inputs: seq<Input>, k: nat,
                   sent: nat -> nat, stamp: nat -> nat, lost: nat -> bool, jitter: nat, transit: nat, j: nat)
    requires Ordered(start, inputs) && j < k < |inputs| && NoTwoLost(lost) && 2 * jitter + transit <= 1_000
    requires PingsSent(sent, 2_000, jitter) && PingsArrive(inputs, sent, stamp, lost, transit)
    requires inputs[j].Ping? && LastPing(inputs[..k]) == Some(inputs[j].at)
    requires forall i :: j < i < k ==> !inputs[i].Ping?
    ensures !Flags(start, inputs, k)
  {
    var n: nat :| IsPing(inputs, j, n, stamp);
    var latest := LatestSent(sent, jitter, n, inputs[j].at);
    assert !(lost(latest + 1) && lost(latest + 1 + 1));
    NextPingIsDue(inputs, k, sent, stamp, lost, jitter, transit, latest, j);
  }

  /** Of the two pings after the last one processed, one survives and is processed in time. */
  lemma NextPingIsDue(inputs: seq<Input>, k: nat, sent: nat -> nat, stamp: nat -> nat, lost: nat -> bool,
                      jitter: nat, transit: nat, latest: nat, j: nat)
    requires j < k < |inputs| && forall a, b :: 0 <= a <= b < |inputs| ==> inputs[a].at <= inputs[b].at
    requires PingsSent(sent, 2_000, jitter) && PingsArrive(inputs, sent, stamp, lost, transit)
    requires !(lost(latest + 1) && lost(latest + 2)) && 2 * jitter + transit <= 1_000
    requires sent(latest) <= inputs[j].at < sent(latest + 1)
    requires forall i :: j < i < k ==> !inputs[i].Ping?
    ensures inputs[k].at <= inputs[j].at + MAX_PING_TIMEOUT
  {
    assert Gap(sent, latest, 2_000, jitter) && Gap(sent, latest + 1, 2_000, jitter);
    var n := if lost(latest + 1) then latest + 2 else latest + 1;
    NotYetProcessed(inputs, k, sent, stamp, lost, transit, n, j);
    assert inputs[k].at <= sent(n) + transit;
  }

  /** A ping sent after input `j`, the last ping handled before `k`, has not been handled by `k`. */
  lemma NotYetProcessed(inputs: seq<Input>, k: nat, sent: nat -> nat, stamp: nat -> nat, lost: nat -> bool,
                        transit: nat, n: nat, j: nat)
    requires j < k < |inputs| && forall a, b :: 0 <= a <= b < |inputs| ==> inputs[a].at <= inputs[b].at
    requires PingsArrive(inputs, sent, stamp, lost, transit) && inputs[j].at < sent(n)
    requires forall i :: j < i < k ==> !inputs[i].Ping?
    ensures !Processed(inputs, k, n, stamp)
  {}

  /** The limit is tight: with one millisecond more of transit there is a run that meets everything
  else, waits within the read timeout included, and in which the client is flagged. A stray
  datagram just after the ping shifts the timeouts. */
  lemma SurvivalIsTight(inputs: seq<Input>, sent: nat -> nat, stamp: nat -> nat, lost: nat -> bool)
    requires inputs == [Ping(0, 0), OtherMessage(1), TimedOut(1_001), TimedOut(2_001), TimedOut(3_001),
                        TimedOut(4_001), TimedOut(5_001)]
    requires forall n: nat :: sent(n) == 2_000 * n
    requires forall n: nat :: stamp(n) == n
    requires forall n: nat :: lost(n) <==> n == 1
    ensures Ordered(0, inputs) && forall k: nat :: k < |inputs| ==> WaitOk(0, inputs, k)
    ensures PingsSent(sent, 2_000, 0) && PingsArrive(inputs, sent, stamp, lost, 1_001)
    ensures NoTwoLost(lost) && FirstPingInTime(0, inputs)
    ensures Flags(0, inputs, 6)
  {
    OnlyFirstIsPing(inputs);
    forall n: nat, i: nat | i < |inputs| && !lost(n) && inputs[i].at > sent(n) + 1_001
      ensures Processed(inputs, i, n, stamp)
    {
      assert IsPing(inputs, 0, n, stamp);
    }
    forall j: nat | j < |inputs| && inputs[j].Ping? ensures exists n: nat :: IsPing(inputs, j, n, stamp) {
      assert IsPing(inputs, j, 0, stamp);
    }
  }

  lemma OnlyFirstIsPing(inputs: seq<Input>)
    requires |inputs| == 7 && inputs[0] == Ping(0, 0) && forall j :: 0 < j < 7 ==> !inputs[j].Ping?
    ensures LastPing(inputs[..6]) == Some(0)
  {
    LastPingIs(inputs[..6]);
  }
}
