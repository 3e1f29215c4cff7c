/** Deadlock freedom of the server's locks.

Any number of threads run, one after another, any of the lock routines of the source. The
reader-writer locks are the fair kind: a waiting writer keeps new readers out. No lock is
reentrant: a thread that asks for a lock it holds waits for itself. */
module Locks {

  datatype Lock = Generator | Index | Receivers | Prices | Subscribers

  datatype Op = Read(l: Lock) | Write(l: Lock) | Release(l: Lock)

  datatype Mode = Shared | Exclusive

  /** `prog` is what the thread still has to do; `queued`: it waits as a writer. */
  datatype Thread = Thread(held: map<Lock, Mode>, prog: seq<Op>, queued: bool)

  type State = map<nat, Thread>

  // The lock routines of the source. The generator mutex is only ever locked exclusively.

  datatype Routine =
    | AddReceiver | AddRefused | TouchSubscribers | CloneMaps | RemoveReceiver
    | ListTickers | GenerateQuote | FanOut

  function Program(r: Routine): seq<Op> {
    match r
    case AddReceiver =>
      [Write(Generator), Read(Index), Write(Receivers), Release(Receivers), Release(Index),
       Write(Index), Release(Index), Release(Generator)]
    case AddRefused => [Write(Generator), Read(Index), Release(Index), Release(Generator)]
    case TouchSubscribers => [Write(Subscribers), Release(Subscribers)]
    case CloneMaps => [Write(Generator), Release(Generator)]
    case RemoveReceiver =>
      [Read(Receivers), Release(Receivers), Write(Receivers), Release(Receivers), Write(Index), Release(Index)]
    case ListTickers => [Read(Prices), Release(Prices)]
    case GenerateQuote => [Read(Prices), Release(Prices), Write(Prices), Release(Prices)]
    case FanOut => [Read(Index), Release(Index), Read(Receivers), Release(Receivers)]
  }

  // ----- steps -----

  /** No writer holds the lock and none is waiting for it. */
  predicate Readable(s: State, l: Lock) {
    && (forall x :: x in s && l in s[x].held ==> s[x].held[l] == Shared)
    && (forall x :: x in s && s[x].queued && s[x].prog != [] ==> s[x].prog[0] != Write(l))
  }

  predicate Writable(s: State, l: Lock) {
    forall x :: x in s ==> l !in s[x].held
  }

  predicate CanAdvance(s: State, x: nat) {
    && x in s && s[x].prog != []
    && match s[x].prog[0]
       case Read(l) => Readable(s, l)
       case Write(l) => Writable(s, l)
       case Release(l) => l in s[x].held
  }

  function Advanced(th: Thread): Thread
    requires th.prog != []
  {
    var rest := th.prog[1..];
    match th.prog[0]
    case Read(l) => Thread(th.held[l := Shared], rest, false)
    case Write(l) => Thread(th.held[l := Exclusive], rest, false)
    case Release(l) => Thread(th.held - {l}, rest, false)
  }

  /** A granted request or a release. */
  predicate Advance(s: State, x: nat, s': State) {
    CanAdvance(s, x) && s' == s[x := Advanced(s[x])]
  }

  /** A writer that is not granted its lock at once starts to wait. */
  predicate Queue(s: State, x: nat, s': State) {
    && x in s && s[x].prog != [] && s[x].prog[0].Write? && !CanAdvance(s, x)
    && s' == s[x := s[x].(queued := true)]
  }

  /** A new thread, or one that finished its last routine, starts a routine. */
  predicate Begin(s: State, x: nat, r: Routine, s': State) {
    && (x in s ==> s[x].prog == [])
    && s' == s[x := Thread(if x in s then s[x].held else map[], Program(r), false)]
  }

  ghost predicate Next(s: State, s': State) {
    exists x :: Advance(s, x, s') || Queue(s, x, s') || Starts(s, x, s')
  }

  ghost predicate Starts(s: State, x: nat, s': State) {
    exists r :: Begin(s, x, r, s')
  }

  ghost predicate Run(b: seq<State>) {
    |b| > 0 && forall i :: 0 <= i < |b| - 1 ==> StepAt(b, i)
  }

  ghost predicate StepAt(b: seq<State>, i: nat)
    requires i < |b| - 1
  {
    Next(b[i], b[i + 1])
  }

  // ----- the locking order -----

  function Rank(l: Lock): nat {
    match l
    case Generator => 0
    case Index => 1
    case Receivers => 2
    case Prices => 3
    case Subscribers => 4
  }

  /** Every lock is asked for above all locks held, is released only when held, and nothing is
  held at the end. */
  predicate Ordered(held: set<Lock>, prog: seq<Op>)
    decreases |prog|
  {
    if prog == [] then held == {}
    else
      match prog[0]
      case Release(l) => l in held && Ordered(held - {l}, prog[1..])
      case Read(l) => (forall h :: h in held ==> Rank(h) < Rank(l)) && Ordered(held + {l}, prog[1..])
      case Write(l) => (forall h :: h in held ==> Rank(h) < Rank(l)) && Ordered(held + {l}, prog[1..])
  }

  ghost predicate Inv(s: State) {
    forall x :: x in s ==> Ordered(s[x].held.Keys, s[x].prog)
  }

  lemma AddReceiverOrdered()
    ensures Ordered({}, Program(AddReceiver)) && Ordered({}, Program(AddRefused))
  {}

  lemma RemoveReceiverOrdered()
    ensures Ordered({}, Program(RemoveReceiver)) && Ordered({}, Program(FanOut))
  {}

  lemma ShortOrdered()
    ensures Ordered({}, Program(TouchSubscribers)) && Ordered({}, Program(CloneMaps))
    ensures Ordered({}, Program(ListTickers)) && Ordered({}, Program(GenerateQuote))
  {}

  /** Every routine of the source asks for locks in the order generator, index, receivers; prices
  and subscribers are never held with another lock. */
  lemma RoutinesOrdered(r: Routine)
    ensures Ordered({}, Program(r))
  {
    match r
    case AddReceiver => AddReceiverOrdered();
    case AddRefused => AddReceiverOrdered();
    case RemoveReceiver => RemoveReceiverOrdered();
    case FanOut => RemoveReceiverOrdered();
    case _ => ShortOrdered();
  }

  lemma StepInv(s: State, s': State)
    requires Inv(s) && Next(s, s')
    ensures Inv(s')
  {
    var x :| Advance(s, x, s') || Queue(s, x, s') || Starts(s, x, s');
    if Advance(s, x, s') {
      AdvancedOrdered(s[x]);
    } else if !Queue(s, x, s') {
      var r :| Begin(s, x, r, s');
      RoutinesOrdered(r);
      assert x in s ==> Ordered(s[x].held.Keys, []);
      assert s'[x].held.Keys == {};
    }
  }

  lemma AdvancedOrdered(th: Thread)
    requires th.prog != [] && Ordered(th.held.Keys, th.prog)
    ensures Ordered(Advanced(th).held.Keys, Advanced(th).prog)
  {
    match th.prog[0]
    case Read(l) => assert th.held[l := Shared].Keys == th.held.Keys + {l};
    case Write(l) => assert th.held[l := Exclusive].Keys == th.held.Keys + {l};
    case Release(l) => assert (th.held - {l}).Keys == th.held.Keys - {l};
  }

  lemma {:induction false} RunInv(b: seq<State>, i: nat)
    requires Run(b) && b[0] == map[] && i < |b|
    ensures Inv(b[i])
  {
    if i > 0 {
      RunInv(b, i - 1);
      assert StepAt(b, i - 1);
      StepInv(b[i - 1], b[i]);
    }
  }

  // ----- exclusion -----

  /** Whoever holds a lock exclusively holds it alone. */
  ghost predicate Exclusion(s: State) {
    forall x, y, l :: x in s && y in s && x != y && l in s[x].held && l in s[y].held ==>
      s[x].held[l] == Shared && s[y].held[l] == Shared
  }

  /** Two threads may hold what they hold at once. */
  predicate Compatible(a: map<Lock, Mode>, b: map<Lock, Mode>) {
    forall l :: l in a && l in b ==> a[l] == Shared && b[l] == Shared
  }

  lemma AdvancedCompatible(s: State, x: nat, y: nat)
    requires CanAdvance(s, x) && y in s && y != x && Compatible(s[x].held, s[y].held)
    ensures Compatible(Advanced(s[x]).held, s[y].held)
  {}

  lemma AdvanceExclusion(s: State, x: nat, s': State)
    requires Exclusion(s) && Advance(s, x, s')
    ensures Exclusion(s')
  {
    forall y | y in s && y != x ensures Compatible(s'[x].held, s[y].held) {
      AdvancedCompatible(s, x, y);
    }
  }

  lemma StepExclusion(s: State, s': State)
    requires Exclusion(s) && Next(s, s')
    ensures Exclusion(s')
  {
    var x :| Advance(s, x, s') || Queue(s, x, s') || Starts(s, x, s');
    if Advance(s, x, s') {
      AdvanceExclusion(s, x, s');
    }
  }

  /** In every reachable state: two threads hold the same lock only if both hold it shared, so at most
  one thread is inside the generator mutex, and no thread reads a map that another one writes. */
  lemma {:induction false} MutualExclusion(b: seq<State>, i: nat)
    requires Run(b) && b[0] == map[] && i < |b|
    ensures forall x, y, l :: x in b[i] && y in b[i] && x != y && l in b[i][x].held && l in b[i][y].held ==>
              b[i][x].held[l] == Shared && b[i][y].held[l] == Shared
  {
    if i > 0 {
      MutualExclusion(b, i - 1);
      assert StepAt(b, i - 1);
      StepExclusion(b[i - 1], b[i]);
    }
  }

  /** A waiting writer is not overtaken: no thread is granted a lock for reading while another one
  waits to write it. */
  lemma WriterNotOvertaken(s: State, x: nat, s': State, w: nat, l: Lock)
    requires Advance(s, x, s') && w in s && s[w].queued && s[w].prog != [] && s[w].prog[0] == Write(l)
    ensures s[x].prog[0] != Read(l)
  {}

  /** A reader is let in beside other readers, and then holds the lock shared; a writer that finds the
  lock held starts to wait for it. */
  lemma Requests(s: State, x: nat, l: Lock) returns (s': State)
    requires x in s && s[x].prog != [] && l !in s[x].held
    requires s[x].prog[0] == Read(l) || (s[x].prog[0] == Write(l) && exists y :: y in s && l in s[y].held)
    requires s[x].prog[0] == Read(l) ==>
               && (forall y :: y in s && l in s[y].held ==> s[y].held[l] == Shared)
               && (forall y :: y in s && s[y].queued && s[y].prog != [] ==> s[y].prog[0] != Write(l))
    ensures Next(s, s') && x in s'
    ensures s[x].prog[0] == Read(l) ==> l in s'[x].held && s'[x].held[l] == Shared && s'[x].prog == s[x].prog[1..]
    ensures s[x].prog[0] == Write(l) ==> s' == s[x := s[x].(queued := true)]
  {
    if s[x].prog[0] == Read(l) {
      s' := s[x := Advanced(s[x])];
      assert Advance(s, x, s');
    } else {
      s' := s[x := s[x].(queued := true)];
      assert Queue(s, x, s');
    }
  }

  /** What a routine holds after its first `n` operations. */
  function HeldAfter(prog: seq<Op>, n: nat): map<Lock, Mode>
    requires n <= |prog|
  {
    if n == 0 then map[]
    else
      var before := HeldAfter(prog, n - 1);
      match prog[n - 1]
      case Read(l) => before[l := Shared]
      case Write(l) => before[l := Exclusive]
      case Release(l) => before - {l}
  }

  /** At some point the routine holds exactly these locks. */
  predicate Enters(r: Routine, held: map<Lock, Mode>) {
    exists n :: 0 <= n <= |Program(r)| && HeldAfter(Program(r), n) == held
  }

  /** Under which locks the source touches its maps: adding checks and inserts with the mutex and the
  index held and publishes under the mutex; removing holds one lock at a time; the fan-out takes its
  snapshot and walks under single read guards; a price is read and written in two sections. */
  lemma AddSections()
    ensures Enters(AddRefused, map[Generator := Exclusive, Index := Shared])
    ensures Enters(AddReceiver, map[Generator := Exclusive, Index := Shared, Receivers := Exclusive])
    ensures Enters(AddReceiver, map[Generator := Exclusive, Index := Exclusive])
  {
    var g := HeldAfter(Program(AddReceiver), 1);
    var i := HeldAfter(Program(AddReceiver), 2);
    assert HeldAfter(Program(AddReceiver), 3) == map[Generator := Exclusive, Index := Shared, Receivers := Exclusive];
    var r := HeldAfter(Program(AddReceiver), 4);
    assert r == map[Generator := Exclusive, Index := Shared];
    assert HeldAfter(Program(AddReceiver), 5) == map[Generator := Exclusive];
    assert HeldAfter(Program(AddReceiver), 6) == map[Generator := Exclusive, Index := Exclusive];
    assert HeldAfter(Program(AddRefused), 1) == map[Generator := Exclusive];
    assert HeldAfter(Program(AddRefused), 2) == map[Generator := Exclusive, Index := Shared];
  }

  lemma RemoveSections()
    ensures Enters(RemoveReceiver, map[Receivers := Shared]) && Enters(RemoveReceiver, map[Receivers := Exclusive])
    ensures Enters(RemoveReceiver, map[Index := Exclusive])
    ensures Enters(FanOut, map[Index := Shared]) && Enters(FanOut, map[Receivers := Shared])
  {
    var p := Program(RemoveReceiver);
    assert HeldAfter(p, 1) == map[Receivers := Shared] && HeldAfter(p, 2) == map[];
    assert HeldAfter(p, 3) == map[Receivers := Exclusive] && HeldAfter(p, 4) == map[];
    assert HeldAfter(p, 5) == map[Index := Exclusive];
    var f := Program(FanOut);
    assert HeldAfter(f, 1) == map[Index := Shared] && HeldAfter(f, 2) == map[];
    assert HeldAfter(f, 3) == map[Receivers := Shared];
  }

  lemma ShortSections()
    ensures Enters(GenerateQuote, map[Prices := Shared]) && Enters(GenerateQuote, map[Prices := Exclusive])
    ensures Enters(ListTickers, map[Prices := Shared]) && Enters(CloneMaps, map[Generator := Exclusive])
    ensures Enters(TouchSubscribers, map[Subscribers := Exclusive])
  {
    var p := Program(GenerateQuote);
    assert HeldAfter(p, 1) == map[Prices := Shared] && HeldAfter(p, 2) == map[];
    assert HeldAfter(p, 3) == map[Prices := Exclusive];
    assert HeldAfter(Program(ListTickers), 1) == map[Prices := Shared];
    assert HeldAfter(Program(CloneMaps), 1) == map[Generator := Exclusive];
    assert HeldAfter(Program(TouchSubscribers), 1) == map[Subscribers := Exclusive];
  }

  // ----- progress -----

  function Wanted(th: Thread): Lock
    requires th.prog != []
  {
    th.prog[0].l
  }

  /** From any thread with something to do, following who holds or waits ahead of whom leads to a
  thread that can move: each hop goes up in the lock order, or from a reader to a waiting writer.
  That thread holds a lock, or is a waiting writer whose turn has come. */
  lemma FindMover(s: State, x: nat) returns (h: nat)
    requires Inv(s) && x in s && s[x].prog != []
    ensures CanAdvance(s, h)
    ensures h == x || s[h].held != map[] || (s[h].queued && s[h].prog[0].Write?)
    decreases if s[x].prog[0].Release? then 0 else 5 - Rank(Wanted(s[x])), if s[x].prog[0].Read? then 1 else 0
  {
    var l := Wanted(s[x]);
    if CanAdvance(s, x) {
      h := x;
    } else if y :| y in s && l in s[y].held && (s[x].prog[0].Write? || s[y].held[l] == Exclusive) {
      h := FindMover(s, y);
    } else {
      var w :| w in s && s[w].queued && s[w].prog != [] && s[w].prog[0] == Write(l);
      h := FindMover(s, w);
    }
  }

  /** No deadlock: in every reachable state in which some thread waits for a lock, a thread that
  holds a lock, or a waiting writer whose turn has come, can move. */
  lemma NoDeadlock(b: seq<State>, i: nat, x: nat)
    requires Run(b) && b[0] == map[] && i < |b|
    requires x in b[i] && b[i][x].prog != [] && !CanAdvance(b[i], x)
    ensures exists h :: CanAdvance(b[i], h) && (b[i][h].held != map[] || (b[i][h].queued && b[i][h].prog[0].Write?))
  {
    RunInv(b, i);
    var h := FindMover(b[i], x);
  }

  // ----- every request is granted in the end, if the threads keep being scheduled -----

  /** All operations the threads still have to do. */
  ghost function Work(s: State): nat
    decreases |s|
  {
    if s == map[] then 0
    else
      var x :| x in s;
      |s[x].prog| + Work(s - {x})
  }

  lemma {:induction false} WorkSplit(s: State, x: nat)
    requires x in s
    ensures Work(s) == |s[x].prog| + Work(s - {x})
    decreases |s|
  {
    var y :| y in s && Work(s) == |s[y].prog| + Work(s - {y});
    if y != x {
      WorkSplit(s - {y}, x);
      WorkSplit(s - {x}, y);
      assert s - {y} - {x} == s - {x} - {y};
    }
  }

  lemma AdvanceWork(s: State, x: nat, s': State)
    requires Advance(s, x, s')
    ensures Work(s') < Work(s)
  {
    WorkSplit(s, x);
    WorkSplit(s', x);
    assert s' - {x} == s - {x};
  }

  ghost predicate Grants(s: State, s': State) {
    exists x :: Advance(s, x, s')
  }

  ghost predicate Schedule(b: seq<State>) {
    |b| > 0 && forall i :: 0 <= i < |b| - 1 ==> GrantAt(b, i)
  }

  ghost predicate GrantAt(b: seq<State>, i: nat)
    requires i < |b| - 1
  {
    Grants(b[i], b[i + 1])
  }

  ghost predicate AllDone(s: State) {
    forall x :: x in s ==> s[x].prog == [] && s[x].held == map[]
  }

  lemma Prepend(s: State, b: seq<State>)
    requires Schedule(b) && Grants(s, b[0])
    ensures Schedule([s] + b)
  {
    var c := [s] + b;
    forall i | 0 <= i < |c| - 1 ensures GrantAt(c, i) {
      if i > 0 {
        assert GrantAt(b, i - 1);
      }
    }
  }

  lemma NothingHeld(s: State)
    requires Inv(s) && forall x :: x in s ==> s[x].prog == []
    ensures AllDone(s)
  {
    forall x | x in s ensures s[x].held == map[] {
      assert Ordered(s[x].held.Keys, []);
    }
  }

  lemma SomeMove(s: State, x: nat) returns (s': State)
    requires Inv(s) && x in s && s[x].prog != []
    ensures Grants(s, s') && Inv(s') && Work(s') < Work(s)
  {
    var h := FindMover(s, x);
    s' := s[h := Advanced(s[h])];
    assert Advance(s, h, s');
    AdvanceWork(s, h, s');
    assert Next(s, s');
    StepInv(s, s');
  }

  lemma {:induction false} AllFinish(s: State) returns (b: seq<State>)
    requires Inv(s)
    ensures Schedule(b) && b[0] == s && AllDone(b[|b| - 1])
    decreases Work(s)
  {
    if x :| x in s && s[x].prog != [] {
      var s' := SomeMove(s, x);
      b := AllFinish(s');
      Prepend(s, b);
      b := [s] + b;
    } else {
      NothingHeld(s);
      b := [s];
    }
  }

  /** From every reachable state the routines in progress can all be run to their end, so no lock
  request is ever beyond being granted. */
  lemma EveryRequestCanBeGranted(b: seq<State>, i: nat)
    requires Run(b) && b[0] == map[] && i < |b|
    ensures exists c :: Schedule(c) && c[0] == b[i] && AllDone(c[|c| - 1])
  {
    RunInv(b, i);
    var c := AllFinish(b[i]);
  }

  /** Any routine can be started by a new thread in any reachable state, and all routines in progress
  can then be run to their end. */
  lemma EveryRoutineRuns(b: seq<State>, i: nat, x: nat, r: Routine) returns (s': State, c: seq<State>)
    requires Run(b) && b[0] == map[] && i < |b| && x !in b[i]
    ensures Next(b[i], s') && s' == b[i][x := Thread(map[], Program(r), false)]
    ensures Schedule(c) && c[0] == s' && AllDone(c[|c| - 1])
  {
    RunInv(b, i);
    s' := b[i][x := Thread(map[], Program(r), false)];
    assert Begin(b[i], x, r, s');
    assert Starts(b[i], x, s');
    StepInv(b[i], s');
    c := AllFinish(s');
  }
}
