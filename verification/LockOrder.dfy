/** Deadlock freedom of the broker's mutexes.

    The locking behaviour of each function is a small structured program. Programs whose nested
    locks climb one fixed rank are accepted by a static check; any number of goroutines running
    accepted programs, in any interleaving, never reaches a circular wait. */
module LockOrder {

  datatype Class = ServerMu | ConnectionMu | BrokerMu | ExchangeMu | QueueMu | ConsumerMu

  function Rank(c: Class): nat {
    match c
    case ServerMu => 1
    case ConnectionMu => 2
    case BrokerMu => 3
    case ExchangeMu => 4
    case QueueMu => 5
    case ConsumerMu => 6
  }

  /** `Hold(c, p)` locks some object of class `c` around `p`; `Sleep` waits on the condition variable
      of the queue locked innermost. Loops and branches are left open. */
  datatype Prog =
    | Skip
    | Hold(class_: Class, body: Prog)
    | Then(first: Prog, second: Prog)
    | Either(left: Prog, right: Prog)
    | Loop(again: Prog)
    | Sleep

  // ---------------------------------------------------------------- the broker's functions

  function Lock(c: Class): Prog {
    Hold(c, Skip)
  }

  const REGISTER_CONSUMER := Lock(QueueMu)
  const UNREGISTER_CONSUMER := Hold(QueueMu, Either(Skip, Lock(ConsumerMu)))
  const SELECT_CONSUMER := Loop(Lock(ConsumerMu))
  const DISPATCH_LOOP :=
    Loop(Then(
      Hold(QueueMu, Then(Loop(Sleep), Then(SELECT_CONSUMER, Either(Sleep, Lock(ConsumerMu))))),
      Either(Skip, Hold(QueueMu, Lock(ConsumerMu)))))
  const ENQUEUE := Lock(QueueMu)
  const DECLARE_QUEUE := Lock(BrokerMu)
  const DECLARE_EXCHANGE := Lock(BrokerMu)
  const BIND_QUEUE := Then(Lock(BrokerMu), Either(Skip, Lock(ExchangeMu)))
  const PUBLISH := Then(Lock(BrokerMu), Either(Skip, Then(Lock(ExchangeMu), Loop(Then(Lock(QueueMu), ENQUEUE)))))
  const CONSUME := Then(Lock(BrokerMu), Either(Skip, REGISTER_CONSUMER))
  const ACK := Then(Lock(BrokerMu), Either(Skip, Hold(QueueMu, Loop(Lock(ConsumerMu)))))
  const HANDLE_ACK := Then(Loop(Lock(ConsumerMu)), Either(Skip, ACK))
  const HANDLE_NACK := Then(Loop(Lock(ConsumerMu)), Either(Skip, Either(Lock(QueueMu), PUBLISH)))
  const CHANNEL_CLEANUP := Loop(UNREGISTER_CONSUMER)
  const ROUTE :=
    Either(PUBLISH, Either(CONSUME, Either(HANDLE_ACK, Either(HANDLE_NACK,
      Either(DECLARE_QUEUE, Either(DECLARE_EXCHANGE, BIND_QUEUE))))))
  const CHANNEL_OPEN := Lock(ConnectionMu)
  const CHANNEL_CLOSE := Then(Lock(ConnectionMu), Either(Skip, CHANNEL_CLEANUP))
  const HANDLE := Either(CHANNEL_OPEN, Either(CHANNEL_CLOSE, Then(Lock(ConnectionMu), Either(Skip, ROUTE))))
  const CONNECTION_CLEANUP := Hold(ConnectionMu, CHANNEL_CLEANUP)
  const HANDLE_CONNECTION :=
    Then(Lock(ServerMu), Then(Loop(HANDLE), Then(CONNECTION_CLEANUP, Lock(ServerMu))))
  const COLLECT :=
    Then(Lock(ServerMu), Hold(BrokerMu, Loop(Hold(QueueMu, Loop(Lock(ConsumerMu))))))

  /** The goroutines of the server: one per queue, one per connection, and metric scrapes. */
  predicate BrokerProgram(p: Prog) {
    p == DISPATCH_LOOP || p == HANDLE_CONNECTION || p == COLLECT
  }

  // ---------------------------------------------------------------- the static check

  /** Run with the locks held so far ranked at most `r`, `p` only climbs, and sleeps only right
      inside a queue lock. */
  predicate Climbs(p: Prog, r: nat) {
    match p
    case Skip => true
    case Hold(c, b) => r < Rank(c) && Climbs(b, Rank(c))
    case Then(a, b) => Climbs(a, r) && Climbs(b, r)
    case Either(a, b) => Climbs(a, r) && Climbs(b, r)
    case Loop(a) => Climbs(a, r)
    case Sleep => r == Rank(QueueMu)
  }

  lemma DispatchLoopClimbs()
    ensures Climbs(DISPATCH_LOOP, 0)
  {
    var scan := Then(SELECT_CONSUMER, Either(Sleep, Lock(ConsumerMu)));
    assert Climbs(Lock(ConsumerMu), Rank(QueueMu));
    assert Climbs(SELECT_CONSUMER, Rank(QueueMu));
    assert Climbs(scan, Rank(QueueMu));
    assert Climbs(Loop(Sleep), Rank(QueueMu));
  }

  lemma RouteClimbs()
    ensures Climbs(ROUTE, 0)
  {
    assert Climbs(PUBLISH, 0) && Climbs(CONSUME, 0) && Climbs(HANDLE_ACK, 0);
    assert Climbs(HANDLE_NACK, 0) by {
      assert Climbs(PUBLISH, 0);
    }
    assert Climbs(Either(DECLARE_QUEUE, Either(DECLARE_EXCHANGE, BIND_QUEUE)), 0);
  }

  lemma HandleClimbs()
    ensures Climbs(HANDLE, 0)
  {
    RouteClimbs();
    assert Climbs(Then(Lock(ConnectionMu), Either(Skip, ROUTE)), 0);
    assert Climbs(UNREGISTER_CONSUMER, 0);
    assert Climbs(CHANNEL_CLOSE, 0);
  }

  lemma HandleConnectionClimbs()
    ensures Climbs(HANDLE_CONNECTION, 0)
  {
    HandleClimbs();
    assert Climbs(UNREGISTER_CONSUMER, Rank(ConnectionMu));
    assert Climbs(CONNECTION_CLEANUP, 0);
    assert Climbs(Loop(HANDLE), 0);
  }

  lemma CollectClimbs()
    ensures Climbs(COLLECT, 0)
  {
    assert Climbs(Lock(ConsumerMu), Rank(QueueMu));
    assert Climbs(Hold(QueueMu, Loop(Lock(ConsumerMu))), Rank(BrokerMu));
  }

  /** Every goroutine of the broker nests its locks in rank order. */
  lemma BrokerClimbs(p: Prog)
    requires BrokerProgram(p)
    ensures Climbs(p, 0)
  {
    DispatchLoopClimbs();
    HandleConnectionClimbs();
    CollectClimbs();
  }

  // ---------------------------------------------------------------- goroutines

  type Object = nat
  datatype Mutex = Mutex(class_: Class, object_: Object)

  /** `Acquire(m)` waits for exactly `m`: a goroutine decides which object it locks before it blocks. */
  datatype Item = Run(p: Prog) | Release | Acquire(m: Mutex)

  /** Locks held, outermost first, and what remains to be done. */
  datatype Thread = Thread(held: seq<Mutex>, todo: seq<Item>)

  type Threads = seq<Thread>

  predicate Holds(t: Thread, m: Mutex) {
    m in t.held
  }

  predicate FreeIn(ts: Threads, m: Mutex) {
    forall i :: 0 <= i < |ts| ==> !Holds(ts[i], m)
  }

  /** The mutex a thread is blocked on, or one that it may decide to lock next. */
  predicate Wants(t: Thread, m: Mutex) {
    && t.todo != []
    && match t.todo[0]
       case Run(Hold(c, _)) => m.class_ == c
       case Acquire(l) => m == l
       case _ => false
  }

  predicate AtLock(t: Thread) {
    t.todo != [] && t.todo[0].Run? && t.todo[0].p.Hold?
  }

  /** The thread has decided to lock `m` next. */
  function Picked(t: Thread, m: Mutex): Thread
    requires AtLock(t)
  {
    Thread(t.held, [Acquire(m), Run(t.todo[0].p.body), Release] + t.todo[1..])
  }

  /** One move of one thread. `m` is the mutex involved, where there is one. */
  predicate Moves(ts: Threads, t: Thread, t': Thread, m: Mutex) {
    && t.todo != []
    && var rest := t.todo[1..];
    match t.todo[0]
    case Run(Skip) => t' == Thread(t.held, rest)
    case Run(Hold(c, b)) => m.class_ == c && t' == Picked(t, m)
    case Run(Then(a, b)) => t' == Thread(t.held, [Run(a), Run(b)] + rest)
    case Run(Either(a, b)) => t' == Thread(t.held, [Run(a)] + rest) || t' == Thread(t.held, [Run(b)] + rest)
    case Run(Loop(a)) => t' == Thread(t.held, rest) || t' == Thread(t.held, [Run(a), Run(Loop(a))] + rest)
    case Run(Sleep) =>
      && t.held != [] && m == t.held[|t.held| - 1]
      && t' == Thread(t.held[..|t.held| - 1], [Acquire(m)] + rest)
    case Release => t.held != [] && t' == Thread(t.held[..|t.held| - 1], rest)
    case Acquire(l) => m == l && FreeIn(ts, m) && t' == Thread(t.held + [m], rest)
  }

  ghost predicate Next(ts: Threads, ts': Threads) {
    // a goroutine starts
    || (exists p :: BrokerProgram(p) && ts' == ts + [Thread([], [Run(p)])])
    // or one of them moves
    || (exists i, m :: 0 <= i < |ts| && |ts'| == |ts| && ts' == ts[i := ts'[i]] && Moves(ts, ts[i], ts'[i], m))
  }

  ghost predicate IsRun(run: seq<Threads>) {
    && run != [] && run[0] == []
    && forall i :: 0 <= i < |run| - 1 ==> Next(run[i], run[i + 1])
  }

  // ---------------------------------------------------------------- the invariant

  function Top(held: seq<Mutex>): nat {
    if held == [] then 0 else Rank(held[|held| - 1].class_)
  }

  predicate Ascending(held: seq<Mutex>) {
    forall i, j :: 0 <= i < j < |held| ==> Rank(held[i].class_) < Rank(held[j].class_)
  }

  /** What remains climbs from what is held, and gives back exactly what is held. */
  predicate Disciplined(held: seq<Mutex>, todo: seq<Item>)
    decreases |todo|
  {
    if todo == [] then held == []
    else match todo[0]
      case Run(p) => Climbs(p, Top(held)) && Disciplined(held, todo[1..])
      case Release => held != [] && Disciplined(held[..|held| - 1], todo[1..])
      case Acquire(m) => Top(held) < Rank(m.class_) && Disciplined(held + [m], todo[1..])
  }

  predicate ThreadOk(t: Thread) {
    Ascending(t.held) && Disciplined(t.held, t.todo)
  }

  ghost predicate Exclusive(ts: Threads) {
    forall i, j, m :: 0 <= i < |ts| && 0 <= j < |ts| && Holds(ts[i], m) && Holds(ts[j], m) ==> i == j
  }

  ghost predicate AllOk(ts: Threads) {
    (forall i :: 0 <= i < |ts| ==> ThreadOk(ts[i])) && Exclusive(ts)
  }

  // ---------------------------------------------------------------- moves keep it

  lemma MoveKeepsThread(ts: Threads, t: Thread, t': Thread, m: Mutex)
    requires ThreadOk(t) && Moves(ts, t, t', m)
    ensures ThreadOk(t')
  {
    match t.todo[0] {
      case Run(Hold(c, b)) => PickKeeps(t, m);
      case Run(Then(a, b)) => PushTwo(t.held, a, b, t.todo[1..]);
      case Run(Either(a, b)) =>
        PushOne(t.held, a, t.todo[1..]);
        PushOne(t.held, b, t.todo[1..]);
      case Run(Loop(a)) => PushTwo(t.held, a, Loop(a), t.todo[1..]);
      case Run(Sleep) => SleepKeeps(t, m);
      case Acquire(l) => AcquireKeeps(t, l);
      case _ =>
    }
  }

  lemma PushOne(held: seq<Mutex>, a: Prog, rest: seq<Item>)
    requires Disciplined(held, rest) && Climbs(a, Top(held))
    ensures Disciplined(held, [Run(a)] + rest)
  {
    assert ([Run(a)] + rest)[1..] == rest;
  }

  lemma PushTwo(held: seq<Mutex>, a: Prog, b: Prog, rest: seq<Item>)
    requires Disciplined(held, rest) && Climbs(a, Top(held)) && Climbs(b, Top(held))
    ensures Disciplined(held, [Run(a), Run(b)] + rest)
  {
    PushOne(held, b, rest);
    PushOne(held, a, [Run(b)] + rest);
    assert [Run(a), Run(b)] + rest == [Run(a)] + ([Run(b)] + rest);
  }

  lemma AcquireKeeps(t: Thread, l: Mutex)
    requires ThreadOk(t) && t.todo != [] && t.todo[0] == Acquire(l)
    ensures ThreadOk(Thread(t.held + [l], t.todo[1..]))
  {
  }

  /** A move acquires at most the mutex it names, and only when that is free. */
  lemma MoveHolds(ts: Threads, t: Thread, t': Thread, m: Mutex)
    requires Moves(ts, t, t', m)
    ensures forall l :: Holds(t', l) ==> Holds(t, l) || (l == m && FreeIn(ts, m))
  {
  }

  lemma PickKeeps(t: Thread, m: Mutex)
    requires ThreadOk(t) && AtLock(t) && m.class_ == t.todo[0].p.class_
    ensures ThreadOk(Picked(t, m))
  {
    var rest, held, t' := t.todo[1..], t.held + [m], Picked(t, m);
    var body := t.todo[0].p.body;
    assert held[..|held| - 1] == t.held;
    assert ([Release] + rest)[1..] == rest;
    assert Disciplined(held, [Release] + rest);
    assert ([Run(body), Release] + rest)[1..] == [Release] + rest;
    assert Disciplined(held, [Run(body), Release] + rest);
    assert t'.todo[1..] == [Run(body), Release] + rest;
  }

  lemma SleepKeeps(t: Thread, m: Mutex)
    requires ThreadOk(t) && t.todo != [] && t.todo[0] == Run(Sleep) && t.held != [] && m == t.held[|t.held| - 1]
    ensures ThreadOk(Thread(t.held[..|t.held| - 1], [Acquire(m)] + t.todo[1..]))
  {
    var held, rest := t.held[..|t.held| - 1], t.todo[1..];
    assert held + [m] == t.held;
    assert ([Acquire(m)] + rest)[1..] == rest;
  }

  lemma MoveKeepsAll(ts: Threads, ts': Threads, i: nat, m: Mutex)
    requires AllOk(ts) && i < |ts| && |ts'| == |ts| && ts' == ts[i := ts'[i]] && Moves(ts, ts[i], ts'[i], m)
    ensures AllOk(ts')
  {
    MoveKeepsThread(ts, ts[i], ts'[i], m);
    MoveHolds(ts, ts[i], ts'[i], m);
    forall a, b, l | 0 <= a < |ts'| && 0 <= b < |ts'| && Holds(ts'[a], l) && Holds(ts'[b], l) ensures a == b {
      assert a != i ==> Holds(ts[a], l);
      assert b != i ==> Holds(ts[b], l);
    }
  }

  lemma NextKeepsAll(ts: Threads, ts': Threads)
    requires AllOk(ts) && Next(ts, ts')
    ensures AllOk(ts')
  {
    if p :| BrokerProgram(p) && ts' == ts + [Thread([], [Run(p)])] {
      BrokerClimbs(p);
      assert ThreadOk(ts'[|ts|]);
      forall a, b, l | 0 <= a < |ts'| && 0 <= b < |ts'| && Holds(ts'[a], l) && Holds(ts'[b], l) ensures a == b {
        assert a < |ts| && b < |ts|;
        assert Holds(ts[a], l) && Holds(ts[b], l);
      }
    } else {
      var i, m :| 0 <= i < |ts| && |ts'| == |ts| && ts' == ts[i := ts'[i]] && Moves(ts, ts[i], ts'[i], m);
      MoveKeepsAll(ts, ts', i, m);
    }
  }

  lemma {:induction false} RunKeepsAll(run: seq<Threads>, k: nat)
    requires IsRun(run) && k < |run|
    ensures AllOk(run[k])
  {
    if k > 0 {
      RunKeepsAll(run, k - 1);
      assert Next(run[k - 1], run[k]);
      NextKeepsAll(run[k - 1], run[k]);
    }
  }

  // ---------------------------------------------------------------- no circular wait, and progress

  ghost predicate WaitsFor(ts: Threads, i: nat, j: nat) {
    i < |ts| && j < |ts| && exists m :: Wants(ts[i], m) && Holds(ts[j], m)
  }

  function WantedRank(t: Thread): nat {
    if t.todo == [] then 0 else
    match t.todo[0]
    case Run(Hold(c, _)) => Rank(c)
    case Acquire(l) => Rank(l.class_)
    case _ => 0
  }

  lemma WaitClimbs(ts: Threads, i: nat, j: nat)
    requires AllOk(ts) && WaitsFor(ts, i, j)
    ensures WantedRank(ts[i]) <= Top(ts[j].held)
    ensures WantedRank(ts[j]) > 0 ==> WantedRank(ts[i]) < WantedRank(ts[j])
  {
    var m :| Wants(ts[i], m) && Holds(ts[j], m);
    assert ThreadOk(ts[j]);
  }

  ghost predicate CircularWait(ts: Threads, cycle: seq<nat>) {
    && cycle != []
    && forall a, b :: 0 <= a < |cycle| && 0 <= b < |cycle| && b == (if a + 1 == |cycle| then 0 else a + 1) ==>
                        WaitsFor(ts, cycle[a], cycle[b])
  }

  lemma {:induction false} RanksClimb(ts: Threads, cycle: seq<nat>, k: nat)
    requires AllOk(ts) && CircularWait(ts, cycle) && k < |cycle|
    ensures cycle[0] < |ts| && cycle[k] < |ts|
    ensures WantedRank(ts[cycle[k]]) >= WantedRank(ts[cycle[0]]) + k && WantedRank(ts[cycle[k]]) > 0
  {
    assert WaitsFor(ts, cycle[k], cycle[if k + 1 == |cycle| then 0 else k + 1]);
    if k > 0 {
      RanksClimb(ts, cycle, k - 1);
      WaitClimbs(ts, cycle[k - 1], cycle[k]);
    }
  }

  /** No reachable state of any number of goroutines contains a circular wait. */
  lemma NoCircularWait(run: seq<Threads>, k: nat, cycle: seq<nat>)
    requires IsRun(run) && k < |run|
    ensures !CircularWait(run[k], cycle)
  {
    var ts := run[k];
    RunKeepsAll(run, k);
    if CircularWait(ts, cycle) {
      var n := |cycle| - 1;
      RanksClimb(ts, cycle, n);
      assert WaitsFor(ts, cycle[n], cycle[0]);
      WaitClimbs(ts, cycle[n], cycle[0]);
      RanksClimb(ts, cycle, 0);
    }
  }

  ghost predicate CanMove(ts: Threads, i: nat) {
    i < |ts| && exists t', m :: Moves(ts, ts[i], t', m)
  }

  /** A thread with something to do can do it unless another thread holds what it wants. */
  lemma MoveOrWait(ts: Threads, i: nat)
    requires AllOk(ts) && i < |ts| && ts[i].todo != []
    ensures CanMove(ts, i) || exists j :: WaitsFor(ts, i, j)
  {
    var t := ts[i];
    var rest := t.todo[1..];
    var any := Mutex(QueueMu, 0);
    assert ThreadOk(t);
    match t.todo[0] {
      case Run(Skip) => assert Moves(ts, t, Thread(t.held, rest), any);
      case Run(Then(a, b)) => assert Moves(ts, t, Thread(t.held, [Run(a), Run(b)] + rest), any);
      case Run(Either(a, b)) => assert Moves(ts, t, Thread(t.held, [Run(a)] + rest), any);
      case Run(Loop(a)) => assert Moves(ts, t, Thread(t.held, rest), any);
      case Run(Sleep) =>
        var m := t.held[|t.held| - 1];
        assert Moves(ts, t, Thread(t.held[..|t.held| - 1], [Acquire(m)] + rest), m);
      case Release => assert Moves(ts, t, Thread(t.held[..|t.held| - 1], rest), any);
      case Run(Hold(c, b)) => assert Moves(ts, t, Picked(t, Mutex(c, 0)), Mutex(c, 0));
      case Acquire(l) => MoveOrWaitFor(ts, i, l, Thread(t.held + [l], rest));
    }
  }

  lemma MoveOrWaitFor(ts: Threads, i: nat, m: Mutex, t': Thread)
    requires i < |ts| && Wants(ts[i], m) && (FreeIn(ts, m) ==> Moves(ts, ts[i], t', m))
    ensures CanMove(ts, i) || exists j :: WaitsFor(ts, i, j)
  {
    if !FreeIn(ts, m) {
      var j :| 0 <= j < |ts| && Holds(ts[j], m);
      assert WaitsFor(ts, i, j);
    }
  }

  /** Follow the waiting: it ends, after at most six hops, at a thread that can move. */
  lemma {:induction false} FollowWaits(ts: Threads, i: nat) returns (j: nat)
    requires AllOk(ts) && i < |ts| && ts[i].todo != []
    ensures CanMove(ts, j)
    decreases 7 - WantedRank(ts[i])
  {
    MoveOrWait(ts, i);
    if CanMove(ts, i) {
      j := i;
    } else {
      var k: nat :| WaitsFor(ts, i, k);
      assert ThreadOk(ts[k]) && ThreadOk(ts[i]);
      WaitClimbs(ts, i, k);
      if WantedRank(ts[k]) > 0 {
        j := FollowWaits(ts, k);
      } else {
        MoveOrWait(ts, k);
        j := k;
      }
    }
  }

  /** `ts'` is `ts` after every goroutine that is about to lock has decided which object; any decision will do. */
  ghost predicate Resolves(ts: Threads, ts': Threads) {
    && |ts'| == |ts|
    && forall i :: 0 <= i < |ts| ==>
         if AtLock(ts[i]) then exists m: Mutex :: m.class_ == ts[i].todo[0].p.class_ && ts'[i] == Picked(ts[i], m)
         else ts'[i] == ts[i]
  }

  lemma ResolvedOk(ts: Threads, ts': Threads)
    requires AllOk(ts) && Resolves(ts, ts')
    ensures AllOk(ts') && forall i :: 0 <= i < |ts'| ==> ts'[i].held == ts[i].held && !AtLock(ts'[i])
  {
    forall i | 0 <= i < |ts'| ensures ThreadOk(ts'[i]) && ts'[i].held == ts[i].held && !AtLock(ts'[i]) {
      if AtLock(ts[i]) {
        var m: Mutex :| m.class_ == ts[i].todo[0].p.class_ && ts'[i] == Picked(ts[i], m);
        PickKeeps(ts[i], m);
      }
    }
    forall a, b, l | 0 <= a < |ts'| && 0 <= b < |ts'| && Holds(ts'[a], l) && Holds(ts'[b], l) ensures a == b {
      assert Holds(ts[a], l) && Holds(ts[b], l);
    }
  }

  /** Deadlock freedom: while some goroutine has something left to do, then whichever objects the goroutines
      about to lock have decided on, some goroutine can make a move that is not a mere decision. */
  lemma SomebodyCanMove(run: seq<Threads>, k: nat, i: nat, ts: Threads)
    requires IsRun(run) && k < |run| && i < |run[k]| && run[k][i].todo != [] && Resolves(run[k], ts)
    ensures exists j: nat :: CanMove(ts, j) && !AtLock(ts[j])
  {
    RunKeepsAll(run, k);
    ResolvedOk(run[k], ts);
    var j := FollowWaits(ts, i);
    assert CanMove(ts, j) && !AtLock(ts[j]);
  }

  /** Against the rank order it would fail: a holder of a queue's mutex that wants a consumer's, and a holder of
      that consumer's mutex that wants the queue's, are stuck for good. */
  lemma ReversedOrderSticks(q: Mutex, c: Mutex, j: nat)
    requires q.class_ == QueueMu && c.class_ == ConsumerMu
    ensures var ts := [Thread([q], [Acquire(c), Release, Release]), Thread([c], [Acquire(q), Release, Release])];
            !CanMove(ts, j) && CircularWait(ts, [0, 1])
  {
    var ts := [Thread([q], [Acquire(c), Release, Release]), Thread([c], [Acquire(q), Release, Release])];
    assert Holds(ts[0], q) && Holds(ts[1], c);
    assert Wants(ts[0], c) && Wants(ts[1], q);
    assert WaitsFor(ts, 0, 1) && WaitsFor(ts, 1, 0);
  }
}
