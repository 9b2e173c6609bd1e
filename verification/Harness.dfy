/** Publishers, consumers and the drain check, running concurrently over one ledger. */
module Harness {
  import opened Topology
  import opened Ledger

  /** One publisher's place in its loop. */
  datatype Phase =
    | Idle
    | Holding(seqNo: nat)      // a sequence number was taken, nothing sent yet
    | Sent(seqNo: nat)         // the broker has accepted the message
    | Recording(entry: nat)    // recordPublish is running
    | Failed(seqNo: nat)       // the publish call returned an error
    | OverBudget               // the number taken has no place in the send-time table

  datatype Worker = Worker(fired: nat, phase: Phase)

  /** The drain check reads four counters one at a time. */
  datatype Reader = Ready | GotConsumed(x: nat) | ConsumedOk | GotAcks(a: nat) | Drained | NotDrained

  datatype Run = Run(
    ledger: State,
    workers: seq<Worker>,
    sent: set<nat>,            // accepted by the broker
    seen: set<nat>,            // marked as seen by some consumer
    closed: bool,              // every publisher has returned without error
    reader: Reader)

  /** How many messages each publisher may fire, and the slots the publishers and consumers sit on. */
  datatype Job = Job(msgs: nat, pubSlots: seq<Slot>, consSlots: seq<Slot>)

  function Budget(job: Job): nat {
    |job.pubSlots| * job.msgs
  }

  function Start(job: Job): Run {
    Run(Ledger.Initial(), seq(|job.pubSlots|, _ => Worker(0, Idle)), {}, {}, false, Ready)
  }

  datatype Move =
    | Take(w: nat)
    | Send(w: nat)
    | Fail(w: nat, reached: bool)   // the broker may or may not have accepted the message
    | Record(w: nat)
    | Finish(w: nat)
    | Deliver(s: nat, v: nat)   // consumer `v` receives message `s`
    | AckDelivery(i: nat)
    | Step(i: nat)
    | Turn
    | SampleOne(k: Counter)
    | Close
    | Read

  predicate Can(job: Job, r: Run, m: Move) {
    |r.workers| == |job.pubSlots| &&
    match m
    case Take(w) => !r.closed && w < |r.workers| && r.workers[w].phase.Idle? && r.workers[w].fired < job.msgs
    case Send(w) => w < |r.workers| && r.workers[w].phase.Holding?
    case Fail(w, _) => w < |r.workers| && r.workers[w].phase.Holding?
    case Record(w) => w < |r.workers| && r.workers[w].phase.Sent? && Enabled(r.ledger, Begin(Pub, r.workers[w].phase.seqNo, job.pubSlots[w]))
    case Finish(w) =>
      && w < |r.workers| && r.workers[w].phase.Recording?
      && r.workers[w].phase.entry < |r.ledger.entries| && r.ledger.entries[r.workers[w].phase.entry].stage.Done?
    case Deliver(s, v) => v < |job.consSlots| && s in r.sent && 1 <= s <= r.ledger.alloc
    case AckDelivery(i) => Enabled(r.ledger, BeginAck(i))
    case Step(i) => Enabled(r.ledger, Advance(i))
    case Turn => Enabled(r.ledger, Boundary)
    case SampleOne(k) => Enabled(r.ledger, Sample(k))
    case Close => forall w :: 0 <= w < |r.workers| ==> r.workers[w].phase.Idle?
    case Read => r.closed
  }

  function SetPhase(r: Run, w: nat, p: Phase): seq<Worker>
    requires w < |r.workers|
  {
    r.workers[w := r.workers[w].(phase := p)]
  }

  /** A publisher gives up if its number lies beyond the table, which has one place per budgeted message. */
  function OnTaking(job: Job, n: nat): Phase {
    if n > Budget(job) then OverBudget else Holding(n)
  }

  /** One read of the drain check: consumed, published, acks, delivered, in that order. */
  function DoRead(r: Run): Reader {
    var v := r.ledger.value;
    match r.reader
    case Ready => GotConsumed(Val(v, AllConsumed))
    case GotConsumed(x) => if x >= Val(v, AllPublished) then ConsumedOk else NotDrained
    case ConsumedOk => GotAcks(Val(v, AllAcks))
    case GotAcks(a) => if a >= Val(v, AllDelivered) then Drained else NotDrained
    case Drained => Drained
    case NotDrained => Ready
  }

  function Do(job: Job, r: Run, m: Move): Run
    requires Can(job, r, m)
  {
    match m
    case Take(w) =>
      r.(ledger := Apply(r.ledger, Allocate), workers := SetPhase(r, w, OnTaking(job, r.ledger.alloc + 1)))
    case Send(w) =>
      r.(workers := SetPhase(r, w, Sent(r.workers[w].phase.seqNo)), sent := r.sent + {r.workers[w].phase.seqNo})
    case Fail(w, reached) =>
      var n := r.workers[w].phase.seqNo;
      r.(workers := SetPhase(r, w, Failed(n)), sent := if reached then r.sent + {n} else r.sent)
    case Record(w) =>
      r.(ledger := Apply(r.ledger, Begin(Pub, r.workers[w].phase.seqNo, job.pubSlots[w])),
         workers := SetPhase(r, w, Recording(|r.ledger.entries|)))
    case Finish(w) => r.(workers := r.workers[w := Worker(r.workers[w].fired + 1, Idle)])
    case Deliver(s, v) =>
      r.(ledger := Apply(r.ledger, Begin(Del(s in r.seen), s, job.consSlots[v])), seen := r.seen + {s})
    case AckDelivery(i) => r.(ledger := Apply(r.ledger, BeginAck(i)))
    case Step(i) => r.(ledger := Apply(r.ledger, Advance(i)))
    case Turn => r.(ledger := Apply(r.ledger, Boundary))
    case SampleOne(k) => r.(ledger := Apply(r.ledger, Sample(k)))
    case Close => r.(closed := true)
    case Read => r.(reader := DoRead(r))
  }

  ghost predicate IsRun(job: Job, run: seq<Run>, ms: seq<Move>) {
    && |run| == |ms| + 1 && run[0] == Start(job)
    && forall i :: 0 <= i < |ms| ==> Can(job, run[i], ms[i]) && run[i + 1] == Do(job, run[i], ms[i])
  }

  // ---------------------------------------------------------------- publishers

  function Taken(p: Phase): nat {
    if p.Idle? then 0 else 1
  }

  /** Sequence numbers the publishers have taken. */
  function TakenSum(ws: seq<Worker>): nat {
    if ws == [] then 0 else TakenSum(ws[..|ws| - 1]) + ws[|ws| - 1].fired + Taken(ws[|ws| - 1].phase)
  }

  /** A sequence number was taken and its publish has no record yet. */
  predicate Holds(p: Phase) {
    p.Holding? || p.Sent? || p.Failed?
  }

  /** Of those above `lo`, how many have no record yet. */
  function Unrecorded(w: Worker, lo: nat): nat {
    if Holds(w.phase) && w.phase.seqNo > lo then 1 else 0
  }

  function UnrecordedSum(ws: seq<Worker>, lo: nat): nat {
    if ws == [] then 0 else UnrecordedSum(ws[..|ws| - 1], lo) + Unrecorded(ws[|ws| - 1], lo)
  }

  lemma {:induction false} TakenUpdate(ws: seq<Worker>, w: nat, x: Worker)
    requires w < |ws|
    ensures TakenSum(ws[w := x]) + ws[w].fired + Taken(ws[w].phase) == TakenSum(ws) + x.fired + Taken(x.phase)
  {
    var n := |ws| - 1;
    if w == n {
      assert ws[w := x][..n] == ws[..n];
    } else {
      assert ws[w := x][..n] == ws[..n][w := x];
      TakenUpdate(ws[..n], w, x);
    }
  }

  lemma {:induction false} UnrecordedUpdate(ws: seq<Worker>, w: nat, x: Worker, lo: nat)
    requires w < |ws|
    ensures UnrecordedSum(ws[w := x], lo) + Unrecorded(ws[w], lo) == UnrecordedSum(ws, lo) + Unrecorded(x, lo)
  {
    var n := |ws| - 1;
    if w == n {
      assert ws[w := x][..n] == ws[..n];
    } else {
      assert ws[w := x][..n] == ws[..n][w := x];
      UnrecordedUpdate(ws[..n], w, x, lo);
    }
  }

  lemma {:induction false} TakenBounded(ws: seq<Worker>, msgs: nat)
    requires forall w :: 0 <= w < |ws| ==> ws[w].fired + Taken(ws[w].phase) <= msgs
    ensures TakenSum(ws) <= |ws| * msgs
  {
    if ws != [] {
      var n := |ws| - 1;
      TakenBounded(ws[..n], msgs);
      assert |ws| * msgs == n * msgs + msgs;
    }
  }

  // ---------------------------------------------------------------- invariants

  ghost predicate WorkersOk(job: Job, r: Run) {
    && |r.workers| == |job.pubSlots|
    && (forall w :: 0 <= w < |r.workers| ==> r.workers[w].fired + Taken(r.workers[w].phase) <= job.msgs)
    && r.ledger.alloc == TakenSum(r.workers)
    && (forall w :: 0 <= w < |r.workers| && Holds(r.workers[w].phase) ==> 1 <= r.workers[w].phase.seqNo <= r.ledger.alloc)
    && (forall w :: 0 <= w < |r.workers| ==> !r.workers[w].phase.OverBudget?)
    && (forall w :: 0 <= w < |r.workers| && r.workers[w].phase.Recording? ==>
          r.workers[w].phase.entry < |r.ledger.entries|)
  }

  /** Every sequence number has, at any moment, exactly one publish record or one publisher holding it. */
  ghost predicate PublishedOnce(r: Run) {
    forall lo :: 0 <= lo <= r.ledger.alloc ==>
      Sum(Called(Pub, lo), r.ledger.entries) + UnrecordedSum(r.workers, lo) == r.ledger.alloc - lo
  }

  /** A publish record that is not finished has its publisher waiting for it. */
  ghost predicate RecordsOwned(r: Run) {
    forall i :: 0 <= i < |r.ledger.entries| && r.ledger.entries[i].kind.Pub? && !r.ledger.entries[i].stage.Done? ==>
      exists w :: 0 <= w < |r.workers| && r.workers[w].phase == Recording(i)
  }

  function Above(s: set<nat>, lo: nat): set<nat> {
    set x | x in s && x > lo
  }

  /** Every sequence number seen was sent, and has exactly one first delivery. */
  ghost predicate SeenOnce(r: Run) {
    && r.seen <= r.sent
    && (forall s :: s in r.sent ==> 1 <= s <= r.ledger.alloc)
    && (forall lo: nat :: Sum(Called(Del(false), lo), r.ledger.entries) == |Above(r.seen, lo)|)
  }

  /** Acks: one record call for each acked delivery, and only finished deliveries are acked. */
  ghost predicate AcksOk(r: Run) {
    && Sum(AckCall, r.ledger.entries) == Sum(AckedFlag, r.ledger.entries)
    && (forall i :: 0 <= i < |r.ledger.entries| && r.ledger.entries[i].acked ==>
          r.ledger.entries[i].kind.Del? && r.ledger.entries[i].stage.Done?)
  }

  ghost predicate AllFirstsDone(r: Run) {
    && r.closed
    && |r.seen| == r.ledger.alloc
    && forall i :: 0 <= i < |r.ledger.entries| && r.ledger.entries[i].kind == Del(false) ==> r.ledger.entries[i].stage.Done?
  }

  ghost predicate ReaderOk(r: Run) {
    var v := r.ledger.value;
    && (!r.reader.Ready? ==> r.closed)
    && (match r.reader
        case GotConsumed(x) => x <= Val(v, AllConsumed)
        case ConsumedOk => r.ledger.alloc <= Val(v, AllConsumed)
        case GotAcks(a) => r.ledger.alloc <= Val(v, AllConsumed) && a <= Val(v, AllAcks)
        case Drained => AllFirstsDone(r)
        case _ => true)
  }

  ghost predicate ClosedOk(r: Run) {
    r.closed ==> forall w :: 0 <= w < |r.workers| ==> r.workers[w].phase.Idle?
  }

  ghost predicate HInv(job: Job, r: Run) {
    && Inv(r.ledger) && WorkersOk(job, r) && PublishedOnce(r) && RecordsOwned(r)
    && SeenOnce(r) && AcksOk(r) && ReaderOk(r) && ClosedOk(r)
  }
}
