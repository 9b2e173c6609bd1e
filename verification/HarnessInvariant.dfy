/** Every move of the harness keeps its invariants. */
module HarnessInvariant {
  import opened Ledger
  import opened Harness
  import LT = LedgerTheorems

  /** The ledger step a move makes, if it makes one. */
  function LedgerStep(job: Job, r: Run, m: Move): seq<Label>
    requires Can(job, r, m)
  {
    match m
    case Take(_) => [Allocate]
    case Record(w) => [Begin(Pub, r.workers[w].phase.seqNo, job.pubSlots[w])]
    case Deliver(s, v) => [Begin(Del(s in r.seen), s, job.consSlots[v])]
    case AckDelivery(i) => [BeginAck(i)]
    case Step(i) => [Advance(i)]
    case Turn => [Boundary]
    case SampleOne(k) => [Sample(k)]
    case _ => []
  }

  lemma LedgerMoves(job: Job, r: Run, m: Move)
    requires Can(job, r, m)
    ensures var ls := LedgerStep(job, r, m);
            if ls == [] then Do(job, r, m).ledger == r.ledger
            else Enabled(r.ledger, ls[0]) && Do(job, r, m).ledger == Apply(r.ledger, ls[0])
  {
  }

  lemma LedgerKept(job: Job, r: Run, m: Move)
    requires Can(job, r, m) && Inv(r.ledger)
    ensures Inv(Do(job, r, m).ledger)
  {
    LedgerMoves(job, r, m);
    var ls := LedgerStep(job, r, m);
    if ls != [] {
      StepKeepsInv(r.ledger, ls[0]);
    }
  }

  /** One publisher moves on: the rest keep their places and their count. */
  lemma OneMoves(job: Job, r: Run, w: nat, x: Worker, led: State)
    requires WorkersOk(job, r) && w < |r.workers| && x.fired + Taken(x.phase) <= job.msgs
    requires led.alloc + r.workers[w].fired + Taken(r.workers[w].phase) == r.ledger.alloc + x.fired + Taken(x.phase)
    requires led.alloc >= r.ledger.alloc && |led.entries| >= |r.ledger.entries|
    requires Holds(x.phase) ==> 1 <= x.phase.seqNo <= led.alloc
    requires x.phase.Recording? ==> x.phase.entry < |led.entries|
    requires !x.phase.OverBudget?
    ensures WorkersOk(job, r.(workers := r.workers[w := x], ledger := led))
  {
    TakenUpdate(r.workers, w, x);
  }

  lemma NoneMove(job: Job, r: Run, r': Run)
    requires WorkersOk(job, r) && r'.workers == r.workers
    requires r'.ledger.alloc == r.ledger.alloc && |r'.ledger.entries| >= |r.ledger.entries|
    ensures WorkersOk(job, r')
  {
  }

  /** The budget check of a publisher never fails. */
  lemma TakesWithinBudget(job: Job, r: Run, w: nat)
    requires Can(job, r, Take(w)) && WorkersOk(job, r)
    ensures OnTaking(job, r.ledger.alloc + 1) == Holding(r.ledger.alloc + 1)
  {
    var x := r.workers[w].(phase := Holding(r.ledger.alloc + 1));
    TakenUpdate(r.workers, w, x);
    TakenBounded(r.workers[w := x], job.msgs);
  }

  lemma WorkersKept(job: Job, r: Run, m: Move)
    requires Can(job, r, m) && WorkersOk(job, r)
    ensures WorkersOk(job, Do(job, r, m))
  {
    match m {
      case Take(w) => TakeKept(job, r, w);
      case Send(w) => SendKept(job, r, m, w);
      case Fail(w, _) => SendKept(job, r, m, w);
      case Record(w) => RecordKept(job, r, w);
      case Finish(w) => FinishKept(job, r, w);
      case _ => NoneMove(job, r, Do(job, r, m));
    }
  }

  lemma TakeKept(job: Job, r: Run, w: nat)
    requires Can(job, r, Take(w)) && WorkersOk(job, r)
    ensures WorkersOk(job, Do(job, r, Take(w)))
  {
    var r' := Do(job, r, Take(w));
    TakesWithinBudget(job, r, w);
    OneMoves(job, r, w, r'.workers[w], r'.ledger);
  }

  lemma SendKept(job: Job, r: Run, m: Move, w: nat)
    requires Can(job, r, m) && WorkersOk(job, r) && (m == Send(w) || (m.Fail? && m.w == w))
    ensures WorkersOk(job, Do(job, r, m))
  {
    var r' := Do(job, r, m);
    OneMoves(job, r, w, r'.workers[w], r'.ledger);
  }

  lemma RecordKept(job: Job, r: Run, w: nat)
    requires Can(job, r, Record(w)) && WorkersOk(job, r)
    ensures WorkersOk(job, Do(job, r, Record(w)))
  {
    var r' := Do(job, r, Record(w));
    OneMoves(job, r, w, r'.workers[w], r'.ledger);
  }

  lemma FinishKept(job: Job, r: Run, w: nat)
    requires Can(job, r, Finish(w)) && WorkersOk(job, r)
    ensures WorkersOk(job, Do(job, r, Finish(w)))
  {
    var r' := Do(job, r, Finish(w));
    OneMoves(job, r, w, r'.workers[w], r'.ledger);
  }

  lemma {:induction false} NoneAbove(es: seq<Entry>, kind: Kind, lo: nat)
    requires forall i :: 0 <= i < |es| ==> es[i].seqNo <= lo
    ensures Sum(Called(kind, lo), es) == 0
  {
    if es != [] {
      NoneAbove(es[..|es| - 1], kind, lo);
    }
  }

  lemma {:induction false} NoneUnrecordedAbove(ws: seq<Worker>, lo: nat)
    requires forall w :: 0 <= w < |ws| && Holds(ws[w].phase) ==> ws[w].phase.seqNo <= lo
    ensures UnrecordedSum(ws, lo) == 0
  {
    if ws != [] {
      NoneUnrecordedAbove(ws[..|ws| - 1], lo);
    }
  }

  lemma PublishedOnceKept(job: Job, r: Run, m: Move)
    requires Can(job, r, m) && Inv(r.ledger) && WorkersOk(job, r) && PublishedOnce(r)
    ensures PublishedOnce(Do(job, r, m))
  {
    var r' := Do(job, r, m);
    LedgerMoves(job, r, m);
    LedgerKept(job, r, m);
    WorkersKept(job, r, m);
    forall lo | 0 <= lo <= r'.ledger.alloc
      ensures Sum(Called(Pub, lo), r'.ledger.entries) + UnrecordedSum(r'.workers, lo) == r'.ledger.alloc - lo
    {
      if lo > r.ledger.alloc {
        forall i | 0 <= i < |r'.ledger.entries| ensures r'.ledger.entries[i].seqNo <= lo {
          assert EntryOk(r'.ledger, r'.ledger.entries[i]);
        }
        NoneAbove(r'.ledger.entries, Pub, lo);
        NoneUnrecordedAbove(r'.workers, lo);
      } else {
        assert Sum(Called(Pub, lo), r.ledger.entries) + UnrecordedSum(r.workers, lo) == r.ledger.alloc - lo;
        if m.Take? {
          TakesWithinBudget(job, r, m.w);
        }
        OnePublish(job, r, m, lo);
      }
    }
  }

  /** Above any `lo`, records and publishers about to record change by the one number just taken. */
  lemma OnePublish(job: Job, r: Run, m: Move, lo: nat)
    requires Can(job, r, m) && lo <= r.ledger.alloc
    requires m.Take? ==> Do(job, r, m).workers[m.w].phase == Holding(r.ledger.alloc + 1)
    ensures var r' := Do(job, r, m);
            Sum(Called(Pub, lo), r'.ledger.entries) + UnrecordedSum(r'.workers, lo)
            == Sum(Called(Pub, lo), r.ledger.entries) + UnrecordedSum(r.workers, lo) + (r'.ledger.alloc - r.ledger.alloc)
  {
    var r', ls := Do(job, r, m), LedgerStep(job, r, m);
    LedgerMoves(job, r, m);
    if ls != [] {
      LT.StepCalls(r.ledger, ls[0], Pub, lo);
    }
    match m {
      case Take(w) => UnrecordedUpdate(r.workers, w, r'.workers[w], lo);
      case Send(w) => UnrecordedUpdate(r.workers, w, r'.workers[w], lo);
      case Fail(w, _) => UnrecordedUpdate(r.workers, w, r'.workers[w], lo);
      case Record(w) => UnrecordedUpdate(r.workers, w, r'.workers[w], lo);
      case Finish(w) => UnrecordedUpdate(r.workers, w, r'.workers[w], lo);
      case _ =>
    }
  }

  lemma RecordsOwnedKept(job: Job, r: Run, m: Move)
    requires Can(job, r, m) && RecordsOwned(r) && WorkersOk(job, r)
    ensures RecordsOwned(Do(job, r, m))
  {
    var r' := Do(job, r, m);
    var es, es' := r.ledger.entries, r'.ledger.entries;
    forall i | 0 <= i < |es'| && es'[i].kind.Pub? && !es'[i].stage.Done?
      ensures exists w :: 0 <= w < |r'.workers| && r'.workers[w].phase == Recording(i)
    {
      if i < |es| {
        assert es[i].kind.Pub? && !es[i].stage.Done?;
        var w :| 0 <= w < |r.workers| && r.workers[w].phase == Recording(i);
        assert r'.workers[w].phase == Recording(i);
      } else {
        assert m.Record? && r'.workers[m.w].phase == Recording(i);
      }
    }
  }

  lemma AboveGrows(s: set<nat>, x: nat, lo: nat)
    requires x !in s
    ensures |Above(s + {x}, lo)| == |Above(s, lo)| + One(x > lo)
  {
    if x > lo {
      assert Above(s + {x}, lo) == Above(s, lo) + {x};
    } else {
      assert Above(s + {x}, lo) == Above(s, lo);
    }
  }

  lemma SeenOnceKept(job: Job, r: Run, m: Move)
    requires Can(job, r, m) && SeenOnce(r) && WorkersOk(job, r)
    ensures SeenOnce(Do(job, r, m))
  {
    var r' := Do(job, r, m);
    SentKept(job, r, m);
    forall lo: nat ensures Sum(Called(Del(false), lo), r'.ledger.entries) == |Above(r'.seen, lo)| {
      assert Sum(Called(Del(false), lo), r.ledger.entries) == |Above(r.seen, lo)|;
      FirstsStep(job, r, m, lo);
      SeenStep(job, r, m, lo);
    }
  }

  lemma SentKept(job: Job, r: Run, m: Move)
    requires Can(job, r, m) && SeenOnce(r) && WorkersOk(job, r)
    ensures var r' := Do(job, r, m); r'.seen <= r'.sent && forall s :: s in r'.sent ==> 1 <= s <= r'.ledger.alloc
  {
  }

  predicate IsFirst(r: Run, m: Move, lo: nat) {
    m.Deliver? && m.s !in r.seen && m.s > lo
  }

  lemma FirstsStep(job: Job, r: Run, m: Move, lo: nat)
    requires Can(job, r, m)
    ensures Sum(Called(Del(false), lo), Do(job, r, m).ledger.entries)
            == Sum(Called(Del(false), lo), r.ledger.entries) + One(IsFirst(r, m, lo))
  {
    var ls := LedgerStep(job, r, m);
    LedgerMoves(job, r, m);
    if ls != [] {
      LT.StepCalls(r.ledger, ls[0], Del(false), lo);
    }
  }

  lemma SeenStep(job: Job, r: Run, m: Move, lo: nat)
    requires Can(job, r, m)
    ensures |Above(Do(job, r, m).seen, lo)| == |Above(r.seen, lo)| + One(IsFirst(r, m, lo))
  {
    if m.Deliver? {
      if m.s in r.seen {
        assert r.seen + {m.s} == r.seen;
      } else {
        AboveGrows(r.seen, m.s, lo);
      }
    }
  }

  lemma AckCallSum(s: State, l: Label)
    requires Enabled(s, l)
    ensures Sum(AckCall, Apply(s, l).entries) == Sum(AckCall, s.entries) + One(l.BeginAck?)
  {
    match l {
      case Begin(kind, n, sl) => SumAppend(AckCall, s.entries, Entry(kind, n, sl, Before(0), false));
      case BeginAck(i) => LT.BeginAckSum(AckCall, s, i);
      case Advance(i) => SumUpdate(AckCall, s.entries, i, DoAdvance(s, i).entries[i]);
      case _ =>
    }
  }

  lemma AckedFlagSum(s: State, l: Label)
    requires Enabled(s, l)
    ensures Sum(AckedFlag, Apply(s, l).entries) == Sum(AckedFlag, s.entries) + One(l.BeginAck?)
  {
    match l {
      case Begin(kind, n, sl) => SumAppend(AckedFlag, s.entries, Entry(kind, n, sl, Before(0), false));
      case BeginAck(i) => LT.BeginAckSum(AckedFlag, s, i);
      case Advance(i) => SumUpdate(AckedFlag, s.entries, i, DoAdvance(s, i).entries[i]);
      case _ =>
    }
  }

  lemma AcksKept(job: Job, r: Run, m: Move)
    requires Can(job, r, m) && AcksOk(r)
    ensures AcksOk(Do(job, r, m))
  {
    var ls := LedgerStep(job, r, m);
    LedgerMoves(job, r, m);
    if ls != [] {
      AckCallSum(r.ledger, ls[0]);
      AckedFlagSum(r.ledger, ls[0]);
    }
  }

  /** All-time counters never go down. */
  lemma AllTimeGrows(s: State, l: Label, k: Counter)
    requires Enabled(s, l) && AllTime(k)
    ensures Val(Apply(s, l).value, k) >= Val(s.value, k)
  {
  }

  lemma ClosedKept(job: Job, r: Run, m: Move)
    requires Can(job, r, m) && ClosedOk(r)
    ensures ClosedOk(Do(job, r, m))
  {
  }

  // ---------------------------------------------------------------- what the four reads prove

  /** Once the publishers are closed, the all-time publish counter is the number of sequence numbers. */
  lemma ClosedPublished(job: Job, r: Run)
    requires HInv(job, r) && r.closed
    ensures forall lo :: 0 <= lo <= r.ledger.alloc ==> Sum(Called(Pub, lo), r.ledger.entries) == r.ledger.alloc - lo
    ensures forall i :: 0 <= i < |r.ledger.entries| && r.ledger.entries[i].kind.Pub? ==> r.ledger.entries[i].stage.Done?
  {
    forall lo | 0 <= lo <= r.ledger.alloc ensures Sum(Called(Pub, lo), r.ledger.entries) == r.ledger.alloc - lo {
      NoneUnrecordedAbove(r.workers, lo);
    }
  }

  lemma ClosedAllPublished(job: Job, r: Run)
    requires HInv(job, r) && r.closed
    ensures Val(r.ledger.value, AllPublished) == r.ledger.alloc
  {
    var es, cutoff := r.ledger.entries, r.ledger.cutoff;
    ClosedPublished(job, r);
    forall i | 0 <= i < |es| ensures Weigh(Booked(cutoff, AllPublished), es[i]) == Weigh(Called(Pub, 0), es[i]) {
      assert EntryOk(r.ledger, es[i]);
      AllPublishedWeight(cutoff, es[i]);
    }
    LT.SumSame(Booked(cutoff, AllPublished), Called(Pub, 0), es);
    assert Val(r.ledger.value, AllPublished) + Val(r.ledger.emitted, AllPublished) == Sum(Booked(cutoff, AllPublished), es);
  }

  lemma AllPublishedWeight(cutoff: nat, e: Entry)
    requires e.seqNo >= 1 && (e.kind.Pub? ==> e.stage.Done?)
    ensures Weigh(Booked(cutoff, AllPublished), e) == Weigh(Called(Pub, 0), e)
  {
    ProgramWeight(e.kind, AllPublished);
    if e.stage.Before? {
      PrefixWeight(e.kind, e.stage.n, AllPublished);
    }
  }

  lemma ProgramWeight(kind: Kind, k: Counter)
    ensures Occ(AllProgram(kind), k)
            == match kind
               case Pub => One(k == AllPublished)
               case Del(dup) => One(k == AllDelivered) + One(!dup && k == AllConsumed)
               case Ack => One(k == AllAcks)
  {
    LT.OccOne(AllPublished, k);
    LT.OccOne(AllDelivered, k);
    LT.OccTwo(AllDelivered, AllConsumed, k);
    LT.OccOne(AllAcks, k);
  }

  /** A started program has at most done all of it, and a delivery's first bump is the delivery count. */
  lemma PrefixWeight(kind: Kind, n: nat, k: Counter)
    ensures Occ(Prefix(AllProgram(kind), n), k) <= Occ(AllProgram(kind), k)
    ensures kind.Del? && k == AllDelivered ==> Occ(Prefix(AllProgram(kind), n), k) == One(n > 0)
  {
    PrefixEnds(AllProgram(kind));
    ProgramWeight(kind, k);
    if n == 1 && kind == Del(false) {
      assert Prefix(AllProgram(kind), 1) == [AllDelivered];
      LT.OccOne(AllDelivered, k);
    }
  }

  function UpTo(n: nat): (r: set<nat>)
    ensures forall x :: x in r <==> 1 <= x <= n
  {
    if n == 0 then {} else UpTo(n - 1) + {n}
  }

  lemma {:induction false} UpToSize(n: nat)
    ensures |UpTo(n)| == n
  {
    if n > 0 {
      UpToSize(n - 1);
    }
  }

  lemma SubsetSize(a: set<nat>, b: set<nat>)
    requires a <= b
    ensures |a| <= |b| && (|a| == |b| ==> a == b)
  {
    assert |b - a| + |a| == |b| by {
      assert b == (b - a) + a;
    }
    if a != b {
      var x :| x in b && x !in a;
      assert x in b - a;
    }
  }

  /** First deliveries are as many as the sequence numbers seen, and no more than were handed out. */
  lemma FirstsAreSeen(job: Job, r: Run)
    requires HInv(job, r)
    ensures Sum(FirstDelivery, r.ledger.entries) == |r.seen| <= r.ledger.alloc
    ensures |r.seen| == r.ledger.alloc ==> r.seen == UpTo(r.ledger.alloc)
  {
    var es := r.ledger.entries;
    forall i | 0 <= i < |es| ensures Weigh(FirstDelivery, es[i]) == Weigh(Called(Del(false), 0), es[i]) {
      assert EntryOk(r.ledger, es[i]);
    }
    LT.SumSame(FirstDelivery, Called(Del(false), 0), es);
    assert Above(r.seen, 0) == r.seen;
    UpToSize(r.ledger.alloc);
    SubsetSize(r.seen, UpTo(r.ledger.alloc));
  }

  lemma Reading(r: Run, k: Counter)
    requires Inv(r.ledger) && AllTime(k)
    ensures Val(r.ledger.value, k) == Sum(Booked(r.ledger.cutoff, k), r.ledger.entries)
  {
    assert Val(r.ledger.value, k) + Val(r.ledger.emitted, k) == Sum(Booked(r.ledger.cutoff, k), r.ledger.entries);
  }

  lemma ConsumedWeight(cutoff: nat, e: Entry)
    ensures Weigh(Booked(cutoff, AllConsumed), e) <= Weigh(FirstDelivery, e)
    ensures Weigh(Booked(cutoff, AllConsumed), e) == 1 ==> Weigh(DeliveryBegun, e) == 1
  {
    ProgramWeight(e.kind, AllConsumed);
    if e.stage.Before? {
      PrefixWeight(e.kind, e.stage.n, AllConsumed);
      PrefixEnds(AllProgram(e.kind));
    }
  }

  lemma DeliveredWeight(cutoff: nat, e: Entry)
    ensures Weigh(Booked(cutoff, AllDelivered), e) == Weigh(DeliveryBegun, e)
  {
    ProgramWeight(e.kind, AllDelivered);
    if e.stage.Before? {
      PrefixWeight(e.kind, e.stage.n, AllDelivered);
      PrefixEnds(AllProgram(e.kind));
    }
  }

  lemma AckWeight(cutoff: nat, e: Entry)
    ensures Weigh(Booked(cutoff, AllAcks), e) <= Weigh(AckCall, e)
  {
    ProgramWeight(e.kind, AllAcks);
    if e.stage.Before? {
      PrefixWeight(e.kind, e.stage.n, AllAcks);
    }
  }

  /** Every consumption was counted: the seen marks are complete and every first delivery has been begun. */
  lemma AllConsumedMeans(job: Job, r: Run, i: nat)
    requires HInv(job, r) && r.ledger.alloc <= Val(r.ledger.value, AllConsumed)
    ensures |r.seen| == r.ledger.alloc
    ensures i < |r.ledger.entries| && r.ledger.entries[i].kind == Del(false) ==> Weigh(DeliveryBegun, r.ledger.entries[i]) == 1
  {
    var es, cutoff := r.ledger.entries, r.ledger.cutoff;
    var booked := Booked(cutoff, AllConsumed);
    Reading(r, AllConsumed);
    FirstsAreSeen(job, r);
    forall j | 0 <= j < |es| ensures Weigh(booked, es[j]) <= Weigh(FirstDelivery, es[j]) {
      ConsumedWeight(cutoff, es[j]);
    }
    SumBounded(booked, FirstDelivery, es);
    if i < |es| {
      SumTight(booked, FirstDelivery, es, i);
      ConsumedWeight(cutoff, es[i]);
    }
  }

  /** Acks never run ahead of finished deliveries, nor those of begun ones. */
  lemma AcksBehind(job: Job, r: Run)
    requires HInv(job, r)
    ensures Val(r.ledger.value, AllAcks) <= Sum(DeliveryDone, r.ledger.entries)
    ensures Dominates(DeliveryBegun, DeliveryDone, r.ledger.entries)
  {
    AcksAreCalls(r);
    AckedAreDone(r);
    DoneAreBegun(r.ledger.entries);
  }

  lemma AcksAreCalls(r: Run)
    requires Inv(r.ledger)
    ensures Val(r.ledger.value, AllAcks) <= Sum(AckCall, r.ledger.entries)
  {
    var es, cutoff := r.ledger.entries, r.ledger.cutoff;
    Reading(r, AllAcks);
    forall j | 0 <= j < |es| ensures Weigh(Booked(cutoff, AllAcks), es[j]) <= Weigh(AckCall, es[j]) {
      AckWeight(cutoff, es[j]);
    }
    SumBounded(Booked(cutoff, AllAcks), AckCall, es);
  }

  lemma AckedAreDone(r: Run)
    requires AcksOk(r)
    ensures Sum(AckedFlag, r.ledger.entries) <= Sum(DeliveryDone, r.ledger.entries)
  {
    SumBounded(AckedFlag, DeliveryDone, r.ledger.entries);
  }

  lemma DoneAreBegun(es: seq<Entry>)
    ensures Dominates(DeliveryBegun, DeliveryDone, es)
  {
  }

  lemma DeliveredIsBegun(job: Job, r: Run)
    requires HInv(job, r)
    ensures Val(r.ledger.value, AllDelivered) == Sum(DeliveryBegun, r.ledger.entries)
  {
    var es, cutoff := r.ledger.entries, r.ledger.cutoff;
    Reading(r, AllDelivered);
    forall j | 0 <= j < |es| ensures Weigh(Booked(cutoff, AllDelivered), es[j]) == Weigh(DeliveryBegun, es[j]) {
      DeliveredWeight(cutoff, es[j]);
    }
    LT.SumSame(Booked(cutoff, AllDelivered), DeliveryBegun, es);
  }

  /** If consumptions have caught up with publications and acks with deliveries, every first delivery is done. */
  lemma CaughtUp(job: Job, r: Run)
    requires HInv(job, r) && r.closed
    requires r.ledger.alloc <= Val(r.ledger.value, AllConsumed)
    requires Val(r.ledger.value, AllDelivered) <= Val(r.ledger.value, AllAcks)
    ensures AllFirstsDone(r)
  {
    var es := r.ledger.entries;
    AcksBehind(job, r);
    DeliveredIsBegun(job, r);
    AllConsumedMeans(job, r, 0);
    forall i | 0 <= i < |es| && es[i].kind == Del(false) ensures es[i].stage.Done? {
      AllConsumedMeans(job, r, i);
      SumTight(DeliveryDone, DeliveryBegun, es, i);
    }
  }

  /** Once all first deliveries are done they stay done: everything sent has been seen, so later deliveries are
      duplicates. */
  lemma FirstsStayDone(job: Job, r: Run, m: Move)
    requires Can(job, r, m) && HInv(job, r) && AllFirstsDone(r)
    ensures AllFirstsDone(Do(job, r, m))
  {
    var r', ls := Do(job, r, m), LedgerStep(job, r, m);
    FirstsAreSeen(job, r);
    if m.Deliver? {
      assert m.s in r.seen;
      assert r'.seen == r.seen;
    }
    LedgerMoves(job, r, m);
    if ls != [] {
      DoneStaysDone(r.ledger, ls[0]);
    }
  }

  lemma DoneStaysDone(s: State, l: Label)
    requires Enabled(s, l) && l != Allocate && (l.Begin? ==> l.kind != Del(false))
    requires forall i :: 0 <= i < |s.entries| && s.entries[i].kind == Del(false) ==> s.entries[i].stage.Done?
    ensures Apply(s, l).alloc == s.alloc
    ensures forall i :: 0 <= i < |Apply(s, l).entries| && Apply(s, l).entries[i].kind == Del(false) ==>
              Apply(s, l).entries[i].stage.Done?
  {
  }

  lemma ReaderKept(job: Job, r: Run, m: Move)
    requires Can(job, r, m) && HInv(job, r)
    ensures ReaderOk(Do(job, r, m))
  {
    var r', ls := Do(job, r, m), LedgerStep(job, r, m);
    LedgerMoves(job, r, m);
    if m.Read? {
      ClosedAllPublished(job, r);
      if r.reader.GotAcks? && DoRead(r).Drained? {
        CaughtUp(job, r);
      }
    } else {
      if ls != [] {
        AllTimeGrows(r.ledger, ls[0], AllConsumed);
        AllTimeGrows(r.ledger, ls[0], AllAcks);
      }
      if r.reader.Drained? {
        FirstsStayDone(job, r, m);
      }
    }
  }

  lemma MoveKeepsHInv(job: Job, r: Run, m: Move)
    requires Can(job, r, m) && HInv(job, r)
    ensures HInv(job, Do(job, r, m))
  {
    LedgerKept(job, r, m);
    WorkersKept(job, r, m);
    PublishedOnceKept(job, r, m);
    RecordsOwnedKept(job, r, m);
    SeenOnceKept(job, r, m);
    AcksKept(job, r, m);
    ReaderKept(job, r, m);
    ClosedKept(job, r, m);
  }
}
