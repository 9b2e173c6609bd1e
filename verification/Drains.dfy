/** What a drain check that succeeds, or fails, says about the run. */
module Drains {
  import opened Ledger
  import opened Harness
  import opened HarnessInvariant
  import B = Books
  import HT = HarnessTheorems
  import LT = LedgerTheorems

  predicate IsDrained(b: B.Books, ack: bool) {
    if ack then b.all.consumed >= b.all.published && b.all.acks >= b.all.delivered
    else b.total.consumed >= b.total.published
  }

  /** A delivery that was begun, or is the first of its message, has been acked, and an ack has been counted. */
  predicate Acknowledged(e: Entry) {
    && (e.kind == Del(false) || (e.kind.Del? && e.stage != Before(0)) ==> e.acked)
    && (e.kind.Ack? ==> e.stage != Before(0))
  }

  /** A measured first delivery has been counted as consumed. */
  predicate Counted(e: Entry, cutoff: nat) {
    e.kind == Del(false) && e.seqNo > cutoff ==> Weigh(Booked(cutoff, Consumed), e) == 1
  }

  /** No useful work in flight. With acks: every message, warmup included, has been delivered and everything delivered
      has been acked. Without: every measured message has been delivered and counted. */
  ghost predicate NoWork(r: Run, ack: bool) {
    var s := r.ledger;
    if ack then
      r.seen == UpTo(s.alloc) && forall i :: 0 <= i < |s.entries| ==> Acknowledged(s.entries[i])
    else
      Above(UpTo(s.alloc), s.cutoff) <= r.seen && forall i :: 0 <= i < |s.entries| ==> Counted(s.entries[i], s.cutoff)
  }

  // ---------------------------------------------------------------- acks against deliveries

  lemma AckBooked(cutoff: nat, e: Entry)
    ensures Weigh(Booked(cutoff, AllAcks), e) == if e.kind.Ack? && e.stage != Before(0) then 1 else 0
  {
    ProgramWeight(e.kind, AllAcks);
    if e.stage.Before? {
      PrefixEnds(AllProgram(e.kind));
      PrefixWeight(e.kind, e.stage.n, AllAcks);
    }
  }

  /** Acks counted, ack calls, acked deliveries and deliveries counted, each at most the next. */
  lemma AckChain(job: Job, r: Run)
    requires HInv(job, r)
    ensures var s := r.ledger;
            && Dominates(AckCall, Booked(s.cutoff, AllAcks), s.entries)
            && Val(s.value, AllAcks) == Sum(Booked(s.cutoff, AllAcks), s.entries)
            && Sum(AckCall, s.entries) == Sum(AckedFlag, s.entries)
            && Dominates(DeliveryBegun, AckedFlag, s.entries)
            && Val(s.value, AllDelivered) == Sum(DeliveryBegun, s.entries)
  {
    var s := r.ledger;
    Reading(r, AllAcks);
    DeliveredIsBegun(job, r);
    forall i | 0 <= i < |s.entries| ensures Weigh(Booked(s.cutoff, AllAcks), s.entries[i]) <= Weigh(AckCall, s.entries[i]) {
      AckBooked(s.cutoff, s.entries[i]);
    }
  }

  lemma AcksMeet(job: Job, r: Run)
    requires HInv(job, r) && Val(r.ledger.value, AllAcks) >= Val(r.ledger.value, AllDelivered)
    ensures forall i :: 0 <= i < |r.ledger.entries| ==>
              Weigh(AckedFlag, r.ledger.entries[i]) == Weigh(DeliveryBegun, r.ledger.entries[i])
    ensures forall i :: 0 <= i < |r.ledger.entries| && r.ledger.entries[i].kind.Ack? ==> r.ledger.entries[i].stage != Before(0)
  {
    var es, booked := r.ledger.entries, Booked(r.ledger.cutoff, AllAcks);
    AckChain(job, r);
    SumBounded(booked, AckCall, es);
    SumBounded(AckedFlag, DeliveryBegun, es);
    forall i | 0 <= i < |es|
      ensures Weigh(AckedFlag, es[i]) == Weigh(DeliveryBegun, es[i])
      ensures es[i].kind.Ack? ==> es[i].stage != Before(0)
    {
      SumTight(AckedFlag, DeliveryBegun, es, i);
      SumTight(booked, AckCall, es, i);
      AckBooked(r.ledger.cutoff, es[i]);
    }
  }

  lemma AllAcknowledged(job: Job, r: Run)
    requires HInv(job, r) && forall i :: 0 <= i < |r.ledger.entries| ==> Acknowledged(r.ledger.entries[i])
    ensures Val(r.ledger.value, AllAcks) == Val(r.ledger.value, AllDelivered)
  {
    var es, cutoff := r.ledger.entries, r.ledger.cutoff;
    AckChain(job, r);
    forall i | 0 <= i < |es|
      ensures Weigh(Booked(cutoff, AllAcks), es[i]) == Weigh(AckCall, es[i])
      ensures Weigh(AckedFlag, es[i]) == Weigh(DeliveryBegun, es[i])
    {
      AckBooked(cutoff, es[i]);
    }
    LT.SumSame(Booked(cutoff, AllAcks), AckCall, es);
    LT.SumSame(AckedFlag, DeliveryBegun, es);
  }

  lemma AllFirstsCounted(job: Job, r: Run)
    requires HInv(job, r) && forall i :: 0 <= i < |r.ledger.entries| ==> Acknowledged(r.ledger.entries[i])
    ensures Val(r.ledger.value, AllConsumed) == |r.seen|
  {
    var es, cutoff := r.ledger.entries, r.ledger.cutoff;
    Reading(r, AllConsumed);
    FirstsAreSeen(job, r);
    forall i | 0 <= i < |es| ensures Weigh(Booked(cutoff, AllConsumed), es[i]) == Weigh(FirstDelivery, es[i]) {
      ConsumedWeight(cutoff, es[i]);
      ProgramWeight(es[i].kind, AllConsumed);
    }
    LT.SumSame(Booked(cutoff, AllConsumed), FirstDelivery, es);
  }

  lemma AckingDrain(job: Job, r: Run)
    requires HInv(job, r)
    ensures Val(r.ledger.value, AllConsumed) >= r.ledger.alloc && Val(r.ledger.value, AllAcks) >= Val(r.ledger.value, AllDelivered)
            <==> NoWork(r, true)
  {
    var s := r.ledger;
    if Val(s.value, AllConsumed) >= s.alloc && Val(s.value, AllAcks) >= Val(s.value, AllDelivered) {
      AcksMeet(job, r);
      FirstsAreSeen(job, r);
      forall i | 0 <= i < |s.entries| ensures Acknowledged(s.entries[i]) {
        AllConsumedMeans(job, r, i);
      }
      AllConsumedMeans(job, r, 0);
    }
    if NoWork(r, true) {
      AllAcknowledged(job, r);
      AllFirstsCounted(job, r);
      UpToSize(s.alloc);
    }
  }

  // ---------------------------------------------------------------- measured totals

  lemma CountedWeight(s: State)
    requires Inv(s)
    ensures Val(s.value, Consumed) == Sum(Booked(s.cutoff, Consumed), s.entries)
    ensures Dominates(Called(Del(false), s.cutoff), Booked(s.cutoff, Consumed), s.entries)
  {
    LT.NotSampled(s, Consumed);
    assert Val(s.value, Consumed) + Val(s.emitted, Consumed) == Sum(Booked(s.cutoff, Consumed), s.entries);
    forall i | 0 <= i < |s.entries|
      ensures Weigh(Booked(s.cutoff, Consumed), s.entries[i]) <= Weigh(Called(Del(false), s.cutoff), s.entries[i])
    {
      HT.BookedBound(s.cutoff, Consumed, s.entries[i]);
      LT.TotalIsCalled(s.entries[i], s.cutoff, Consumed);
    }
  }

  /** The measured numbers that were seen. */
  lemma SeenAbove(job: Job, r: Run)
    requires HInv(job, r)
    ensures |Above(r.seen, r.ledger.cutoff)| <= r.ledger.alloc - r.ledger.cutoff
    ensures |Above(r.seen, r.ledger.cutoff)| == r.ledger.alloc - r.ledger.cutoff <==>
            Above(UpTo(r.ledger.alloc), r.ledger.cutoff) <= r.seen
  {
    var lo, n := r.ledger.cutoff, r.ledger.alloc;
    HT.AboveUpTo(n, lo);
    assert Above(r.seen, lo) <= Above(UpTo(n), lo);
    SubsetSize(Above(r.seen, lo), Above(UpTo(n), lo));
    if Above(UpTo(n), lo) <= r.seen {
      assert Above(r.seen, lo) == Above(UpTo(n), lo);
    }
  }

  lemma PlainDrain(job: Job, r: Run)
    requires HInv(job, r)
    ensures Val(r.ledger.value, Consumed) >= r.ledger.alloc - r.ledger.cutoff <==> NoWork(r, false)
  {
    var s := r.ledger;
    var booked, called := Booked(s.cutoff, Consumed), Called(Del(false), s.cutoff);
    CountedWeight(s);
    SeenAbove(job, r);
    SumBounded(booked, called, s.entries);
    assert Sum(called, s.entries) == |Above(r.seen, s.cutoff)|;
    if Val(s.value, Consumed) >= s.alloc - s.cutoff {
      forall i | 0 <= i < |s.entries| ensures Counted(s.entries[i], s.cutoff) {
        SumTight(booked, called, s.entries, i);
      }
    }
    if NoWork(r, false) {
      forall i | 0 <= i < |s.entries| ensures Weigh(booked, s.entries[i]) == Weigh(called, s.entries[i]) {
        assert Counted(s.entries[i], s.cutoff);
      }
      LT.SumSame(booked, called, s.entries);
    }
  }

  // ---------------------------------------------------------------- the check

  /** Once the publishers are done, the drain check succeeds on books that show the ledger if and only if no useful
      work is in flight, and then the measured totals meet. */
  lemma DrainedMeans(job: Job, r: Run, b: B.Books, ack: bool)
    requires HInv(job, r) && r.closed && B.Agrees(b, r.ledger)
    ensures IsDrained(b, ack) <==> NoWork(r, ack)
    ensures IsDrained(b, ack) ==> b.total.consumed == b.total.published == r.ledger.alloc - r.ledger.cutoff
  {
    var v := r.ledger.value;
    assert B.Read(b, AllConsumed) == Val(v, AllConsumed) && B.Read(b, AllPublished) == Val(v, AllPublished);
    assert B.Read(b, AllAcks) == Val(v, AllAcks) && B.Read(b, AllDelivered) == Val(v, AllDelivered);
    assert B.Read(b, Consumed) == Val(v, Consumed) && B.Read(b, Published) == Val(v, Published);
    ClosedAllPublished(job, r);
    HT.ClosedTotals(job, r);
    if ack {
      AckingDrain(job, r);
      if IsDrained(b, ack) {
        CaughtUp(job, r);
      }
    } else {
      PlainDrain(job, r);
    }
  }

  // ---------------------------------------------------------------- the check, read by read

  lemma ReadsOnly(job: Job, run: seq<Run>, ms: seq<Move>, i: nat)
    requires IsRun(job, run, ms) && i < |ms| && ms[i].Read?
    ensures run[i + 1] == run[i].(reader := DoRead(run[i]))
  {
    assert Can(job, run[i], ms[i]);
  }

  lemma ReadsInARow(r: Run)
    requires r.reader.Ready?
    ensures var v := r.ledger.value;
            var r1 := r.(reader := DoRead(r));
            var r2 := r1.(reader := DoRead(r1));
            var r3 := r2.(reader := DoRead(r2));
            DoRead(r3).Drained? <==>
              Val(v, AllConsumed) >= Val(v, AllPublished) && Val(v, AllAcks) >= Val(v, AllDelivered)
  {
  }

  /** Undisturbed, the four reads of a check report completion if and only if no useful work is in flight. */
  lemma FourReads(job: Job, run: seq<Run>, ms: seq<Move>, i: nat)
    requires IsRun(job, run, ms) && i + 4 <= |ms| && run[i].closed && run[i].reader.Ready?
    requires ms[i].Read? && ms[i + 1].Read? && ms[i + 2].Read? && ms[i + 3].Read?
    ensures run[i + 4].reader.Drained? <==> NoWork(run[i], true)
  {
    var r := run[i];
    HT.RunKeepsHInv(job, run, ms, i);
    ReadsOnly(job, run, ms, i);
    ReadsOnly(job, run, ms, i + 1);
    ReadsOnly(job, run, ms, i + 2);
    ReadsOnly(job, run, ms, i + 3);
    ReadsInARow(r);
    ClosedAllPublished(job, r);
    AckingDrain(job, r);
  }

  /** The move counts a delivery for the first time. */
  predicate CountsDelivery(r: Run, m: Move) {
    && m.Step? && m.i < |r.ledger.entries|
    && r.ledger.entries[m.i].kind.Del? && r.ledger.entries[m.i].stage == Before(0)
  }

  /** Once no useful work is in flight, that changes if and only if another delivery is counted, which is then a
      duplicate that has not been acked. */
  lemma NoWorkKept(job: Job, r: Run, m: Move)
    requires HInv(job, r) && r.closed && NoWork(r, true) && Can(job, r, m)
    ensures NoWork(Do(job, r, m), true) <==> !CountsDelivery(r, m)
  {
    if CountsDelivery(r, m) {
      CountedUnacked(job, r, m);
    } else {
      SeenStays(job, r, m);
      LedgerMoves(job, r, m);
      var ls := LedgerStep(job, r, m);
      if ls != [] {
        LabelKeepsAcknowledged(r.ledger, ls[0]);
      }
    }
  }

  ghost predicate AllSettled(s: State) {
    forall i :: 0 <= i < |s.entries| ==> Acknowledged(s.entries[i]) && (s.entries[i].acked ==> s.entries[i].stage.Done?)
  }

  lemma LabelKeepsAcknowledged(s: State, l: Label)
    requires Enabled(s, l) && AllSettled(s) && (l.Begin? ==> l.kind != Del(false))
    requires l.Advance? ==> !(s.entries[l.i].kind.Del? && s.entries[l.i].stage == Before(0))
    ensures forall i :: 0 <= i < |Apply(s, l).entries| ==> Acknowledged(Apply(s, l).entries[i])
  {
    forall i | 0 <= i < |Apply(s, l).entries| ensures Acknowledged(Apply(s, l).entries[i]) {
      if i < |s.entries| {
        assert Acknowledged(s.entries[i]);
      }
    }
  }

  lemma CountedUnacked(job: Job, r: Run, m: Move)
    requires HInv(job, r) && Can(job, r, m) && CountsDelivery(r, m)
    ensures !NoWork(Do(job, r, m), true)
  {
    var e := r.ledger.entries[m.i];
    assert !e.acked;
    assert !Acknowledged(Do(job, r, m).ledger.entries[m.i]);
  }

  lemma SeenStays(job: Job, r: Run, m: Move)
    requires HInv(job, r) && r.closed && NoWork(r, true) && Can(job, r, m)
    ensures Do(job, r, m).seen == r.seen && Do(job, r, m).ledger.alloc == r.ledger.alloc && Do(job, r, m).closed
  {
    if m.Deliver? {
      assert m.s in UpTo(r.ledger.alloc);
    }
  }

  /** How many reads a check still needs to report completion when no useful work is in flight. */
  function Needs(r: Run): nat {
    match r.reader
    case Ready => 4
    case GotConsumed(x) => if x >= r.ledger.alloc then 3 else 6
    case ConsumedOk => 2
    case GotAcks(a) => if a >= Val(r.ledger.value, AllDelivered) then 1 else 6
    case Drained => 0
    case NotDrained => 5
  }

  /** What the four counters read while no useful work is in flight. */
  lemma Readings(job: Job, r: Run)
    requires HInv(job, r) && r.closed && NoWork(r, true)
    ensures Val(r.ledger.value, AllConsumed) == Val(r.ledger.value, AllPublished) == r.ledger.alloc
    ensures Val(r.ledger.value, AllAcks) == Val(r.ledger.value, AllDelivered)
  {
    AllAcknowledged(job, r);
    AllFirstsCounted(job, r);
    UpToSize(r.ledger.alloc);
    ClosedAllPublished(job, r);
  }

  lemma LabelKeepsDelivered(s: State, l: Label)
    requires Enabled(s, l) && (l.Advance? ==> !(s.entries[l.i].kind.Del? && s.entries[l.i].stage == Before(0)))
    ensures Val(Apply(s, l).value, AllDelivered) == Val(s.value, AllDelivered)
  {
    if l.Advance? && s.entries[l.i].stage.Inside? && s.entries[l.i].stage.n < |BodyProgram(s.entries[l.i].kind, s.entries[l.i].slot)| {
      BodyIsMeasured(s.entries[l.i], s.entries[l.i].stage.n);
    }
  }

  lemma DeliveredStays(job: Job, r: Run, m: Move)
    requires Can(job, r, m) && !CountsDelivery(r, m)
    ensures Val(Do(job, r, m).ledger.value, AllDelivered) == Val(r.ledger.value, AllDelivered)
  {
    LedgerMoves(job, r, m);
    var ls := LedgerStep(job, r, m);
    if ls != [] {
      LabelKeepsDelivered(r.ledger, ls[0]);
    }
  }

  function ReadsIn(ms: seq<Move>, i: nat, j: nat): nat
    requires i <= j <= |ms|
  {
    if i == j then 0 else ReadsIn(ms, i, j - 1) + if ms[j - 1].Read? then 1 else 0
  }

  lemma NeedsFewer(job: Job, r: Run, m: Move)
    requires HInv(job, r) && r.closed && NoWork(r, true) && Can(job, r, m) && !CountsDelivery(r, m)
    ensures Needs(Do(job, r, m)) <= if m.Read? && Needs(r) > 0 then Needs(r) - 1 else Needs(r)
  {
    Readings(job, r);
    DeliveredStays(job, r, m);
    SeenStays(job, r, m);
  }

  /** A run that is closed, has no useful work in flight, and needs at most `n` more reads. */
  ghost predicate Quiet(r: Run, n: int) {
    r.closed && NoWork(r, true) && (Needs(r) <= n || r.reader.Drained?)
  }

  lemma QuietStep(job: Job, r: Run, m: Move, n: int)
    requires HInv(job, r) && Can(job, r, m) && Quiet(r, n) && !CountsDelivery(r, m)
    ensures Quiet(Do(job, r, m), if m.Read? then n - 1 else n)
  {
    NoWorkKept(job, r, m);
    SeenStays(job, r, m);
    NeedsFewer(job, r, m);
  }

  lemma {:induction false} QuietRun(job: Job, run: seq<Run>, ms: seq<Move>, i: nat, j: nat)
    requires IsRun(job, run, ms) && i <= j < |run| && run[i].closed && NoWork(run[i], true)
    requires forall n :: i <= n < j ==> !CountsDelivery(run[n], ms[n])
    ensures Quiet(run[j], Needs(run[i]) - ReadsIn(ms, i, j))
  {
    if i < j {
      QuietRun(job, run, ms, i, j - 1);
      HT.RunKeepsHInv(job, run, ms, j - 1);
      assert Can(job, run[j - 1], ms[j - 1]);
      QuietStep(job, run[j - 1], ms[j - 1], Needs(run[i]) - ReadsIn(ms, i, j - 1));
    }
  }

  /** Once no useful work is in flight and until another delivery is counted, the check reports completion after six
      reads at the latest, after four if it starts over, whatever other moves fall between its reads. */
  lemma QuietRunDrains(job: Job, run: seq<Run>, ms: seq<Move>, i: nat, j: nat)
    requires IsRun(job, run, ms) && i <= j < |run| && run[i].closed && NoWork(run[i], true)
    requires forall n :: i <= n < j ==> !CountsDelivery(run[n], ms[n])
    ensures ReadsIn(ms, i, j) >= 6 || (run[i].reader.Ready? && ReadsIn(ms, i, j) >= 4) ==> run[j].reader.Drained?
  {
    QuietRun(job, run, ms, i, j);
  }
}
