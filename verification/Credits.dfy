/** Whose work the figures of a connection or a publish channel count, over every run of the harness. */
module Credits {
  import opened Ledger
  import opened Harness
  import HI = HarnessInvariant
  import HT = HarnessTheorems
  import LT = LedgerTheorems

  datatype Share = DeliveredOn(j: nat) | ConsumedOn(j: nat) | PublishedOn(j: nat) | PublishedBy(j: nat)

  function CounterOf(sh: Share): Counter {
    match sh
    case DeliveredOn(j) => ConnDelivered(j)
    case ConsumedOn(j) => ConnConsumed(j)
    case PublishedOn(j) => ConnPublished(j)
    case PublishedBy(j) => PubCh(j)
  }

  /** The move is a delivery to a worker on connection `j`, or its first sighting, or the publish record of a worker on
      connection `j` or with publish index `j`, for a number above `lo`. */
  predicate Earns(job: Job, r: Run, m: Move, lo: nat, sh: Share) {
    match sh
    case DeliveredOn(j) => m.Deliver? && m.s > lo && m.v < |job.consSlots| && job.consSlots[m.v].conn == j
    case ConsumedOn(j) => m.Deliver? && m.s > lo && m.v < |job.consSlots| && job.consSlots[m.v].conn == j && m.s !in r.seen
    case PublishedOn(j) => Records(job, r, m, lo) && job.pubSlots[m.w].conn == j
    case PublishedBy(j) => Records(job, r, m, lo) && job.pubSlots[m.w].publishCapIdx == j
  }

  predicate Records(job: Job, r: Run, m: Move, lo: nat) {
    && m.Record? && m.w < |r.workers| && m.w < |job.pubSlots|
    && r.workers[m.w].phase.Sent? && r.workers[m.w].phase.seqNo > lo
  }

  function Earned(job: Job, run: seq<Run>, ms: seq<Move>, n: nat, lo: nat, sh: Share): nat
    requires n <= |run| && n <= |ms|
  {
    if n == 0 then 0 else Earned(job, run, ms, n - 1, lo, sh) + One(Earns(job, run[n - 1], ms[n - 1], lo, sh))
  }

  lemma LabelOwes(s: State, l: Label, m: Measure)
    requires Enabled(s, l) && m.Owed? && !AllTime(m.k) && !m.k.AckLatTot? && !m.k.AckLatWin?
    ensures Sum(m, Apply(s, l).entries)
            == Sum(m, s.entries) + if l.Begin? && l.seqNo > m.cutoff then Owing(l.kind, l.slot, m.k) else 0
  {
    match l {
      case Begin(kind, n, sl) => SumAppend(m, s.entries, Entry(kind, n, sl, Before(0), false));
      case BeginAck(i) => LT.BeginAckSum(m, s, i);
      case Advance(i) => SumUpdate(m, s.entries, i, DoAdvance(s, i).entries[i]);
      case _ =>
    }
  }

  function Owes(ls: seq<Label>, lo: nat, k: Counter): nat {
    if ls != [] && ls[0].Begin? && ls[0].seqNo > lo then Owing(ls[0].kind, ls[0].slot, k) else 0
  }

  lemma StepEarns(job: Job, r: Run, m: Move, lo: nat, sh: Share)
    requires Can(job, r, m)
    ensures Owes(HI.LedgerStep(job, r, m), lo, CounterOf(sh)) == One(Earns(job, r, m, lo, sh))
  {
  }

  lemma MoveEarns(job: Job, r: Run, m: Move, lo: nat, sh: Share)
    requires Can(job, r, m)
    ensures var owed := Owed(lo, CounterOf(sh));
            Sum(owed, Do(job, r, m).ledger.entries) == Sum(owed, r.ledger.entries) + One(Earns(job, r, m, lo, sh))
  {
    HI.LedgerMoves(job, r, m);
    StepEarns(job, r, m, lo, sh);
    var ls := HI.LedgerStep(job, r, m);
    if ls != [] {
      LabelOwes(r.ledger, ls[0], Owed(lo, CounterOf(sh)));
    }
  }

  lemma {:induction false} EarnedIsOwed(job: Job, run: seq<Run>, ms: seq<Move>, i: nat, lo: nat, sh: Share)
    requires IsRun(job, run, ms) && i < |run|
    ensures Sum(Owed(lo, CounterOf(sh)), run[i].ledger.entries) == Earned(job, run, ms, i, lo, sh)
  {
    if i > 0 {
      EarnedIsOwed(job, run, ms, i - 1, lo, sh);
      assert Can(job, run[i - 1], ms[i - 1]);
      MoveEarns(job, run[i - 1], ms[i - 1], lo, sh);
    }
  }

  /** Over every run, whenever no record call is in progress, the figures of a connection or a publish channel count
      exactly the moves of the workers seated there, for numbers above the cutoff. */
  lemma SharesAtRest(job: Job, run: seq<Run>, ms: seq<Move>, i: nat, sh: Share)
    requires IsRun(job, run, ms) && i < |run| && LT.AtRest(run[i].ledger)
    ensures Val(run[i].ledger.value, CounterOf(sh)) == Earned(job, run, ms, i, run[i].ledger.cutoff, sh)
  {
    HT.RunKeepsHInv(job, run, ms, i);
    LT.NothingLeaks(run[i].ledger, CounterOf(sh));
    LT.NotSampled(run[i].ledger, CounterOf(sh));
    EarnedIsOwed(job, run, ms, i, run[i].ledger.cutoff, sh);
  }
}
