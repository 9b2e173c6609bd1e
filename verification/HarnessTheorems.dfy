/** What holds over every run of the harness: the message budget, first sightings, and exact drains. */
module HarnessTheorems {
  import opened Ledger
  import opened Harness
  import opened HarnessInvariant
  import LT = LedgerTheorems

  lemma {:induction false} IdleSums(ws: seq<Worker>, lo: nat)
    requires forall w :: 0 <= w < |ws| ==> ws[w] == Worker(0, Idle)
    ensures TakenSum(ws) == 0 && UnrecordedSum(ws, lo) == 0
  {
    if ws != [] {
      IdleSums(ws[..|ws| - 1], lo);
    }
  }

  lemma StartHInv(job: Job)
    ensures HInv(job, Start(job))
  {
    var r := Start(job);
    IdleSums(r.workers, 0);
    forall k ensures Val(r.ledger.value, k) + Val(r.ledger.emitted, k) == Sum(Booked(0, k), r.ledger.entries) {
      LT.EmptySums(k);
    }
    forall lo: nat ensures Sum(Called(Del(false), lo), r.ledger.entries) == |Above(r.seen, lo)| {
      assert Above(r.seen, lo) == {};
    }
  }

  lemma {:induction false} RunKeepsHInv(job: Job, run: seq<Run>, ms: seq<Move>, i: nat)
    requires IsRun(job, run, ms) && i < |run|
    ensures HInv(job, run[i])
  {
    if i == 0 {
      StartHInv(job);
    } else {
      RunKeepsHInv(job, run, ms, i - 1);
      assert Can(job, run[i - 1], ms[i - 1]);
      MoveKeepsHInv(job, run[i - 1], ms[i - 1]);
    }
  }

  /** A message that was sent can always be delivered and recorded: the range guards never block. */
  lemma GuardsHold(job: Job, run: seq<Run>, ms: seq<Move>, i: nat)
    requires IsRun(job, run, ms) && i < |run|
    ensures var r := run[i];
            && (forall w :: 0 <= w < |r.workers| && r.workers[w].phase.Sent? ==> Can(job, r, Record(w)))
            && (forall s, v :: s in r.sent && 0 <= v < |job.consSlots| ==> Can(job, r, Deliver(s, v)))
  {
    RunKeepsHInv(job, run, ms, i);
  }

  // ---------------------------------------------------------------- what only grows

  ghost predicate Grown(a: Run, b: Run) {
    && a.ledger.alloc <= b.ledger.alloc && a.ledger.cutoff <= b.ledger.cutoff
    && a.sent <= b.sent && a.seen <= b.seen
    && (a.closed ==> b.closed && b.ledger.alloc == a.ledger.alloc)
    && (a.reader.Drained? ==> b.reader.Drained?)
  }

  lemma MoveGrows(job: Job, r: Run, m: Move)
    requires Can(job, r, m) && Inv(r.ledger)
    ensures Grown(r, Do(job, r, m))
  {
  }

  lemma StepGrows(job: Job, run: seq<Run>, ms: seq<Move>, i: nat)
    requires IsRun(job, run, ms) && i < |ms|
    ensures Grown(run[i], run[i + 1])
  {
    RunKeepsHInv(job, run, ms, i);
    assert Can(job, run[i], ms[i]);
    MoveGrows(job, run[i], ms[i]);
  }

  lemma {:induction false} RunGrows(job: Job, run: seq<Run>, ms: seq<Move>, i: nat, j: nat)
    requires IsRun(job, run, ms) && i <= j < |run|
    ensures Grown(run[i], run[j])
    decreases j - i
  {
    if i < j {
      StepGrows(job, run, ms, i);
      RunGrows(job, run, ms, i + 1, j);
    }
  }

  /** Once the broker has accepted a message, every consumer can be delivered it for the rest of the run. */
  lemma SentIsDeliverable(job: Job, run: seq<Run>, ms: seq<Move>, i: nat, k: nat, v: nat)
    requires IsRun(job, run, ms) && i < k < |run| && i < |ms| && ms[i].Send? && v < |job.consSlots|
    ensures Can(job, run[i], ms[i]) && Can(job, run[k], Deliver(run[i].workers[ms[i].w].phase.seqNo, v))
  {
    assert Can(job, run[i], ms[i]) && run[i + 1] == Do(job, run[i], ms[i]);
    RunGrows(job, run, ms, i + 1, k);
    GuardsHold(job, run, ms, k);
  }

  // ---------------------------------------------------------------- the budget

  /** Every number a publisher ever takes is new and within the budget, so its place in the send-time table
      exists and is stamped by nobody else. */
  lemma NumbersDistinct(job: Job, run: seq<Run>, ms: seq<Move>, i: nat, j: nat)
    requires IsRun(job, run, ms) && i < j < |ms| && ms[i].Take? && ms[j].Take?
    ensures var a, b := run[i].ledger.alloc + 1, run[j].ledger.alloc + 1;
            && Can(job, run[i], ms[i]) && run[i + 1].workers[ms[i].w].phase == Holding(a)
            && Can(job, run[j], ms[j]) && run[j + 1].workers[ms[j].w].phase == Holding(b)
            && 1 <= a < b <= Budget(job)
  {
    RunGrows(job, run, ms, i + 1, j);
    RunKeepsHInv(job, run, ms, i);
    RunKeepsHInv(job, run, ms, j);
    assert run[i + 1] == Do(job, run[i], ms[i]) && run[j + 1] == Do(job, run[j], ms[j]);
    TakesWithinBudget(job, run[i], ms[i].w);
    TakesWithinBudget(job, run[j], ms[j].w);
  }

  /** The budget error is never returned, and every number in a publisher's hands fits the table. */
  lemma BudgetHolds(job: Job, run: seq<Run>, ms: seq<Move>, i: nat, w: nat)
    requires IsRun(job, run, ms) && i < |run| && w < |job.pubSlots|
    ensures run[i].ledger.alloc <= Budget(job)
    ensures w < |run[i].workers| && !run[i].workers[w].phase.OverBudget?
    ensures Holds(run[i].workers[w].phase) ==> 1 <= run[i].workers[w].phase.seqNo <= Budget(job)
  {
    RunKeepsHInv(job, run, ms, i);
    TakenBounded(run[i].workers, job.msgs);
  }

  lemma {:induction false} UnrecordedOrder(ws: seq<Worker>, n: nat)
    requires n > 0
    ensures UnrecordedSum(ws, n) <= UnrecordedSum(ws, n - 1)
  {
    if ws != [] {
      UnrecordedOrder(ws[..|ws| - 1], n);
    }
  }

  lemma TwoHolders(ws: seq<Worker>, v: nat, w: nat, n: nat)
    requires v < |ws| && w < |ws| && v != w && n > 0
    requires Holds(ws[v].phase) && Holds(ws[w].phase) && ws[v].phase.seqNo == ws[w].phase.seqNo == n
    ensures UnrecordedSum(ws, n - 1) >= UnrecordedSum(ws, n) + 2
  {
    var idle := Worker(0, Idle);
    var ws1 := ws[v := idle];
    var ws2 := ws1[w := idle];
    UnrecordedUpdate(ws, v, idle, n - 1);
    UnrecordedUpdate(ws, v, idle, n);
    UnrecordedUpdate(ws1, w, idle, n - 1);
    UnrecordedUpdate(ws1, w, idle, n);
    UnrecordedOrder(ws2, n);
  }

  lemma {:induction false} CalledOrder(es: seq<Entry>, kind: Kind, n: nat)
    requires n > 0
    ensures Sum(Called(kind, n), es) <= Sum(Called(kind, n - 1), es)
  {
    if es != [] {
      CalledOrder(es[..|es| - 1], kind, n);
    }
  }

  /** At no moment do two publishers hold the same number. */
  lemma HeldByOne(job: Job, run: seq<Run>, ms: seq<Move>, i: nat, v: nat, w: nat)
    requires IsRun(job, run, ms) && i < |run| && v < |run[i].workers| && w < |run[i].workers| && v != w
    requires Holds(run[i].workers[v].phase) && Holds(run[i].workers[w].phase)
    ensures run[i].workers[v].phase.seqNo != run[i].workers[w].phase.seqNo
  {
    var r := run[i];
    var n := r.workers[v].phase.seqNo;
    RunKeepsHInv(job, run, ms, i);
    CalledOrder(r.ledger.entries, Pub, n);
    assert Sum(Called(Pub, n), r.ledger.entries) + UnrecordedSum(r.workers, n) == r.ledger.alloc - n;
    assert Sum(Called(Pub, n - 1), r.ledger.entries) + UnrecordedSum(r.workers, n - 1) == r.ledger.alloc - (n - 1);
    if r.workers[w].phase.seqNo == n {
      TwoHolders(r.workers, v, w, n);
    }
  }

  /** Of all deliveries of one message, over all consumers, only the earliest is recorded as a first sighting. */
  lemma FirstSeenOnce(job: Job, run: seq<Run>, ms: seq<Move>, i: nat, j: nat)
    requires IsRun(job, run, ms) && i < j < |ms| && ms[i].Deliver? && ms[j].Deliver? && ms[i].s == ms[j].s
    ensures |run[j + 1].ledger.entries| == |run[j].ledger.entries| + 1
    ensures run[j + 1].ledger.entries[|run[j].ledger.entries|].kind == Del(true)
  {
    assert Can(job, run[i], ms[i]) && run[i + 1] == Do(job, run[i], ms[i]);
    assert ms[i].s in run[i + 1].seen;
    RunGrows(job, run, ms, i + 1, j);
    assert Can(job, run[j], ms[j]) && run[j + 1] == Do(job, run[j], ms[j]);
  }

  // ---------------------------------------------------------------- what the measured totals can show

  lemma OccPrefix(ks: seq<Counter>, n: nat, k: Counter)
    ensures Occ(Prefix(ks, n), k) <= Occ(ks, k)
  {
    if n <= |ks| {
      assert ks == ks[..n] + ks[n..];
      LT.OccConcat(ks[..n], ks[n..], k);
    }
  }

  /** A record call never books more on a measured counter than it owes, and once done it has booked all of it. */
  lemma BookedBound(cutoff: nat, k: Counter, e: Entry)
    requires !AllTime(k)
    ensures Weigh(Booked(cutoff, k), e) <= Weigh(Owed(cutoff, k), e)
    ensures e.stage.Done? ==> Weigh(Booked(cutoff, k), e) == Weigh(Owed(cutoff, k), e)
  {
    LT.ProgramOwes(e.kind, e.slot, k);
    if e.stage.Inside? {
      OccPrefix(BodyProgram(e.kind, e.slot), e.stage.n, k);
    }
  }

  lemma TotalBound(s: State, k: Counter)
    requires Inv(s) && (k.Published? || k.Consumed?)
    ensures Val(s.value, k) <= Sum(Called(LT.CountedBy(k), s.cutoff), s.entries)
    ensures (forall i :: 0 <= i < |s.entries| && s.entries[i].kind == LT.CountedBy(k) ==> s.entries[i].stage.Done?) ==>
              Val(s.value, k) == Sum(Called(LT.CountedBy(k), s.cutoff), s.entries)
  {
    var booked, called := Booked(s.cutoff, k), Called(LT.CountedBy(k), s.cutoff);
    assert Val(s.value, k) + Val(s.emitted, k) == Sum(booked, s.entries);
    LT.NotSampled(s, k);
    forall i | 0 <= i < |s.entries|
      ensures Weigh(booked, s.entries[i]) <= Weigh(called, s.entries[i])
      ensures s.entries[i].stage.Done? || s.entries[i].kind != LT.CountedBy(k) ==> Weigh(booked, s.entries[i]) == Weigh(called, s.entries[i])
    {
      BookedBound(s.cutoff, k, s.entries[i]);
      LT.TotalIsCalled(s.entries[i], s.cutoff, k);
    }
    SumBounded(booked, called, s.entries);
    if forall i :: 0 <= i < |s.entries| && s.entries[i].kind == LT.CountedBy(k) ==> s.entries[i].stage.Done? {
      LT.SumSame(booked, called, s.entries);
    }
  }

  lemma AboveUpTo(n: nat, lo: nat)
    requires lo <= n
    ensures |Above(UpTo(n), lo)| == n - lo
  {
    UpToSize(n);
    UpToSize(lo);
    assert UpTo(n) == Above(UpTo(n), lo) + UpTo(lo);
    assert |Above(UpTo(n), lo) + UpTo(lo)| == |Above(UpTo(n), lo)| + |UpTo(lo)|;
  }

  /** First deliveries above the cutoff are at most the numbers above it. */
  lemma FirstsAbove(job: Job, r: Run)
    requires HInv(job, r)
    ensures Sum(Called(Del(false), r.ledger.cutoff), r.ledger.entries) <= r.ledger.alloc - r.ledger.cutoff
    ensures |r.seen| == r.ledger.alloc ==>
              Sum(Called(Del(false), r.ledger.cutoff), r.ledger.entries) == r.ledger.alloc - r.ledger.cutoff
  {
    var lo, n := r.ledger.cutoff, r.ledger.alloc;
    FirstsAreSeen(job, r);
    AboveUpTo(n, lo);
    assert Above(r.seen, lo) <= Above(UpTo(n), lo);
    SubsetSize(Above(r.seen, lo), Above(UpTo(n), lo));
  }

  /** After the publishers are done the measured publish total is exact, and the measured consume total never
      exceeds it. */
  lemma ClosedTotals(job: Job, r: Run)
    requires HInv(job, r) && r.closed
    ensures Val(r.ledger.value, Published) == r.ledger.alloc - r.ledger.cutoff
    ensures Val(r.ledger.value, Consumed) <= Val(r.ledger.value, Published)
    ensures AllFirstsDone(r) ==> Val(r.ledger.value, Consumed) == Val(r.ledger.value, Published)
  {
    ClosedPublished(job, r);
    TotalBound(r.ledger, Published);
    TotalBound(r.ledger, Consumed);
    FirstsAbove(job, r);
  }

  // ---------------------------------------------------------------- drains

  /** The summary's drops: what is missing from the published, if anything is. */
  function Drops(published: nat, consumed: nat): (r: nat)
    ensures consumed + r >= published && (r > 0 ==> consumed + r == published)
  {
    if published > consumed then published - consumed else 0
  }

  /** A drain reported complete on an acking run: from then on measured consumed equals measured published,
      both being exactly the numbers above the cutoff. */
  lemma DrainIsExact(job: Job, run: seq<Run>, ms: seq<Move>, i: nat, j: nat)
    requires IsRun(job, run, ms) && i <= j < |run| && run[i].reader.Drained?
    ensures Val(run[j].ledger.value, Consumed) == Val(run[j].ledger.value, Published)
            == run[j].ledger.alloc - run[j].ledger.cutoff
  {
    RunGrows(job, run, ms, i, j);
    RunKeepsHInv(job, run, ms, j);
    ClosedTotals(job, run[j]);
  }

  /** Then, wherever the two totals are read after the drain within one measured phase, nothing counts as
      dropped and the summary balances. */
  lemma NoDropsAfterDrain(job: Job, run: seq<Run>, ms: seq<Move>, i: nat, p: nat, q: nat)
    requires IsRun(job, run, ms) && i <= p < |run| && i <= q < |run| && run[i].reader.Drained?
    requires run[p].ledger.cutoff == run[q].ledger.cutoff
    ensures var published, consumed := Val(run[p].ledger.value, Published), Val(run[q].ledger.value, Consumed);
            Drops(published, consumed) == 0 && consumed + Drops(published, consumed) == published
  {
    DrainIsExact(job, run, ms, i, p);
    DrainIsExact(job, run, ms, i, q);
    RunGrows(job, run, ms, i, p);
    RunGrows(job, run, ms, i, q);
    RunKeepsHInv(job, run, ms, i);
  }

  /** No move of a closed run lowers the measured consume total without moving the cutoff. */
  lemma MoveKeepsConsumed(job: Job, r: Run, m: Move)
    requires Can(job, r, m) && HInv(job, r) && r.closed && Do(job, r, m).ledger.cutoff == r.ledger.cutoff
    ensures Val(r.ledger.value, Consumed) <= Val(Do(job, r, m).ledger.value, Consumed)
  {
    ClosedTotals(job, r);
    LedgerMoves(job, r, m);
    var ls := LedgerStep(job, r, m);
    if ls != [] {
      LabelKeepsConsumed(r.ledger, ls[0]);
    }
  }

  lemma LabelKeepsConsumed(s: State, l: Label)
    requires Enabled(s, l) && Apply(s, l).cutoff == s.cutoff && Val(s.value, Consumed) <= s.alloc - s.cutoff
    ensures Val(s.value, Consumed) <= Val(Apply(s, l).value, Consumed)
  {
  }

  /** Within a phase the measured consume total does not go down. */
  lemma {:induction false} ConsumedGrows(job: Job, run: seq<Run>, ms: seq<Move>, i: nat, j: nat)
    requires IsRun(job, run, ms) && i <= j < |run| && run[i].closed && run[i].ledger.cutoff == run[j].ledger.cutoff
    ensures Val(run[i].ledger.value, Consumed) <= Val(run[j].ledger.value, Consumed)
    decreases j - i
  {
    if i < j {
      StepGrows(job, run, ms, i);
      RunGrows(job, run, ms, i + 1, j);
      StepKeepsConsumed(job, run, ms, i);
      ConsumedGrows(job, run, ms, i + 1, j);
    }
  }

  lemma StepKeepsConsumed(job: Job, run: seq<Run>, ms: seq<Move>, i: nat)
    requires IsRun(job, run, ms) && i < |ms| && run[i].closed && run[i + 1].ledger.cutoff == run[i].ledger.cutoff
    ensures Val(run[i].ledger.value, Consumed) <= Val(run[i + 1].ledger.value, Consumed)
  {
    RunKeepsHInv(job, run, ms, i);
    assert Can(job, run[i], ms[i]);
    MoveKeepsConsumed(job, run[i], ms[i]);
  }

  /** A drain of a run without acks compares the measured totals only; read one at a time within one phase, it
      too is exact from then on. */
  lemma PlainDrainIsExact(job: Job, run: seq<Run>, ms: seq<Move>, i: nat, j: nat, k: nat)
    requires IsRun(job, run, ms) && i <= j <= k < |run| && run[i].closed
    requires run[i].ledger.cutoff == run[j].ledger.cutoff == run[k].ledger.cutoff
    requires Val(run[i].ledger.value, Consumed) >= Val(run[j].ledger.value, Published)
    ensures Val(run[k].ledger.value, Consumed) == Val(run[k].ledger.value, Published)
  {
    RunGrows(job, run, ms, i, j);
    RunGrows(job, run, ms, j, k);
    RunKeepsHInv(job, run, ms, j);
    RunKeepsHInv(job, run, ms, k);
    ClosedTotals(job, run[j]);
    ClosedTotals(job, run[k]);
    ConsumedGrows(job, run, ms, i, k);
  }
}
