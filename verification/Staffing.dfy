/** From the plan to the running harness: the workers started, and what their records add up to. */
module Staffing {
  import opened Placement
  import opened Topology
  import opened Planner
  import opened Ledger
  import LT = LedgerTheorems
  import opened Harness
  import HI = HarnessInvariant
  import HT = HarnessTheorems
  import PP = PlanProperties

  datatype Team = Publishers | Consumers

  function Crew(team: Team, sl: Slot): seq<nat> {
    match team case Publishers => sl.pubGoroutines case Consumers => sl.consGoroutines
  }

  function Capable(team: Team, t: Topology): seq<nat> {
    match team case Publishers => t.publishCapable case Consumers => t.consumeCapable
  }

  function Headcount(team: Team, c: Config): int {
    match team case Publishers => c.publishers case Consumers => c.consumers
  }

  function Copies(sl: Slot, n: nat): seq<Slot> {
    if n == 0 then [] else Copies(sl, n - 1) + [sl]
  }

  ghost predicate Linked(team: Team, t: Topology) {
    forall k :: 0 <= k < |Capable(team, t)| ==> Capable(team, t)[k] < |t.slots|
  }

  /** One seat for each worker of the team on the first `k` capable slots. */
  function Seats(team: Team, t: Topology, k: nat): seq<Slot>
    requires Linked(team, t) && k <= |Capable(team, t)|
  {
    if k == 0 then []
    else var sl := t.slots[Capable(team, t)[k - 1]]; Seats(team, t, k - 1) + Copies(sl, |Crew(team, sl)|)
  }

  /** Starts one worker for every goroutine index placed on a capable slot. */
  method Launch(team: Team, t: Topology) returns (seats: seq<Slot>)
    requires Linked(team, t)
    ensures seats == Seats(team, t, |Capable(team, t)|)
  {
    seats := [];
    for k := 0 to |Capable(team, t)|
      invariant seats == Seats(team, t, k)
    {
      var sl := t.slots[Capable(team, t)[k]];
      ghost var before := seats;
      for j := 0 to |Crew(team, sl)|
        invariant seats == before + Copies(sl, j)
      {
        seats := seats + [sl];
      }
    }
  }

  // ---------------------------------------------------------------- how many workers

  function LoadSum(mode: Distribution, cap: int, n: nat, count: nat, h: nat): nat
    requires n > 0
  {
    if h == 0 then 0 else LoadSum(mode, cap, n, count, h - 1) + |InBin(mode, cap, n, count, h - 1)|
  }

  lemma {:induction false} LoadStep(mode: Distribution, cap: int, n: nat, count: nat, h: nat)
    requires n > 0 && count > 0
    ensures LoadSum(mode, cap, n, count, h)
            == LoadSum(mode, cap, n, count - 1, h) + if Bin(mode, cap, n, count - 1) < h then 1 else 0
  {
    if h > 0 {
      LoadStep(mode, cap, n, count, h - 1);
    }
  }

  lemma {:induction false} NoLoad(mode: Distribution, cap: int, n: nat, h: nat)
    requires n > 0
    ensures LoadSum(mode, cap, n, 0, h) == 0
  {
    if h > 0 {
      NoLoad(mode, cap, n, h - 1);
    }
  }

  /** The loads of all bins add up to the items placed. */
  lemma {:induction false} LoadTotal(mode: Distribution, cap: int, n: nat, count: nat)
    requires n > 0 && Fits(mode, cap, n, count)
    ensures LoadSum(mode, cap, n, count, n) == count
  {
    if count == 0 {
      NoLoad(mode, cap, n, n);
    } else {
      LoadTotal(mode, cap, n, count - 1);
      LoadStep(mode, cap, n, count, n);
      BinInRange(mode, cap, n, count, count - 1);
    }
  }

  function ModeOf(team: Team, c: Config): Distribution {
    match team case Publishers => c.pubChannelsDist case Consumers => c.channelsDist
  }

  function CapOf(team: Team, c: Config): int {
    match team case Publishers => c.maxPublishersPerChannel case Consumers => c.maxConsumersPerChannel
  }

  lemma CopiesSize(sl: Slot, n: nat)
    ensures |Copies(sl, n)| == n && forall x :: x in Copies(sl, n) ==> x == sl
  {
  }

  /** The `k`-th capable slot of a plan carries the team's `k`-th bin. */
  lemma CrewIsBin(team: Team, c: Config, t: Topology, k: nat)
    requires Feasible(c) && IsPlan(c, t) && k < |Capable(team, t)|
    ensures Capable(team, t)[k] < |t.slots|
    ensures Crew(team, t.slots[Capable(team, t)[k]])
            == InBin(ModeOf(team, c), CapOf(team, c), |Capable(team, t)|, Headcount(team, c), k)
  {
    if team.Publishers? {
      PubAt(c, c.channels, k);
    } else {
      ConsAt(c, c.channels, k);
    }
  }

  lemma PlanLinked(team: Team, c: Config, t: Topology)
    requires Feasible(c) && IsPlan(c, t)
    ensures Linked(team, t)
  {
    forall k | 0 <= k < |Capable(team, t)| ensures Capable(team, t)[k] < |t.slots| {
      CrewIsBin(team, c, t, k);
    }
  }

  lemma {:induction false} SeatsCounted(team: Team, c: Config, t: Topology, k: nat)
    requires Feasible(c) && IsPlan(c, t) && Linked(team, t) && 0 < k <= |Capable(team, t)|
    ensures |Seats(team, t, k)|
            == LoadSum(ModeOf(team, c), CapOf(team, c), |Capable(team, t)|, Headcount(team, c), k)
  {
    CrewIsBin(team, c, t, k - 1);
    var sl := t.slots[Capable(team, t)[k - 1]];
    CopiesSize(sl, |Crew(team, sl)|);
    if k > 1 {
      SeatsCounted(team, c, t, k - 1);
    }
  }

  lemma RoomFor(team: Team, c: Config, t: Topology)
    requires Feasible(c) && IsPlan(c, t)
    ensures var n := |Capable(team, t)|;
            if n == 0 then Headcount(team, c) == 0 else Fits(ModeOf(team, c), CapOf(team, c), n, Headcount(team, c))
    ensures Headcount(team, c) >= 0
  {
    CapableCount(team, c, t);
  }

  lemma CapableCount(team: Team, c: Config, t: Topology)
    requires Feasible(c) && IsPlan(c, t)
    ensures |Capable(team, t)| == match team case Publishers => PublishSlots(c) case Consumers => ConsumeSlots(c)
  {
    Counts(c);
  }

  /** An accepted plan starts exactly the workers asked for. */
  lemma EveryWorkerStarts(team: Team, c: Config, t: Topology)
    requires Feasible(c) && IsPlan(c, t)
    ensures Linked(team, t) && |Seats(team, t, |Capable(team, t)|)| == Headcount(team, c)
  {
    PlanLinked(team, c, t);
    RoomFor(team, c, t);
    var n := |Capable(team, t)|;
    if n > 0 {
      SeatsCounted(team, c, t, n);
      LoadTotal(ModeOf(team, c), CapOf(team, c), n, Headcount(team, c));
    }
  }

  lemma {:induction false} CopiesCounted(sl: Slot, n: nat, x: Slot)
    ensures multiset(Copies(sl, n))[x] == if x == sl then n else 0
  {
    if n > 0 {
      CopiesCounted(sl, n - 1, x);
    }
  }

  lemma SeatsStep(team: Team, t: Topology, k: nat, x: Slot)
    requires Linked(team, t) && 0 < k <= |Capable(team, t)|
    ensures var sl := t.slots[Capable(team, t)[k - 1]];
            multiset(Seats(team, t, k))[x] == multiset(Seats(team, t, k - 1))[x] + if x == sl then |Crew(team, sl)| else 0
  {
    var sl := t.slots[Capable(team, t)[k - 1]];
    CopiesCounted(sl, |Crew(team, sl)|, x);
  }

  lemma OnTheList(list: seq<nat>, k: nat, i: nat)
    requires 0 < k <= |list| && StrictlyIncreasing(list)
    ensures i in list[..k] <==> i in list[..k - 1] || i == list[k - 1]
    ensures list[k - 1] !in list[..k - 1]
  {
    assert list[..k] == list[..k - 1] + [list[k - 1]];
  }

  /** Distinct slots, each at most once on the list: the seats of slot `i` are its workers, if it is on the list. */
  lemma {:induction false} SeatsOfSlot(team: Team, t: Topology, k: nat, i: nat)
    requires Linked(team, t) && k <= |Capable(team, t)| && i < |t.slots| && StrictlyIncreasing(Capable(team, t))
    requires forall a :: 0 <= a < |t.slots| ==> t.slots[a].globalIndex == a
    ensures multiset(Seats(team, t, k))[t.slots[i]] == if i in Capable(team, t)[..k] then |Crew(team, t.slots[i])| else 0
  {
    if k > 0 {
      SeatsOfSlot(team, t, k - 1, i);
      SeatsStep(team, t, k, t.slots[i]);
      OnTheList(Capable(team, t), k, i);
      assert t.slots[Capable(team, t)[k - 1]].globalIndex == Capable(team, t)[k - 1];
    }
  }

  lemma PlanListed(team: Team, c: Config, t: Topology, i: nat)
    requires Feasible(c) && IsPlan(c, t) && i < |t.slots|
    ensures t.slots[i].globalIndex == i && StrictlyIncreasing(Capable(team, t))
    ensures i !in Capable(team, t) ==> Crew(team, t.slots[i]) == []
  {
    PP.CapabilityLists(c, t);
  }

  /** In an accepted plan every slot gets exactly as many workers of a team as it has goroutine indices for it. */
  lemma SeatsPerSlot(team: Team, c: Config, t: Topology, i: nat)
    requires Feasible(c) && IsPlan(c, t) && i < |t.slots|
    ensures Linked(team, t)
    ensures multiset(Seats(team, t, |Capable(team, t)|))[t.slots[i]] == |Crew(team, t.slots[i])|
  {
    PlanLinked(team, c, t);
    forall a: nat | a < |t.slots| ensures t.slots[a].globalIndex == a {
      PlanListed(team, c, t, a);
    }
    PlanListed(team, c, t, i);
    SeatsOfSlot(team, t, |Capable(team, t)|, i);
    assert Capable(team, t)[..|Capable(team, t)|] == Capable(team, t);
  }

  lemma {:induction false} SeatsAreCapable(team: Team, t: Topology, k: nat, x: nat)
    requires Linked(team, t) && k <= |Capable(team, t)| && x < |Seats(team, t, k)|
    ensures exists i :: 0 <= i < |t.slots| && i in Capable(team, t) && Seats(team, t, k)[x] == t.slots[i]
  {
    if x < |Seats(team, t, k - 1)| {
      SeatsAreCapable(team, t, k - 1, x);
    } else {
      var i := Capable(team, t)[k - 1];
      var sl := t.slots[i];
      CopiesSize(sl, |Crew(team, sl)|);
      assert Seats(team, t, k)[x] == Copies(sl, |Crew(team, sl)|)[x - |Seats(team, t, k - 1)|];
      assert Seats(team, t, k)[x] in Copies(sl, |Crew(team, sl)|);
      assert i in Capable(team, t) && Seats(team, t, k)[x] == t.slots[i];
    }
  }

  // ---------------------------------------------------------------- the planned job

  function JobOf(c: Config, t: Topology): Job
    requires c.msgs >= 0 && Linked(Publishers, t) && Linked(Consumers, t)
  {
    Job(c.msgs, Seats(Publishers, t, |t.publishCapable|), Seats(Consumers, t, |t.consumeCapable|))
  }

  /** The send-time table has publishers x msgs places; that is the budget of the publishers started. */
  lemma PlannedBudget(c: Config, t: Topology)
    requires Feasible(c) && IsPlan(c, t)
    ensures Linked(Publishers, t) && Linked(Consumers, t)
    ensures Budget(JobOf(c, t)) == c.publishers * c.msgs
  {
    EveryWorkerStarts(Publishers, c, t);
    EveryWorkerStarts(Consumers, c, t);
  }

  ghost predicate AllStaffed(t: Topology, r: Run) {
    forall i :: 0 <= i < |r.ledger.entries| ==> LT.Staffed(t, r.ledger.entries[i])
  }

  /** A ledger step keeps the kind and slot of every record call; an ack takes over its delivery's slot. */
  lemma StepKeepsSlots(s: State, l: Label)
    requires Enabled(s, l)
    ensures var es, es' := s.entries, Apply(s, l).entries;
            && |es| <= |es'| <= |es| + 1
            && (forall i :: 0 <= i < |es| ==> es'[i].kind == es[i].kind && es'[i].slot == es[i].slot)
            && (|es'| > |es| ==>
                  (l.Begin? && es'[|es|].kind == l.kind && es'[|es|].slot == l.slot)
                  || (l.BeginAck? && es'[|es|].kind.Ack? && es'[|es|].slot == es[l.i].slot))
  {
  }

  lemma StepStaffed(t: Topology, s: State, l: Label)
    requires Enabled(s, l) && (forall i :: 0 <= i < |s.entries| ==> LT.Staffed(t, s.entries[i]))
    requires l.Begin? ==> LT.Staffed(t, Entry(l.kind, l.seqNo, l.slot, Before(0), false))
    ensures forall i :: 0 <= i < |Apply(s, l).entries| ==> LT.Staffed(t, Apply(s, l).entries[i])
  {
    StepKeepsSlots(s, l);
    var es, es' := s.entries, Apply(s, l).entries;
    forall i | 0 <= i < |es'| ensures LT.Staffed(t, es'[i]) {
      if i < |es| {
        assert LT.Staffed(t, es[i]);
      } else if l.BeginAck? {
        assert LT.Staffed(t, es[l.i]);
      }
    }
  }

  lemma MoveStaffed(c: Config, t: Topology, r: Run, m: Move)
    requires c.msgs >= 0 && Linked(Publishers, t) && Linked(Consumers, t)
    requires Can(JobOf(c, t), r, m) && AllStaffed(t, r)
    ensures AllStaffed(t, Do(JobOf(c, t), r, m))
  {
    var job := JobOf(c, t);
    var ls := HI.LedgerStep(job, r, m);
    HI.LedgerMoves(job, r, m);
    if m.Record? {
      SeatsAreCapable(Publishers, t, |t.publishCapable|, m.w);
    } else if m.Deliver? {
      SeatsAreCapable(Consumers, t, |t.consumeCapable|, m.v);
    }
    if ls != [] {
      StepStaffed(t, r.ledger, ls[0]);
    }
  }

  lemma {:induction false} RunStaffed(c: Config, t: Topology, run: seq<Run>, ms: seq<Move>, i: nat)
    requires Feasible(c) && IsPlan(c, t) && Linked(Publishers, t) && Linked(Consumers, t)
    requires IsRun(JobOf(c, t), run, ms) && i < |run|
    ensures AllStaffed(t, run[i])
  {
    if i > 0 {
      RunStaffed(c, t, run, ms, i - 1);
      assert Can(JobOf(c, t), run[i - 1], ms[i - 1]);
      MoveStaffed(c, t, run[i - 1], ms[i - 1]);
    }
  }

  /** Over every run of a planned job, whenever no record call is in progress, every decomposition of the
      ledger agrees with its total. */
  lemma LedgerAgrees(c: Config, t: Topology, run: seq<Run>, ms: seq<Move>, i: nat, d: LT.Split, w: Counter)
    requires Feasible(c) && IsPlan(c, t) && Linked(Publishers, t) && Linked(Consumers, t)
    requires IsRun(JobOf(c, t), run, ms) && i < |run| && LT.AtRest(run[i].ledger) && Window(w)
    ensures var v := run[i].ledger.value;
            && LT.ShownParts(run[i].ledger, d, LT.Parts(c, t, d)) == Val(v, LT.Whole(d))
            && Val(v, Delivered) == Val(v, Consumed) + Val(v, Duplicates)
            && Val(v, Delivered) == Val(v, DelLatTot) == Val(v, RoleTot(Both)) + Val(v, RoleTot(Cons))
            && Val(run[i].ledger.emitted, w) + Val(v, w) == Val(v, LT.TotalOf(w))
  {
    RunStaffed(c, t, run, ms, i);
    HT.RunKeepsHInv(JobOf(c, t), run, ms, i);
    LT.PartsAddUp(c, t, run[i].ledger, d);
    LT.DeliveriesAddUp(c, t, run[i].ledger);
    LT.WindowsAddUp(run[i].ledger, w);
  }
}
