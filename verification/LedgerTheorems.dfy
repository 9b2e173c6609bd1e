/** What the ledger says once no record call is in progress. */
module LedgerTheorems {
  import opened Topology
  import opened Ledger
  import opened Planner
  import PlanProperties

  ghost predicate IsRun(run: seq<State>, ls: seq<Label>) {
    && |run| == |ls| + 1
    && run[0] == Initial()
    && forall i :: 0 <= i < |ls| ==> Enabled(run[i], ls[i]) && run[i + 1] == Apply(run[i], ls[i])
  }

  lemma {:induction false} EmptySums(k: Counter)
    ensures Val(Initial().value, k) + Val(Initial().emitted, k) == Sum(Booked(0, k), [])
  {
  }

  lemma {:induction false} RunKeepsInv(run: seq<State>, ls: seq<Label>, i: nat)
    requires IsRun(run, ls) && i < |run|
    ensures Inv(run[i])
  {
    if i == 0 {
      forall k ensures Val(run[0].value, k) + Val(run[0].emitted, k) == Sum(Booked(run[0].cutoff, k), run[0].entries) {
        EmptySums(k);
      }
    } else {
      RunKeepsInv(run, ls, i - 1);
      assert Enabled(run[i - 1], ls[i - 1]);
      StepKeepsInv(run[i - 1], ls[i - 1]);
    }
  }

  // ---------------------------------------------------------------- the programs do what is owed

  lemma OccConcat(a: seq<Counter>, b: seq<Counter>, k: Counter)
    ensures Occ(a + b, k) == Occ(a, k) + Occ(b, k)
  {
    if b == [] {
      assert a + b == a;
    } else {
      OccConcat(a, b[..|b| - 1], k);
      assert (a + b)[..|a + b| - 1] == a + b[..|b| - 1];
    }
  }

  lemma OccOne(x: Counter, k: Counter)
    ensures Occ([x], k) == if x == k then 1 else 0
  {
    assert [x][..0] == [];
  }

  lemma OccTwo(x: Counter, y: Counter, k: Counter)
    ensures Occ([x, y], k) == (if x == k then 1 else 0) + if y == k then 1 else 0
  {
    assert [x, y] == [x] + [y];
    OccConcat([x], [y], k);
    OccOne(x, k);
    OccOne(y, k);
  }

  lemma PubOwes(sl: Slot, k: Counter)
    ensures Occ(BodyProgram(Pub, sl), k) == Owing(Pub, sl, k)
  {
    var tail: seq<Counter> := if sl.publishCapIdx >= 0 then [PubCh(sl.publishCapIdx)] else [];
    OccConcat([Published, PubW, ConnPublished(sl.conn)], tail, k);
    assert [Published, PubW, ConnPublished(sl.conn)] == [Published, PubW] + [ConnPublished(sl.conn)];
    OccConcat([Published, PubW], [ConnPublished(sl.conn)], k);
    OccTwo(Published, PubW, k);
    OccOne(ConnPublished(sl.conn), k);
    if sl.publishCapIdx >= 0 {
      OccOne(PubCh(sl.publishCapIdx), k);
    }
  }

  lemma RoleOwes(role: Role, k: Counter)
    ensures Occ(RolePart(role), k)
            == One(role == RoleBoth && k == RoleTot(Both)) + One(role == RoleBoth && k == RoleWin(Both))
               + One(role == RoleConsume && k == RoleTot(Cons)) + One(role == RoleConsume && k == RoleWin(Cons))
  {
    OccTwo(RoleTot(Both), RoleWin(Both), k);
    OccTwo(RoleTot(Cons), RoleWin(Cons), k);
  }

  function DelHead(dup: bool): seq<Counter> {
    [Delivered, DelW] + (if dup then [Duplicates, DupW] else [Consumed, ConsW]) + [DelLatTot, DelLatWin]
  }

  function DelTail(dup: bool, sl: Slot): seq<Counter> {
    RolePart(sl.role) + ([ConnDelivered(sl.conn)] + ((if dup then [] else [ConnConsumed(sl.conn)]) + [ConnSamples(sl.conn)]))
  }

  function HeadBumps(dup: bool, k: Counter): nat {
    One(k == Delivered) + One(k == DelW)
    + One(k == if dup then Duplicates else Consumed) + One(k == if dup then DupW else ConsW)
    + One(k == DelLatTot) + One(k == DelLatWin)
  }

  function TailBumps(dup: bool, sl: Slot, k: Counter): nat {
    One(sl.role == RoleBoth && k == RoleTot(Both)) + One(sl.role == RoleBoth && k == RoleWin(Both))
    + One(sl.role == RoleConsume && k == RoleTot(Cons)) + One(sl.role == RoleConsume && k == RoleWin(Cons))
    + One(k == ConnDelivered(sl.conn)) + One(!dup && k == ConnConsumed(sl.conn)) + One(k == ConnSamples(sl.conn))
  }

  lemma HeadOwes(dup: bool, k: Counter)
    ensures Occ(DelHead(dup), k) == HeadBumps(dup, k)
  {
    var a: seq<Counter> := [Delivered, DelW];
    var b: seq<Counter> := if dup then [Duplicates, DupW] else [Consumed, ConsW];
    OccConcat(a + b, [DelLatTot, DelLatWin], k);
    OccConcat(a, b, k);
    OccTwo(Delivered, DelW, k);
    OccTwo(if dup then Duplicates else Consumed, if dup then DupW else ConsW, k);
    OccTwo(DelLatTot, DelLatWin, k);
  }

  lemma TailOwes(dup: bool, sl: Slot, k: Counter)
    ensures Occ(DelTail(dup, sl), k) == TailBumps(dup, sl, k)
  {
    var e: seq<Counter> := [ConnDelivered(sl.conn)];
    var f: seq<Counter> := if dup then [] else [ConnConsumed(sl.conn)];
    var g: seq<Counter> := [ConnSamples(sl.conn)];
    OccConcat(RolePart(sl.role), e + (f + g), k);
    OccConcat(e, f + g, k);
    OccConcat(f, g, k);
    RoleOwes(sl.role, k);
    OccOne(ConnDelivered(sl.conn), k);
    OccOne(ConnConsumed(sl.conn), k);
    OccOne(ConnSamples(sl.conn), k);
  }

  lemma DelProgram(dup: bool, sl: Slot, k: Counter)
    ensures Occ(BodyProgram(Del(dup), sl), k) == HeadBumps(dup, k) + TailBumps(dup, sl, k)
  {
    assert BodyProgram(Del(dup), sl) == DelHead(dup) + DelTail(dup, sl);
    OccConcat(DelHead(dup), DelTail(dup, sl), k);
    HeadOwes(dup, k);
    TailOwes(dup, sl, k);
  }

  lemma DelOwes(dup: bool, sl: Slot, k: Counter)
    ensures HeadBumps(dup, k) + TailBumps(dup, sl, k) == Owing(Del(dup), sl, k)
  {
  }

  /** A record call's bumps, whatever their order, add up to what it owes. */
  lemma ProgramOwes(kind: Kind, sl: Slot, k: Counter)
    ensures Occ(BodyProgram(kind, sl), k) == Owing(kind, sl, k)
  {
    match kind {
      case Pub => PubOwes(sl, k);
      case Del(dup) =>
        DelProgram(dup, sl, k);
        DelOwes(dup, sl, k);
      case Ack => OccTwo(AckLatTot, AckLatWin, k);
    }
  }

  // ---------------------------------------------------------------- at rest

  /** No record call is in progress. */
  predicate AtRest(s: State) {
    forall i :: 0 <= i < |s.entries| ==> s.entries[i].stage.Done?
  }

  lemma {:induction false} RestSum(s: State, k: Counter, es: seq<Entry>)
    requires forall i :: 0 <= i < |es| ==> es[i].stage.Done?
    ensures Sum(Booked(s.cutoff, k), es) == Sum(Owed(s.cutoff, k), es)
  {
    if es != [] {
      var e := es[|es| - 1];
      RestSum(s, k, es[..|es| - 1]);
      ProgramOwes(e.kind, e.slot, k);
    }
  }

  /** At rest every counter, with what was sampled out of it, holds all that the calls above the cutoff owe
      it: nothing from below the cutoff leaks in, and nothing above it was erased by the reset. */
  lemma NothingLeaks(s: State, k: Counter)
    requires Inv(s) && AtRest(s)
    ensures Val(s.value, k) + Val(s.emitted, k) == Sum(Owed(s.cutoff, k), s.entries)
  {
    assert Val(s.value, k) + Val(s.emitted, k) == Sum(Booked(s.cutoff, k), s.entries);
    RestSum(s, k, s.entries);
  }

  // ---------------------------------------------------------------- counting the calls that were made

  /** How many record calls of a kind were made for sequence numbers above `lo`. */
  function Calls(ls: seq<Label>, kind: Kind, lo: nat): nat {
    if ls == [] then 0 else
    var l := ls[|ls| - 1];
    Calls(ls[..|ls| - 1], kind, lo) + if l.Begin? && l.kind == kind && l.seqNo > lo then 1 else 0
  }

  lemma StepCalls(s: State, l: Label, kind: Kind, lo: nat)
    requires Enabled(s, l) && !kind.Ack?
    ensures Sum(Called(kind, lo), Apply(s, l).entries)
            == Sum(Called(kind, lo), s.entries) + One(l.Begin? && l.kind == kind && l.seqNo > lo)
  {
    var m := Called(kind, lo);
    match l {
      case Begin(begun, n, sl) => SumAppend(m, s.entries, Entry(begun, n, sl, Before(0), false));
      case BeginAck(i) => BeginAckSum(m, s, i);
      case Advance(i) =>
        SumUpdate(m, s.entries, i, DoAdvance(s, i).entries[i]);
      case _ =>
    }
  }

  lemma BeginAckSum(m: Measure, s: State, i: nat)
    requires i < |s.entries|
    ensures var e := s.entries[i];
            Sum(m, DoBeginAck(s, i).entries) + Weigh(m, e)
            == Sum(m, s.entries) + Weigh(m, e.(acked := true)) + Weigh(m, Entry(Ack, e.seqNo, e.slot, Before(0), false))
  {
    var e := s.entries[i];
    SumUpdate(m, s.entries, i, e.(acked := true));
    SumAppend(m, s.entries[i := e.(acked := true)], Entry(Ack, e.seqNo, e.slot, Before(0), false));
  }

  lemma {:induction false} CallsAreSummed(run: seq<State>, ls: seq<Label>, i: nat, kind: Kind, lo: nat)
    requires IsRun(run, ls) && i < |run| && !kind.Ack?
    ensures Sum(Called(kind, lo), run[i].entries) == Calls(ls[..i], kind, lo)
  {
    if i > 0 {
      CallsAreSummed(run, ls, i - 1, kind, lo);
      assert Enabled(run[i - 1], ls[i - 1]) && run[i] == Apply(run[i - 1], ls[i - 1]);
      StepCalls(run[i - 1], ls[i - 1], kind, lo);
      assert ls[..i][..i - 1] == ls[..i - 1];
    }
  }

  // ---------------------------------------------------------------- sums that agree

  lemma {:induction false} SumSame(a: Measure, b: Measure, es: seq<Entry>)
    requires forall i :: 0 <= i < |es| ==> Weigh(a, es[i]) == Weigh(b, es[i])
    ensures Sum(a, es) == Sum(b, es)
  {
    SumBounded(a, b, es);
    SumBounded(b, a, es);
  }

  lemma {:induction false} SumSplit(a: Measure, b: Measure, c: Measure, es: seq<Entry>)
    requires forall i :: 0 <= i < |es| ==> Weigh(a, es[i]) == Weigh(b, es[i]) + Weigh(c, es[i])
    ensures Sum(a, es) == Sum(b, es) + Sum(c, es)
  {
    if es != [] {
      var n := |es| - 1;
      forall i | 0 <= i < n ensures Weigh(a, es[..n][i]) == Weigh(b, es[..n][i]) + Weigh(c, es[..n][i]) {
        assert es[..n][i] == es[i];
      }
      SumSplit(a, b, c, es[..n]);
    }
  }

  /** What the ledger shows for a counter: its value and what was sampled out of it. */
  function Shown(s: State, k: Counter): nat {
    Val(s.value, k) + Val(s.emitted, k)
  }

  lemma SameShown(s: State, a: Counter, b: Counter)
    requires Inv(s) && AtRest(s)
    requires forall i :: 0 <= i < |s.entries| ==>
               Weigh(Owed(s.cutoff, a), s.entries[i]) == Weigh(Owed(s.cutoff, b), s.entries[i])
    ensures Shown(s, a) == Shown(s, b)
  {
    NothingLeaks(s, a);
    NothingLeaks(s, b);
    SumSame(Owed(s.cutoff, a), Owed(s.cutoff, b), s.entries);
  }

  lemma SplitShown(s: State, a: Counter, b: Counter, c: Counter)
    requires Inv(s) && AtRest(s)
    requires forall i :: 0 <= i < |s.entries| ==>
               Weigh(Owed(s.cutoff, a), s.entries[i])
               == Weigh(Owed(s.cutoff, b), s.entries[i]) + Weigh(Owed(s.cutoff, c), s.entries[i])
    ensures Shown(s, a) == Shown(s, b) + Shown(s, c)
  {
    NothingLeaks(s, a);
    NothingLeaks(s, b);
    NothingLeaks(s, c);
    SumSplit(Owed(s.cutoff, a), Owed(s.cutoff, b), Owed(s.cutoff, c), s.entries);
  }

  lemma NotSampled(s: State, k: Counter)
    requires Inv(s) && !Window(k)
    ensures Shown(s, k) == Val(s.value, k)
  {
  }

  // ---------------------------------------------------------------- the totals

  /** Which calls a measured total counts. */
  function CountedBy(k: Counter): Kind
    requires k.Published? || k.Consumed? || k.Duplicates?
  {
    match k case Published => Pub case Consumed => Del(false) case Duplicates => Del(true)
  }

  lemma TotalIsCalled(e: Entry, cutoff: nat, k: Counter)
    requires k.Published? || k.Consumed? || k.Duplicates?
    ensures Weigh(Owed(cutoff, k), e) == Weigh(Called(CountedBy(k), cutoff), e)
  {
  }

  /** At rest, over every interleaving of record calls, allocations, samples and boundaries, the measured totals
      count exactly the calls that were made for sequence numbers above the cutoff. */
  lemma MeasuredCounts(run: seq<State>, ls: seq<Label>, i: nat, k: Counter)
    requires IsRun(run, ls) && i < |run| && AtRest(run[i])
    requires k.Published? || k.Consumed? || k.Duplicates?
    ensures Val(run[i].value, k) == Calls(ls[..i], CountedBy(k), run[i].cutoff)
  {
    var s := run[i];
    RunKeepsInv(run, ls, i);
    NotSampled(s, k);
    NothingLeaks(s, k);
    forall j | 0 <= j < |s.entries|
      ensures Weigh(Owed(s.cutoff, k), s.entries[j]) == Weigh(Called(CountedBy(k), s.cutoff), s.entries[j])
    {
      TotalIsCalled(s.entries[j], s.cutoff, k);
    }
    SumSame(Owed(s.cutoff, k), Called(CountedBy(k), s.cutoff), s.entries);
    CallsAreSummed(run, ls, i, CountedBy(k), s.cutoff);
  }

  lemma DeliveredOwes(cutoff: nat, e: Entry)
    ensures Weigh(Owed(cutoff, Delivered), e) == Weigh(Owed(cutoff, Consumed), e) + Weigh(Owed(cutoff, Duplicates), e)
  {
  }

  /** ... and measured deliveries count the first deliveries and the duplicates above it. */
  lemma DeliveredCounts(run: seq<State>, ls: seq<Label>, i: nat)
    requires IsRun(run, ls) && i < |run| && AtRest(run[i])
    ensures Val(run[i].value, Delivered)
            == Calls(ls[..i], Del(false), run[i].cutoff) + Calls(ls[..i], Del(true), run[i].cutoff)
  {
    var s := run[i];
    RunKeepsInv(run, ls, i);
    MeasuredCounts(run, ls, i, Consumed);
    MeasuredCounts(run, ls, i, Duplicates);
    forall j | 0 <= j < |s.entries|
      ensures Weigh(Owed(s.cutoff, Delivered), s.entries[j])
              == Weigh(Owed(s.cutoff, Consumed), s.entries[j]) + Weigh(Owed(s.cutoff, Duplicates), s.entries[j])
    {
      DeliveredOwes(s.cutoff, s.entries[j]);
    }
    SplitShown(s, Delivered, Consumed, Duplicates);
    NotSampled(s, Delivered);
    NotSampled(s, Consumed);
    NotSampled(s, Duplicates);
  }

  // ---------------------------------------------------------------- decompositions

  /** A counter split over connections or publish-capable channels. */
  datatype Split = ByConnPublished | ByConnDelivered | ByConnConsumed | ByConnSamples | ByPubCh

  function Part(d: Split, j: nat): Counter {
    match d
    case ByConnPublished => ConnPublished(j)
    case ByConnDelivered => ConnDelivered(j)
    case ByConnConsumed => ConnConsumed(j)
    case ByConnSamples => ConnSamples(j)
    case ByPubCh => PubCh(j)
  }

  function Whole(d: Split): Counter {
    match d
    case ByConnPublished => Published
    case ByConnDelivered => Delivered
    case ByConnConsumed => Consumed
    case ByConnSamples => DelLatTot
    case ByPubCh => Published
  }

  /** The part that a call's slot belongs to. */
  function PartOf(d: Split, e: Entry): int {
    if d.ByPubCh? then e.slot.publishCapIdx else e.slot.conn
  }

  lemma PartOwes(d: Split, e: Entry, cutoff: nat, j: nat)
    requires d.ByPubCh? && e.kind.Pub? ==> e.slot.publishCapIdx >= 0
    ensures Weigh(Owed(cutoff, Part(d, j)), e) == if PartOf(d, e) == j then Weigh(Owed(cutoff, Whole(d)), e) else 0
  {
  }

  function PartsSum(d: Split, n: nat, cutoff: nat, es: seq<Entry>): nat {
    if n == 0 then 0 else PartsSum(d, n - 1, cutoff, es) + Sum(Owed(cutoff, Part(d, n - 1)), es)
  }

  function PartsWeigh(d: Split, n: nat, cutoff: nat, e: Entry): nat {
    if n == 0 then 0 else PartsWeigh(d, n - 1, cutoff, e) + Weigh(Owed(cutoff, Part(d, n - 1)), e)
  }

  lemma {:induction false} PartsWeighWhole(d: Split, n: nat, cutoff: nat, e: Entry)
    requires d.ByPubCh? && e.kind.Pub? ==> e.slot.publishCapIdx >= 0
    ensures PartsWeigh(d, n, cutoff, e) == if 0 <= PartOf(d, e) < n then Weigh(Owed(cutoff, Whole(d)), e) else 0
  {
    if n > 0 {
      PartsWeighWhole(d, n - 1, cutoff, e);
      PartOwes(d, e, cutoff, n - 1);
    }
  }

  lemma {:induction false} PartsSumStep(d: Split, n: nat, cutoff: nat, es: seq<Entry>)
    requires es != []
    ensures PartsSum(d, n, cutoff, es) == PartsSum(d, n, cutoff, es[..|es| - 1]) + PartsWeigh(d, n, cutoff, es[|es| - 1])
  {
    if n > 0 {
      PartsSumStep(d, n - 1, cutoff, es);
    }
  }

  lemma {:induction false} PartsSumEmpty(d: Split, n: nat, cutoff: nat)
    ensures PartsSum(d, n, cutoff, []) == 0
  {
    if n > 0 {
      PartsSumEmpty(d, n - 1, cutoff);
    }
  }

  ghost predicate InParts(d: Split, n: nat, e: Entry) {
    (if d.ByPubCh? then e.kind.Pub? else true) ==> 0 <= PartOf(d, e) < n
  }

  lemma {:induction false} PartsSumWhole(d: Split, n: nat, cutoff: nat, es: seq<Entry>)
    requires forall i :: 0 <= i < |es| ==> InParts(d, n, es[i])
    ensures PartsSum(d, n, cutoff, es) == Sum(Owed(cutoff, Whole(d)), es)
  {
    if es == [] {
      PartsSumEmpty(d, n, cutoff);
    } else {
      var m := |es| - 1;
      forall i | 0 <= i < m ensures InParts(d, n, es[..m][i]) {
        assert es[..m][i] == es[i];
      }
      PartsSumWhole(d, n, cutoff, es[..m]);
      PartsSumStep(d, n, cutoff, es);
      assert InParts(d, n, es[m]);
      PartsWeighWhole(d, n, cutoff, es[m]);
    }
  }

  /** The parts as the ledger shows them, added up. */
  function ShownParts(s: State, d: Split, n: nat): nat {
    if n == 0 then 0 else ShownParts(s, d, n - 1) + Val(s.value, Part(d, n - 1))
  }

  lemma {:induction false} ShownPartsSum(s: State, d: Split, n: nat)
    requires Inv(s) && AtRest(s)
    ensures ShownParts(s, d, n) == PartsSum(d, n, s.cutoff, s.entries)
  {
    if n > 0 {
      ShownPartsSum(s, d, n - 1);
      NothingLeaks(s, Part(d, n - 1));
      NotSampled(s, Part(d, n - 1));
    }
  }

  /** Records come from workers where the plan put them. */
  ghost predicate Staffed(t: Topology, e: Entry) {
    && (e.kind.Pub? ==> exists i :: 0 <= i < |t.slots| && i in t.publishCapable && e.slot == t.slots[i])
    && (!e.kind.Pub? ==> exists i :: 0 <= i < |t.slots| && i in t.consumeCapable && e.slot == t.slots[i])
  }

  lemma StaffedSlot(c: Config, t: Topology, e: Entry)
    requires Feasible(c) && IsPlan(c, t) && Staffed(t, e)
    ensures e.slot.conn < c.conns
    ensures e.kind.Pub? ==> 0 <= e.slot.publishCapIdx < |t.publishCapable|
    ensures e.kind.Del? ==> e.slot.role != RolePublish
  {
    PlanProperties.CapabilityLists(c, t);
    var i :| 0 <= i < |t.slots| && e.slot == t.slots[i] && (if e.kind.Pub? then i in t.publishCapable else i in t.consumeCapable);
    PlanProperties.ChannelsPlacedOnce(c, t, i);
    if e.kind.Pub? {
      var k :| 0 <= k < |t.publishCapable| && t.publishCapable[k] == i;
    }
  }

  /** Number of parts of a decomposition in a plan. */
  function Parts(c: Config, t: Topology, d: Split): int {
    if d.ByPubCh? then |t.publishCapable| else c.conns
  }

  /** At rest the per-connection and per-publish-channel figures add up to the totals. */
  lemma PartsAddUp(c: Config, t: Topology, s: State, d: Split)
    requires Feasible(c) && IsPlan(c, t)
    requires Inv(s) && AtRest(s) && forall i :: 0 <= i < |s.entries| ==> Staffed(t, s.entries[i])
    ensures ShownParts(s, d, Parts(c, t, d)) == Val(s.value, Whole(d))
  {
    var n := Parts(c, t, d);
    forall i | 0 <= i < |s.entries| ensures InParts(d, n, s.entries[i]) {
      StaffedSlot(c, t, s.entries[i]);
    }
    PartsSumWhole(d, n, s.cutoff, s.entries);
    ShownPartsSum(s, d, n);
    NothingLeaks(s, Whole(d));
    NotSampled(s, Whole(d));
  }

  /** At rest: deliveries are first deliveries plus duplicates; every delivery has a latency sample, and exactly one
      in the role families, because consumers never sit on publish-only slots. */
  lemma DeliveriesAddUp(c: Config, t: Topology, s: State)
    requires Feasible(c) && IsPlan(c, t)
    requires Inv(s) && AtRest(s) && forall i :: 0 <= i < |s.entries| ==> Staffed(t, s.entries[i])
    ensures Val(s.value, Delivered) == Val(s.value, Consumed) + Val(s.value, Duplicates)
    ensures Val(s.value, DelLatTot) == Val(s.value, Delivered)
    ensures Val(s.value, Delivered) == Val(s.value, RoleTot(Both)) + Val(s.value, RoleTot(Cons))
  {
    DeliveriesSplit(c, t, s);
    DeliveriesTimed(c, t, s);
    DeliveriesByRole(c, t, s);
  }

  lemma DeliveriesSplit(c: Config, t: Topology, s: State)
    requires Feasible(c) && IsPlan(c, t)
    requires Inv(s) && AtRest(s) && forall i :: 0 <= i < |s.entries| ==> Staffed(t, s.entries[i])
    ensures Val(s.value, Delivered) == Val(s.value, Consumed) + Val(s.value, Duplicates)
  {
    var a, b, d := Owed(s.cutoff, Delivered), Owed(s.cutoff, Consumed), Owed(s.cutoff, Duplicates);
    forall i | 0 <= i < |s.entries| ensures Weigh(a, s.entries[i]) == Weigh(b, s.entries[i]) + Weigh(d, s.entries[i]) {
      DeliveryOwes(c, t, s.cutoff, s.entries[i]);
    }
    SplitShown(s, Delivered, Consumed, Duplicates);
    NotSampled(s, Delivered);
    NotSampled(s, Consumed);
    NotSampled(s, Duplicates);
  }

  lemma DeliveriesTimed(c: Config, t: Topology, s: State)
    requires Feasible(c) && IsPlan(c, t)
    requires Inv(s) && AtRest(s) && forall i :: 0 <= i < |s.entries| ==> Staffed(t, s.entries[i])
    ensures Val(s.value, DelLatTot) == Val(s.value, Delivered)
  {
    var a, b := Owed(s.cutoff, DelLatTot), Owed(s.cutoff, Delivered);
    forall i | 0 <= i < |s.entries| ensures Weigh(a, s.entries[i]) == Weigh(b, s.entries[i]) {
      DeliveryOwes(c, t, s.cutoff, s.entries[i]);
    }
    SameShown(s, DelLatTot, Delivered);
    NotSampled(s, Delivered);
    NotSampled(s, DelLatTot);
  }

  lemma DeliveriesByRole(c: Config, t: Topology, s: State)
    requires Feasible(c) && IsPlan(c, t)
    requires Inv(s) && AtRest(s) && forall i :: 0 <= i < |s.entries| ==> Staffed(t, s.entries[i])
    ensures Val(s.value, Delivered) == Val(s.value, RoleTot(Both)) + Val(s.value, RoleTot(Cons))
  {
    var a, b, d := Owed(s.cutoff, Delivered), Owed(s.cutoff, RoleTot(Both)), Owed(s.cutoff, RoleTot(Cons));
    forall i | 0 <= i < |s.entries| ensures Weigh(a, s.entries[i]) == Weigh(b, s.entries[i]) + Weigh(d, s.entries[i]) {
      DeliveryOwes(c, t, s.cutoff, s.entries[i]);
    }
    SplitShown(s, Delivered, RoleTot(Both), RoleTot(Cons));
    NotSampled(s, Delivered);
    NotSampled(s, RoleTot(Both));
    NotSampled(s, RoleTot(Cons));
  }

  lemma DeliveryOwes(c: Config, t: Topology, cutoff: nat, e: Entry)
    requires Feasible(c) && IsPlan(c, t) && Staffed(t, e)
    ensures Weigh(Owed(cutoff, Delivered), e) == Weigh(Owed(cutoff, Consumed), e) + Weigh(Owed(cutoff, Duplicates), e)
    ensures Weigh(Owed(cutoff, DelLatTot), e) == Weigh(Owed(cutoff, Delivered), e)
    ensures Weigh(Owed(cutoff, Delivered), e) == Weigh(Owed(cutoff, RoleTot(Both)), e) + Weigh(Owed(cutoff, RoleTot(Cons)), e)
  {
    StaffedSlot(c, t, e);
    DeliveryOwesOnce(cutoff, e);
  }

  lemma DeliveryOwesOnce(cutoff: nat, e: Entry)
    requires e.kind.Del? ==> e.slot.role != RolePublish
    ensures Weigh(Owed(cutoff, Delivered), e) == Weigh(Owed(cutoff, Consumed), e) + Weigh(Owed(cutoff, Duplicates), e)
    ensures Weigh(Owed(cutoff, DelLatTot), e) == Weigh(Owed(cutoff, Delivered), e)
    ensures Weigh(Owed(cutoff, Delivered), e) == Weigh(Owed(cutoff, RoleTot(Both)), e) + Weigh(Owed(cutoff, RoleTot(Cons)), e)
  {
  }

  /** The total that a window counts. */
  function TotalOf(w: Counter): Counter
    requires Window(w)
  {
    match w
    case PubW => Published
    case DelW => Delivered
    case ConsW => Consumed
    case DupW => Duplicates
    case DelLatWin => DelLatTot
    case AckLatWin => AckLatTot
    case RoleWin(f) => RoleTot(f)
  }

  /** At rest the rows emitted so far and the open window add up to the total since the cutoff. */
  lemma WindowsAddUp(s: State, w: Counter)
    requires Inv(s) && AtRest(s) && Window(w)
    ensures Val(s.emitted, w) + Val(s.value, w) == Val(s.value, TotalOf(w))
  {
    forall i | 0 <= i < |s.entries|
      ensures Weigh(Owed(s.cutoff, w), s.entries[i]) == Weigh(Owed(s.cutoff, TotalOf(w)), s.entries[i])
    {
      WindowOwes(s.entries[i], s.cutoff, w);
    }
    SameShown(s, w, TotalOf(w));
    NotSampled(s, TotalOf(w));
  }

  lemma WindowOwes(e: Entry, cutoff: nat, w: Counter)
    requires Window(w)
    ensures Weigh(Owed(cutoff, w), e) == Weigh(Owed(cutoff, TotalOf(w)), e)
  {
  }
}
