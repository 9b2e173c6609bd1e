/** The benchmark's statistics as a concurrent ledger.

    A record call first bumps its all-time counters, then takes the phase read-lock, drops out if its
    sequence number is at or below the cutoff, and otherwise bumps its measured counters one by one
    before releasing the lock. Every single bump is a step of its own, so any number of record calls,
    window samples and the warmup boundary interleave freely; only the boundary has to wait until no
    call is inside the lock. */
module Ledger {
  import opened Topology

  datatype Family = Both | Cons

  datatype Counter =
    | AllPublished | AllDelivered | AllConsumed | AllAcks
    | Published | Delivered | Consumed | Duplicates
    | PubW | DelW | ConsW | DupW
    | DelLatTot | DelLatWin | AckLatTot | AckLatWin
    | RoleTot(family: Family) | RoleWin(family: Family)
    | ConnPublished(conn: nat) | ConnDelivered(conn: nat) | ConnConsumed(conn: nat) | ConnSamples(conn: nat)
    | PubCh(index: nat)

  predicate AllTime(k: Counter) {
    k.AllPublished? || k.AllDelivered? || k.AllConsumed? || k.AllAcks?
  }

  /** Emptied by the sampler at every interval. */
  predicate Window(k: Counter) {
    k.PubW? || k.DelW? || k.ConsW? || k.DupW? || k.DelLatWin? || k.AckLatWin? || k.RoleWin?
  }

  datatype Kind = Pub | Del(dup: bool) | Ack

  // ---------------------------------------------------------------- what a record call bumps, in order

  function AllProgram(kind: Kind): seq<Counter> {
    match kind
    case Pub => [AllPublished]
    case Del(dup) => if dup then [AllDelivered] else [AllDelivered, AllConsumed]
    case Ack => [AllAcks]
  }

  function RolePart(role: Role): seq<Counter> {
    match role
    case RoleBoth => [RoleTot(Both), RoleWin(Both)]
    case RoleConsume => [RoleTot(Cons), RoleWin(Cons)]
    case RolePublish => []
  }

  function BodyProgram(kind: Kind, sl: Slot): seq<Counter> {
    match kind
    case Pub =>
      [Published, PubW, ConnPublished(sl.conn)] + if sl.publishCapIdx >= 0 then [PubCh(sl.publishCapIdx)] else []
    case Del(dup) =>
      [Delivered, DelW] + (if dup then [Duplicates, DupW] else [Consumed, ConsW])
      + [DelLatTot, DelLatWin] + RolePart(sl.role)
      + [ConnDelivered(sl.conn)] + (if dup then [] else [ConnConsumed(sl.conn)]) + [ConnSamples(sl.conn)]
    case Ack => [AckLatTot, AckLatWin]
  }

  // ---------------------------------------------------------------- states and steps

  datatype Stage = Before(n: nat) | Inside(n: nat) | Done

  /** A record call; `acked` says that the delivery it records has been acked. */
  datatype Entry = Entry(kind: Kind, seqNo: nat, slot: Slot, stage: Stage, acked: bool)

  datatype State = State(
    alloc: nat,                    // sequence numbers handed out
    cutoff: nat,                   // phaseFrom
    entries: seq<Entry>,
    value: map<Counter, nat>,
    emitted: map<Counter, nat>)    // what the sampler has taken out of the windows

  function Val(m: map<Counter, nat>, k: Counter): nat {
    if k in m then m[k] else 0
  }

  function Bump(m: map<Counter, nat>, k: Counter): map<Counter, nat> {
    m[k := Val(m, k) + 1]
  }

  function Initial(): State {
    State(0, 0, [], map[], map[])
  }

  datatype Label =
    | Allocate
    | Begin(kind: Kind, seqNo: nat, slot: Slot)   // recordPublish or recordDeliver is called
    | BeginAck(i: nat)                            // delivery `i` was recorded, then acked; recordAck is called
    | Advance(i: nat)
    | Boundary
    | Sample(k: Counter)

  predicate Enabled(s: State, l: Label) {
    match l
    case Allocate => true
    case Begin(kind, n, _) => !kind.Ack? && 1 <= n <= s.alloc
    case BeginAck(i) => i < |s.entries| && s.entries[i].kind.Del? && s.entries[i].stage.Done? && !s.entries[i].acked
    case Advance(i) => i < |s.entries| && !s.entries[i].stage.Done?
    case Boundary => (forall i :: 0 <= i < |s.entries| ==> !s.entries[i].stage.Inside?) && s.emitted == map[]
    case Sample(k) => Window(k)
  }

  /** The next move of one record call. */
  function NextStage(e: Entry, cutoff: nat): Stage {
    match e.stage
    case Before(n) =>
      if n < |AllProgram(e.kind)| then Before(n + 1)
      else if e.seqNo <= cutoff then Done
      else Inside(0)
    case Inside(n) => if n < |BodyProgram(e.kind, e.slot)| then Inside(n + 1) else Done
    case Done => Done
  }

  /** The counter that move bumps, if it bumps one. */
  function Bumped(e: Entry): seq<Counter> {
    match e.stage
    case Before(n) => if n < |AllProgram(e.kind)| then [AllProgram(e.kind)[n]] else []
    case Inside(n) => if n < |BodyProgram(e.kind, e.slot)| then [BodyProgram(e.kind, e.slot)[n]] else []
    case Done => []
  }

  function DoAdvance(s: State, i: nat): State
    requires i < |s.entries|
  {
    var e := s.entries[i];
    s.(entries := s.entries[i := e.(stage := NextStage(e, s.cutoff))],
       value := if Bumped(e) == [] then s.value else Bump(s.value, Bumped(e)[0]))
  }

  function DoBeginAck(s: State, i: nat): State
    requires i < |s.entries|
  {
    var e := s.entries[i];
    s.(entries := s.entries[i := e.(acked := true)] + [Entry(Ack, e.seqNo, e.slot, Before(0), false)])
  }

  function DoBoundary(s: State): State {
    s.(cutoff := s.alloc, value := s.value - (set k | k in s.value && !AllTime(k)))
  }

  function DoSample(s: State, k: Counter): State {
    s.(value := s.value[k := 0], emitted := s.emitted[k := Val(s.emitted, k) + Val(s.value, k)])
  }

  function Apply(s: State, l: Label): State
    requires Enabled(s, l)
  {
    match l
    case Allocate => s.(alloc := s.alloc + 1)
    case Begin(kind, n, sl) => s.(entries := s.entries + [Entry(kind, n, sl, Before(0), false)])
    case BeginAck(i) => DoBeginAck(s, i)
    case Advance(i) => DoAdvance(s, i)
    case Boundary => DoBoundary(s)
    case Sample(k) => DoSample(s, k)
  }

  // ---------------------------------------------------------------- sums over record calls

  function Occ(ks: seq<Counter>, k: Counter): nat {
    if ks == [] then 0 else Occ(ks[..|ks| - 1], k) + if ks[|ks| - 1] == k then 1 else 0
  }

  lemma OccStep(ks: seq<Counter>, n: nat, k: Counter)
    requires n < |ks|
    ensures Occ(ks[..n + 1], k) == Occ(ks[..n], k) + if ks[n] == k then 1 else 0
  {
    assert ks[..n + 1][..n] == ks[..n];
  }

  function One(b: bool): nat {
    if b then 1 else 0
  }

  /** What a measured record call is to add to a counter in all. */
  function Owing(kind: Kind, sl: Slot, k: Counter): nat {
    match kind
    case Pub => (match k
      case Published => 1
      case PubW => 1
      case ConnPublished(j) => One(j == sl.conn)
      case PubCh(j) => One(j == sl.publishCapIdx)
      case _ => 0)
    case Del(dup) => (match k
      case Delivered => 1
      case DelW => 1
      case Consumed => One(!dup)
      case ConsW => One(!dup)
      case Duplicates => One(dup)
      case DupW => One(dup)
      case DelLatTot => 1
      case DelLatWin => 1
      case RoleTot(f) => One(sl.role == if f.Both? then RoleBoth else RoleConsume)
      case RoleWin(f) => One(sl.role == if f.Both? then RoleBoth else RoleConsume)
      case ConnDelivered(j) => One(j == sl.conn)
      case ConnConsumed(j) => One(!dup && j == sl.conn)
      case ConnSamples(j) => One(j == sl.conn)
      case _ => 0)
    case Ack => One(k.AckLatTot? || k.AckLatWin?)
  }

  /** Ways of weighing a record call. */
  datatype Measure =
    | Booked(cutoff: nat, k: Counter)   // what it has added to a counter that still stands
    | Owed(cutoff: nat, k: Counter)     // what it adds in all
    | FirstDelivery                     // a delivery not seen before
    | DeliveryBegun                     // a delivery counted all-time
    | DeliveryDone
    | AckCall
    | AckedFlag
    | Called(called: Kind, lo: nat)     // a call of this kind above `lo`

  function Prefix(ks: seq<Counter>, n: nat): seq<Counter> {
    if n <= |ks| then ks[..n] else ks
  }

  function Weigh(m: Measure, e: Entry): nat {
    match m
    case Booked(cutoff, k) =>
      if AllTime(k) then
        if e.stage.Before? then Occ(Prefix(AllProgram(e.kind), e.stage.n), k) else Occ(AllProgram(e.kind), k)
      else if e.seqNo <= cutoff then 0
      else (match e.stage
        case Before(_) => 0
        case Inside(n) => Occ(Prefix(BodyProgram(e.kind, e.slot), n), k)
        case Done => Occ(BodyProgram(e.kind, e.slot), k))
    case Owed(cutoff, k) =>
      if AllTime(k) then Occ(AllProgram(e.kind), k)
      else if e.seqNo <= cutoff then 0
      else Owing(e.kind, e.slot, k)
    case FirstDelivery => if e.kind == Del(false) then 1 else 0
    case DeliveryBegun => if e.kind.Del? && e.stage != Before(0) then 1 else 0
    case DeliveryDone => if e.kind.Del? && e.stage.Done? then 1 else 0
    case AckCall => if e.kind.Ack? then 1 else 0
    case AckedFlag => if e.acked then 1 else 0
    case Called(kind, lo) => if e.kind == kind && e.seqNo > lo then 1 else 0
  }

  function Sum(m: Measure, es: seq<Entry>): nat {
    if es == [] then 0 else Sum(m, es[..|es| - 1]) + Weigh(m, es[|es| - 1])
  }

  lemma SumAppend(m: Measure, es: seq<Entry>, e: Entry)
    ensures Sum(m, es + [e]) == Sum(m, es) + Weigh(m, e)
  {
    assert (es + [e])[..|es|] == es;
  }

  lemma {:induction false} SumUpdate(m: Measure, es: seq<Entry>, i: nat, e: Entry)
    requires i < |es|
    ensures Sum(m, es[i := e]) + Weigh(m, es[i]) == Sum(m, es) + Weigh(m, e)
  {
    var n := |es| - 1;
    if i == n {
      assert es[i := e][..n] == es[..n];
    } else {
      assert es[i := e][..n] == es[..n][i := e];
      SumUpdate(m, es[..n], i, e);
    }
  }

  ghost predicate Dominates(b: Measure, a: Measure, es: seq<Entry>) {
    forall i :: 0 <= i < |es| ==> Weigh(a, es[i]) <= Weigh(b, es[i])
  }

  lemma DominatesPrefix(b: Measure, a: Measure, es: seq<Entry>)
    requires Dominates(b, a, es) && es != []
    ensures Dominates(b, a, es[..|es| - 1])
    ensures Weigh(a, es[|es| - 1]) <= Weigh(b, es[|es| - 1])
  {
    var n := |es| - 1;
    forall i | 0 <= i < n ensures Weigh(a, es[..n][i]) <= Weigh(b, es[..n][i]) {
      assert es[..n][i] == es[i];
    }
  }

  /** Where one weight never exceeds another, neither does its sum. */
  lemma {:induction false} SumBounded(a: Measure, b: Measure, es: seq<Entry>)
    requires Dominates(b, a, es)
    ensures Sum(a, es) <= Sum(b, es)
  {
    if es != [] {
      DominatesPrefix(b, a, es);
      SumBounded(a, b, es[..|es| - 1]);
    }
  }

  /** ... and then equal sums mean equal weights. */
  lemma {:induction false} SumTight(a: Measure, b: Measure, es: seq<Entry>, i: nat)
    requires Dominates(b, a, es) && Sum(a, es) >= Sum(b, es) && i < |es|
    ensures Weigh(a, es[i]) == Weigh(b, es[i])
  {
    var n := |es| - 1;
    DominatesPrefix(b, a, es);
    SumBounded(a, b, es[..n]);
    assert Sum(a, es) == Sum(a, es[..n]) + Weigh(a, es[n]);
    assert Sum(b, es) == Sum(b, es[..n]) + Weigh(b, es[n]);
    if i < n {
      SumTight(a, b, es[..n], i);
      assert es[..n][i] == es[i];
    }
  }

  // ---------------------------------------------------------------- the invariant

  ghost predicate EntryOk(s: State, e: Entry) {
    && 1 <= e.seqNo <= s.alloc
    && (e.stage.Before? ==> e.stage.n <= |AllProgram(e.kind)|)
    && (e.stage.Inside? ==> e.stage.n <= |BodyProgram(e.kind, e.slot)| && s.cutoff < e.seqNo)
  }

  /** Every counter holds exactly what the record calls above the cutoff have put there, less what the
      sampler took out of a window. */
  ghost predicate Inv(s: State) {
    && s.cutoff <= s.alloc
    && (forall i :: 0 <= i < |s.entries| ==> EntryOk(s, s.entries[i]))
    && (forall k :: k in s.emitted ==> Window(k))
    && (forall k :: Val(s.value, k) + Val(s.emitted, k) == Sum(Booked(s.cutoff, k), s.entries))
  }

  lemma PrefixStep(ks: seq<Counter>, n: nat, k: Counter)
    requires n < |ks|
    ensures Occ(Prefix(ks, n + 1), k) == Occ(Prefix(ks, n), k) + if ks[n] == k then 1 else 0
  {
    OccStep(ks, n, k);
  }

  lemma PrefixEnds(ks: seq<Counter>)
    ensures Prefix(ks, 0) == [] && Prefix(ks, |ks|) == ks
  {
  }

  lemma BodyIsMeasured(e: Entry, n: nat)
    requires n < |BodyProgram(e.kind, e.slot)|
    ensures !AllTime(BodyProgram(e.kind, e.slot)[n])
  {
  }

  /** One move of one call changes its booked weight by exactly the bump. */
  lemma AdvanceWeight(s: State, e: Entry, k: Counter)
    requires EntryOk(s, e)
    ensures var e' := e.(stage := NextStage(e, s.cutoff));
            Weigh(Booked(s.cutoff, k), e') == Weigh(Booked(s.cutoff, k), e) + if Bumped(e) == [k] then 1 else 0
  {
    match e.stage {
      case Before(n) => BeforeWeight(s, e, k);
      case Inside(n) => InsideWeight(s, e, k);
      case Done =>
    }
  }

  lemma BeforeWeight(s: State, e: Entry, k: Counter)
    requires EntryOk(s, e) && e.stage.Before?
    ensures var e' := e.(stage := NextStage(e, s.cutoff));
            Weigh(Booked(s.cutoff, k), e') == Weigh(Booked(s.cutoff, k), e) + if Bumped(e) == [k] then 1 else 0
  {
    PrefixEnds(AllProgram(e.kind));
    PrefixEnds(BodyProgram(e.kind, e.slot));
    if e.stage.n < |AllProgram(e.kind)| {
      PrefixStep(AllProgram(e.kind), e.stage.n, k);
      AllIsAllTime(e.kind, e.stage.n);
    }
  }

  lemma InsideWeight(s: State, e: Entry, k: Counter)
    requires EntryOk(s, e) && e.stage.Inside?
    ensures var e' := e.(stage := NextStage(e, s.cutoff));
            Weigh(Booked(s.cutoff, k), e') == Weigh(Booked(s.cutoff, k), e) + if Bumped(e) == [k] then 1 else 0
  {
    var body := BodyProgram(e.kind, e.slot);
    PrefixEnds(body);
    if e.stage.n < |body| {
      PrefixStep(body, e.stage.n, k);
      BodyIsMeasured(e, e.stage.n);
    }
  }

  lemma AllIsAllTime(kind: Kind, n: nat)
    requires n < |AllProgram(kind)|
    ensures AllTime(AllProgram(kind)[n])
  {
  }

  lemma AdvanceStep(s: State, i: nat)
    requires Inv(s) && Enabled(s, Advance(i))
    ensures Inv(DoAdvance(s, i))
  {
    var s', e := DoAdvance(s, i), s.entries[i];
    forall k ensures Val(s'.value, k) + Val(s'.emitted, k) == Sum(Booked(s'.cutoff, k), s'.entries) {
      assert Val(s.value, k) + Val(s.emitted, k) == Sum(Booked(s.cutoff, k), s.entries);
      AdvanceWeight(s, e, k);
      SumUpdate(Booked(s.cutoff, k), s.entries, i, s'.entries[i]);
    }
  }

  lemma FreshWeight(cutoff: nat, k: Counter, e: Entry)
    requires e.stage == Before(0)
    ensures Weigh(Booked(cutoff, k), e) == 0
  {
    PrefixEnds(AllProgram(e.kind));
  }

  lemma BeginStep(s: State, kind: Kind, n: nat, sl: Slot)
    requires Inv(s) && Enabled(s, Begin(kind, n, sl))
    ensures Inv(Apply(s, Begin(kind, n, sl)))
  {
    var e := Entry(kind, n, sl, Before(0), false);
    forall k ensures Sum(Booked(s.cutoff, k), s.entries + [e]) == Sum(Booked(s.cutoff, k), s.entries) {
      SumAppend(Booked(s.cutoff, k), s.entries, e);
      FreshWeight(s.cutoff, k, e);
    }
  }

  lemma BeginAckStep(s: State, i: nat)
    requires Inv(s) && Enabled(s, BeginAck(i))
    ensures Inv(DoBeginAck(s, i))
  {
    var e := s.entries[i];
    var es, a := s.entries[i := e.(acked := true)], Entry(Ack, e.seqNo, e.slot, Before(0), false);
    forall k ensures Sum(Booked(s.cutoff, k), es + [a]) == Sum(Booked(s.cutoff, k), s.entries) {
      SumUpdate(Booked(s.cutoff, k), s.entries, i, e.(acked := true));
      SumAppend(Booked(s.cutoff, k), es, a);
      FreshWeight(s.cutoff, k, a);
    }
  }

  /** At the boundary every measured weight drops to nothing and no all-time weight changes. */
  lemma {:induction false} BoundarySum(s: State, k: Counter, es: seq<Entry>)
    requires forall i :: 0 <= i < |es| ==> es[i].seqNo <= s.alloc
    ensures Sum(Booked(s.alloc, k), es) == if AllTime(k) then Sum(Booked(s.cutoff, k), es) else 0
  {
    if es != [] {
      BoundarySum(s, k, es[..|es| - 1]);
    }
  }

  lemma BoundaryStep(s: State)
    requires Inv(s) && Enabled(s, Boundary)
    ensures Inv(DoBoundary(s))
  {
    var s' := DoBoundary(s);
    forall i | 0 <= i < |s.entries| ensures EntryOk(s', s.entries[i]) {
      assert EntryOk(s, s.entries[i]);
    }
    forall k ensures Val(s'.value, k) + Val(s'.emitted, k) == Sum(Booked(s'.cutoff, k), s'.entries) {
      assert Val(s.value, k) + Val(s.emitted, k) == Sum(Booked(s.cutoff, k), s.entries);
      forall i | 0 <= i < |s.entries| ensures s.entries[i].seqNo <= s.alloc {
        assert EntryOk(s, s.entries[i]);
      }
      BoundarySum(s, k, s.entries);
    }
  }

  lemma SampleStep(s: State, w: Counter)
    requires Inv(s) && Enabled(s, Sample(w))
    ensures Inv(DoSample(s, w))
  {
    var s' := DoSample(s, w);
    forall i | 0 <= i < |s.entries| ensures EntryOk(s', s.entries[i]) {
      assert EntryOk(s, s.entries[i]);
    }
    forall k ensures Val(s'.value, k) + Val(s'.emitted, k) == Val(s.value, k) + Val(s.emitted, k) {
    }
  }

  lemma StepKeepsInv(s: State, l: Label)
    requires Inv(s) && Enabled(s, l)
    ensures Inv(Apply(s, l))
  {
    match l {
      case Allocate =>
      case Begin(kind, n, sl) => BeginStep(s, kind, n, sl);
      case BeginAck(i) => BeginAckStep(s, i);
      case Advance(i) => AdvanceStep(s, i);
      case Boundary => BoundaryStep(s);
      case Sample(k) => SampleStep(s, k);
    }
  }
}
