/** The statistics as a value: what each record call, the warmup boundary and the sampler do to the counters,
    and that this is what the ledger says they do. */
module Books {
  import opened Topology
  import opened Ledger
  import HI = HarnessInvariant
  import HT = HarnessTheorems

  datatype ConnStats = ConnStats(published: nat, consumed: nat, delivered: nat, latSum: real, latCount: nat)

  datatype Tally = Tally(published: nat, delivered: nat, consumed: nat, duplicates: nat)

  datatype AllTally = AllTally(published: nat, delivered: nat, consumed: nat, acks: nat)

  datatype Books = Books(
    phaseFrom: nat,
    all: AllTally,
    total: Tally,
    window: Tally,
    drops: nat,
    conns: seq<ConnStats>,
    pubChs: seq<nat>,
    lats: Lats)

  /** The samples of each latency set. */
  datatype Lats = Lats(
    delTot: seq<real>, delWin: seq<real>, ackTot: seq<real>, ackWin: seq<real>,
    bothTot: seq<real>, bothWin: seq<real>, consTot: seq<real>, consWin: seq<real>)

  /** What a counter of the ledger reads in the books. */
  function Read(b: Books, k: Counter): nat {
    match k
    case AllPublished => b.all.published
    case AllDelivered => b.all.delivered
    case AllConsumed => b.all.consumed
    case AllAcks => b.all.acks
    case Published => b.total.published
    case Delivered => b.total.delivered
    case Consumed => b.total.consumed
    case Duplicates => b.total.duplicates
    case PubW => b.window.published
    case DelW => b.window.delivered
    case ConsW => b.window.consumed
    case DupW => b.window.duplicates
    case ConnPublished(j) => if j < |b.conns| then b.conns[j].published else 0
    case ConnDelivered(j) => if j < |b.conns| then b.conns[j].delivered else 0
    case ConnConsumed(j) => if j < |b.conns| then b.conns[j].consumed else 0
    case ConnSamples(j) => if j < |b.conns| then b.conns[j].latCount else 0
    case PubCh(j) => if j < |b.pubChs| then b.pubChs[j] else 0
    case DelLatTot => |b.lats.delTot|
    case DelLatWin => |b.lats.delWin|
    case AckLatTot => |b.lats.ackTot|
    case AckLatWin => |b.lats.ackWin|
    case RoleTot(f) => if f.Both? then |b.lats.bothTot| else |b.lats.consTot|
    case RoleWin(f) => if f.Both? then |b.lats.bothWin| else |b.lats.consWin|
  }

  /** The slot's connection and publish index exist in the books. */
  predicate Covers(b: Books, sl: Slot) {
    sl.conn < |b.conns| && sl.publishCapIdx < |b.pubChs|
  }

  function Publish(b: Books, sl: Slot, n: nat): Books
    requires Covers(b, sl)
  {
    var b0 := b.(all := b.all.(published := b.all.published + 1));
    if n <= b.phaseFrom then b0 else
    var b1 := b0.(
      total := b.total.(published := b.total.published + 1),
      window := b.window.(published := b.window.published + 1),
      conns := b.conns[sl.conn := b.conns[sl.conn].(published := b.conns[sl.conn].published + 1)]);
    if sl.publishCapIdx >= 0 then b1.(pubChs := b.pubChs[sl.publishCapIdx := b.pubChs[sl.publishCapIdx] + 1]) else b1
  }

  function CountDelivery(t: Tally, dup: bool): Tally {
    t.(delivered := t.delivered + 1,
       consumed := if dup then t.consumed else t.consumed + 1,
       duplicates := if dup then t.duplicates + 1 else t.duplicates)
  }

  function ConnDelivery(cs: ConnStats, dup: bool, x: real): ConnStats {
    cs.(delivered := cs.delivered + 1, consumed := if dup then cs.consumed else cs.consumed + 1,
        latSum := cs.latSum + x, latCount := cs.latCount + 1)
  }

  function SampledByRole(lats: Lats, role: Role, x: real): Lats {
    match role
    case RoleBoth => lats.(bothTot := lats.bothTot + [x], bothWin := lats.bothWin + [x])
    case RoleConsume => lats.(consTot := lats.consTot + [x], consWin := lats.consWin + [x])
    case RolePublish => lats
  }

  function DeliverySamples(lats: Lats, role: Role, x: real): Lats {
    SampledByRole(lats.(delTot := lats.delTot + [x], delWin := lats.delWin + [x]), role, x)
  }

  function Deliver(b: Books, sl: Slot, n: nat, x: real, dup: bool): Books
    requires Covers(b, sl)
  {
    var b0 := b.(all := b.all.(delivered := b.all.delivered + 1,
                               consumed := if dup then b.all.consumed else b.all.consumed + 1));
    if n <= b.phaseFrom then b0 else
    b0.(total := CountDelivery(b.total, dup), window := CountDelivery(b.window, dup),
        lats := DeliverySamples(b.lats, sl.role, x),
        conns := b.conns[sl.conn := ConnDelivery(b.conns[sl.conn], dup, x)])
  }

  function Acknowledge(b: Books, n: nat, x: real): Books {
    var b0 := b.(all := b.all.(acks := b.all.acks + 1));
    if n <= b.phaseFrom then b0 else
    b0.(lats := b.lats.(ackTot := b.lats.ackTot + [x], ackWin := b.lats.ackWin + [x]))
  }

  const NO_CONN := ConnStats(0, 0, 0, 0.0, 0)
  const NO_TALLY := Tally(0, 0, 0, 0)
  const NO_LATS := Lats([], [], [], [], [], [], [], [])

  function NoConns(n: nat): seq<ConnStats> {
    seq(n, _ => NO_CONN)
  }

  function NoPubChs(n: nat): seq<nat> {
    seq(n, _ => 0)
  }

  /** The measured phase begins: everything but the all-time counters is zeroed. */
  function Begun(b: Books, cutoff: nat): Books {
    Books(cutoff, b.all, NO_TALLY, NO_TALLY, 0,
          NoConns(|b.conns|), NoPubChs(|b.pubChs|), NO_LATS)
  }

  /** The sampler has taken the windows. */
  function Swept(b: Books): Books {
    b.(window := NO_TALLY, lats := b.lats.(delWin := [], ackWin := [], bothWin := [], consWin := []))
  }

  lemma BegunReads(b: Books, cutoff: nat, k: Counter)
    ensures Read(Begun(b, cutoff), k) == if AllTime(k) then Read(b, k) else 0
  {
  }

  lemma SweptReads(b: Books, k: Counter)
    ensures Read(Swept(b), k) == if Window(k) then 0 else Read(b, k)
  {
  }

  /** A record call that ran from start to end. */
  function Recorded(kind: Kind, n: nat, sl: Slot): Entry {
    Entry(kind, n, sl, Done, false)
  }

  /** Each record call adds to every counter exactly what the ledger says it owes. */
  lemma PublishOwes(b: Books, sl: Slot, n: nat, k: Counter)
    requires Covers(b, sl)
    ensures Read(Publish(b, sl, n), k) == Read(b, k) + Weigh(Owed(b.phaseFrom, k), Recorded(Pub, n, sl))
  {
    HI.ProgramWeight(Pub, k);
  }

  lemma DeliverOwes(b: Books, sl: Slot, n: nat, x: real, dup: bool, k: Counter)
    requires Covers(b, sl)
    ensures Read(Deliver(b, sl, n, x, dup), k) == Read(b, k) + Weigh(Owed(b.phaseFrom, k), Recorded(Del(dup), n, sl))
  {
    if AllTime(k) {
      HI.ProgramWeight(Del(dup), k);
    } else if n > b.phaseFrom {
      DeliverMeasured(b, sl, n, x, dup, k);
    }
  }

  lemma DeliverMeasured(b: Books, sl: Slot, n: nat, x: real, dup: bool, k: Counter)
    requires Covers(b, sl) && n > b.phaseFrom && !AllTime(k)
    ensures Read(Deliver(b, sl, n, x, dup), k) == Read(b, k) + Owing(Del(dup), sl, k)
  {
  }

  lemma AcknowledgeOwes(b: Books, sl: Slot, n: nat, x: real, k: Counter)
    requires Covers(b, sl)
    ensures Read(Acknowledge(b, n, x), k) == Read(b, k) + Weigh(Owed(b.phaseFrom, k), Recorded(Ack, n, sl))
  {
    HI.ProgramWeight(Ack, k);
  }

  // ---------------------------------------------------------------- agreement with the ledger

  /** The books show what the ledger's counters hold. */
  ghost predicate Agrees(b: Books, s: State) {
    b.phaseFrom == s.cutoff && forall k :: Read(b, k) == Val(s.value, k)
  }

  function Booking(b: Books, kind: Kind, sl: Slot, n: nat, x: real): Books
    requires Covers(b, sl)
  {
    match kind
    case Pub => Publish(b, sl, n)
    case Del(dup) => Deliver(b, sl, n, x, dup)
    case Ack => Acknowledge(b, n, x)
  }

  lemma BookingOwes(b: Books, kind: Kind, sl: Slot, n: nat, x: real, k: Counter)
    requires Covers(b, sl)
    ensures Read(Booking(b, kind, sl, n, x), k) == Read(b, k) + Weigh(Owed(b.phaseFrom, k), Recorded(kind, n, sl))
  {
    match kind {
      case Pub => PublishOwes(b, sl, n, k);
      case Del(dup) => DeliverOwes(b, sl, n, x, dup, k);
      case Ack => AcknowledgeOwes(b, sl, n, x, k);
    }
  }

  /** A record call booked in one go reaches the books that the ledger shows once that call, however its single
      bumps were scheduled, has been added to it. */
  lemma BookingMatchesLedger(b: Books, s: State, s': State, kind: Kind, sl: Slot, n: nat, x: real)
    requires Agrees(b, s) && Covers(b, sl) && Inv(s) && Inv(s')
    requires s'.cutoff == s.cutoff && s'.emitted == s.emitted && s'.entries == s.entries + [Recorded(kind, n, sl)]
    ensures Agrees(Booking(b, kind, sl, n, x), s')
  {
    var b', e := Booking(b, kind, sl, n, x), Recorded(kind, n, sl);
    forall k ensures Read(b', k) == Val(s'.value, k) {
      BookingOwes(b, kind, sl, n, x, k);
      assert Val(s.value, k) + Val(s.emitted, k) == Sum(Booked(s.cutoff, k), s.entries);
      assert Val(s'.value, k) + Val(s'.emitted, k) == Sum(Booked(s'.cutoff, k), s'.entries);
      SumAppend(Booked(s.cutoff, k), s.entries, e);
      if !AllTime(k) {
        HT.BookedBound(s.cutoff, k, e);
      }
    }
  }

  lemma BoundaryMatchesLedger(b: Books, s: State)
    requires Agrees(b, s)
    ensures Agrees(Begun(b, s.alloc), DoBoundary(s))
  {
    forall k ensures Read(Begun(b, s.alloc), k) == Val(DoBoundary(s).value, k) {
      BegunReads(b, s.alloc, k);
    }
  }
}
