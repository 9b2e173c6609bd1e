/** Which latencies the statistics hold, over any history of record calls, boundaries and samples. */
module Samples {
  import opened Topology
  import B = Books
  import L = Latency

  datatype Op =
    | Publish(sl: Slot, n: nat)
    | Deliver(sl: Slot, n: nat, x: real, dup: bool)
    | Acknowledge(n: nat, x: real)
    | BeginMeasured(alloc: nat)
    | SampleWindow

  /** The slots named lie within the arrays of the statistics. */
  ghost predicate Fits(ops: seq<Op>, conns: nat, pubChs: nat) {
    forall i :: 0 <= i < |ops| && (ops[i].Publish? || ops[i].Deliver?) ==>
      ops[i].sl.conn < conns && ops[i].sl.publishCapIdx < pubChs
  }

  function Start(conns: nat, pubChs: nat): B.Books {
    B.Books(0, B.AllTally(0, 0, 0, 0), B.NO_TALLY, B.NO_TALLY, 0, B.NoConns(conns), B.NoPubChs(pubChs), B.NO_LATS)
  }

  function Step(b: B.Books, op: Op): (b': B.Books)
    requires op.Publish? || op.Deliver? ==> B.Covers(b, op.sl)
    ensures |b'.conns| == |b.conns| && |b'.pubChs| == |b.pubChs|
  {
    match op
    case Publish(sl, n) => B.Publish(b, sl, n)
    case Deliver(sl, n, x, dup) => B.Deliver(b, sl, n, x, dup)
    case Acknowledge(n, x) => B.Acknowledge(b, n, x)
    case BeginMeasured(alloc) => B.Begun(b, alloc)
    case SampleWindow => B.Swept(b)
  }

  ghost function After(ops: seq<Op>, conns: nat, pubChs: nat): (b: B.Books)
    requires Fits(ops, conns, pubChs)
    ensures |b.conns| == conns && |b.pubChs| == pubChs
  {
    if ops == [] then Start(conns, pubChs)
    else Step(After(ops[..|ops| - 1], conns, pubChs), ops[|ops| - 1])
  }

  // ---------------------------------------------------------------- read off the history

  /** The cutoff in force: that of the last boundary. */
  function Cutoff(ops: seq<Op>): nat {
    if ops == [] then 0
    else if ops[|ops| - 1].BeginMeasured? then ops[|ops| - 1].alloc
    else Cutoff(ops[..|ops| - 1])
  }

  /** What happened since the last boundary or, for a window, since the last boundary or sample. */
  function Since(ops: seq<Op>, window: bool): seq<Op> {
    if ops == [] || ops[|ops| - 1].BeginMeasured? || (window && ops[|ops| - 1].SampleWindow?) then []
    else Since(ops[..|ops| - 1], window) + [ops[|ops| - 1]]
  }

  datatype Family = Deliveries | Acks | Both | Consumers | OnConn(j: nat)

  /** The record call belongs to the family and its number lies above the cutoff. */
  predicate Belongs(op: Op, f: Family, cutoff: nat) {
    match f
    case Deliveries => op.Deliver? && op.n > cutoff
    case Acks => op.Acknowledge? && op.n > cutoff
    case Both => op.Deliver? && op.n > cutoff && op.sl.role == RoleBoth
    case Consumers => op.Deliver? && op.n > cutoff && op.sl.role == RoleConsume
    case OnConn(j) => op.Deliver? && op.n > cutoff && op.sl.conn == j
  }

  /** The latencies passed to the record calls of a family, in order. */
  function Taken(ops: seq<Op>, f: Family, cutoff: nat): seq<real> {
    if ops == [] then [] else
    var op := ops[|ops| - 1];
    Taken(ops[..|ops| - 1], f, cutoff) + if Belongs(op, f, cutoff) then [op.x] else []
  }

  /** The latencies a family has to hold after a history. */
  function Expected(ops: seq<Op>, f: Family, window: bool): seq<real> {
    Taken(Since(ops, window), f, Cutoff(ops))
  }

  function Held(l: B.Lats, f: Family, window: bool): seq<real>
    requires !f.OnConn?
  {
    match f
    case Deliveries => if window then l.delWin else l.delTot
    case Acks => if window then l.ackWin else l.ackTot
    case Both => if window then l.bothWin else l.bothTot
    case Consumers => if window then l.consWin else l.consTot
  }

  lemma {:induction false} PhaseIsCutoff(ops: seq<Op>, conns: nat, pubChs: nat)
    requires Fits(ops, conns, pubChs)
    ensures After(ops, conns, pubChs).phaseFrom == Cutoff(ops)
  {
    if ops != [] {
      PhaseIsCutoff(ops[..|ops| - 1], conns, pubChs);
    }
  }

  /** What one more operation does to the latencies expected. */
  lemma ExpectedStep(ops: seq<Op>, f: Family, window: bool)
    requires ops != []
    ensures var h, op := ops[..|ops| - 1], ops[|ops| - 1];
            Expected(ops, f, window) ==
              if op.BeginMeasured? || (window && op.SampleWindow?) then []
              else Expected(h, f, window) + if Belongs(op, f, Cutoff(h)) then [op.x] else []
  {
    var h, op := ops[..|ops| - 1], ops[|ops| - 1];
    if !op.BeginMeasured? && !(window && op.SampleWindow?) {
      assert Since(ops, window)[..|Since(h, window)|] == Since(h, window);
    }
  }

  lemma HeldStep(b: B.Books, op: Op, f: Family, window: bool)
    requires !f.OnConn? && (op.Publish? || op.Deliver? ==> B.Covers(b, op.sl))
    ensures Held(Step(b, op).lats, f, window) ==
              if op.BeginMeasured? || (window && op.SampleWindow?) then []
              else Held(b.lats, f, window) + if Belongs(op, f, b.phaseFrom) then [op.x] else []
  {
  }

  /** After any history every latency set holds exactly the latencies of the record calls of its family for numbers
      above the cutoff, since the last boundary or, in the windows, since the last sample. */
  lemma {:induction false} SamplesAfter(ops: seq<Op>, conns: nat, pubChs: nat, f: Family, window: bool)
    requires Fits(ops, conns, pubChs) && !f.OnConn?
    ensures Held(After(ops, conns, pubChs).lats, f, window) == Expected(ops, f, window)
  {
    if ops != [] {
      var h, op := ops[..|ops| - 1], ops[|ops| - 1];
      SamplesAfter(h, conns, pubChs, f, window);
      PhaseIsCutoff(h, conns, pubChs);
      ExpectedStep(ops, f, window);
      HeldStep(After(h, conns, pubChs), op, f, window);
    }
  }

  lemma TotalOne(s: seq<real>, x: real)
    ensures L.Total(s + [x]) == L.Total(s) + x
  {
    assert (s + [x])[..|s|] == s;
  }

  lemma ConnStep(b: B.Books, op: Op, j: nat)
    requires j < |b.conns| && (op.Publish? || op.Deliver? ==> B.Covers(b, op.sl))
    ensures var c, c' := b.conns[j], Step(b, op).conns[j];
            && c'.latSum == (if op.BeginMeasured? then 0.0 else c.latSum + if Belongs(op, OnConn(j), b.phaseFrom) then op.x else 0.0)
            && c'.latCount == (if op.BeginMeasured? then 0 else c.latCount + if Belongs(op, OnConn(j), b.phaseFrom) then 1 else 0)
  {
  }

  /** The latency sum and count of a connection are those of the measured deliveries on it. */
  lemma {:induction false} SumsAfter(ops: seq<Op>, conns: nat, pubChs: nat, j: nat)
    requires Fits(ops, conns, pubChs) && j < conns
    ensures var c := After(ops, conns, pubChs).conns[j];
            c.latSum == L.Total(Expected(ops, OnConn(j), false)) && c.latCount == |Expected(ops, OnConn(j), false)|
  {
    if ops != [] {
      var h, op := ops[..|ops| - 1], ops[|ops| - 1];
      SumsAfter(h, conns, pubChs, j);
      PhaseIsCutoff(h, conns, pubChs);
      ExpectedStep(ops, OnConn(j), false);
      ConnStep(After(h, conns, pubChs), op, j);
      if Belongs(op, OnConn(j), Cutoff(h)) {
        TotalOne(Expected(h, OnConn(j), false), op.x);
      } else {
        assert Expected(h, OnConn(j), false) + [] == Expected(h, OnConn(j), false);
      }
    }
  }
}
