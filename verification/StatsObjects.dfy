/** The statistics object: counters, per-connection arrays and latency sets updated in place. */
module StatsObjects {
  import opened Topology
  import opened Latency
  import opened Books
  import D = Drains
  import H = Harness
  import HT = HarnessTheorems
  import S = Samples

  /** One row of the interval report. */
  datatype Interval = Interval(
    published: nat, delivered: nat, consumed: nat, duplicates: nat, drops: nat,
    delLat: Summary, ackAvg: real, bothP95: real, consP95: real)

  /** The row tells what the windows held. */
  ghost predicate IsRow(row: Interval, b: Books) {
    && row.published == b.window.published && row.delivered == b.window.delivered
    && row.consumed == b.window.consumed && row.duplicates == b.window.duplicates
    && row.drops == HT.Drops(b.total.published, b.total.consumed)
    && IsSummary(row.delLat, b.lats.delWin)
    && row.ackAvg == (if b.lats.ackWin == [] then 0.0 else Mean(b.lats.ackWin))
    && IsTail(row.bothP95, b.lats.bothWin) && IsTail(row.consP95, b.lats.consWin)
  }

  ghost predicate IsTail(v: real, s: seq<real>) {
    if s == [] then v == 0.0 else NearestRank(s, 95, v)
  }

  /** A latency set fed with the given samples, summarised. */
  method SummaryOf(samples: seq<real>) returns (out: Summary)
    ensures IsSummary(out, samples)
  {
    var lat := new LatencySet();
    for i := 0 to |samples|
      invariant fresh(lat) && lat.Valid() && lat.samples == samples[..i]
    {
      lat.Add(samples[i]);
    }
    out := lat.Summarise();
    assert samples[..|samples|] == samples;
  }

  class Stats {
    var phaseFrom: nat
    var all: AllTally
    var total: Tally
    var window: Tally
    var drops: nat
    var lats: Lats
    const perConn: array<ConnStats>
    const perPubCh: array<nat>

    ghost function View(): Books
      reads this, perConn, perPubCh
    {
      Books(phaseFrom, all, total, window, drops, perConn[..], perPubCh[..], lats)
    }

    constructor (conns: nat, pubChs: nat)
      ensures fresh(perConn) && fresh(perPubCh)
      ensures View() == Books(0, AllTally(0, 0, 0, 0), NO_TALLY, NO_TALLY, 0, NoConns(conns), NoPubChs(pubChs), NO_LATS)
    {
      phaseFrom, all, total, window, drops := 0, AllTally(0, 0, 0, 0), NO_TALLY, NO_TALLY, 0;
      lats := NO_LATS;
      perConn := new ConnStats[conns](_ => NO_CONN);
      perPubCh := new nat[pubChs](_ => 0);
    }

    method RecordPublish(sl: Slot, n: nat)
      requires Covers(View(), sl)
      modifies this, perConn, perPubCh
      ensures View() == Publish(old(View()), sl, n)
    {
      all := all.(published := all.published + 1);
      if n <= phaseFrom {
        return;
      }
      total := total.(published := total.published + 1);
      window := window.(published := window.published + 1);
      var cs := perConn[sl.conn];
      perConn[sl.conn] := cs.(published := cs.published + 1);
      if sl.publishCapIdx >= 0 {
        perPubCh[sl.publishCapIdx] := perPubCh[sl.publishCapIdx] + 1;
      }
    }

    method AddLatency(role: Role, x: real)
      modifies `lats
      ensures lats == DeliverySamples(old(lats), role, x)
    {
      lats := lats.(delTot := lats.delTot + [x]);
      lats := lats.(delWin := lats.delWin + [x]);
      match role {
        case RoleBoth => lats := lats.(bothTot := lats.bothTot + [x], bothWin := lats.bothWin + [x]);
        case RoleConsume => lats := lats.(consTot := lats.consTot + [x], consWin := lats.consWin + [x]);
        case RolePublish =>
      }
    }

    method RecordDeliver(sl: Slot, n: nat, x: real, dup: bool)
      requires Covers(View(), sl)
      modifies this, perConn
      ensures View() == Deliver(old(View()), sl, n, x, dup)
    {
      all := all.(delivered := all.delivered + 1);
      if !dup {
        all := all.(consumed := all.consumed + 1);
      }
      if n <= phaseFrom {
        return;
      }
      total := total.(delivered := total.delivered + 1);
      window := window.(delivered := window.delivered + 1);
      if dup {
        total := total.(duplicates := total.duplicates + 1);
        window := window.(duplicates := window.duplicates + 1);
      } else {
        total := total.(consumed := total.consumed + 1);
        window := window.(consumed := window.consumed + 1);
      }
      AddLatency(sl.role, x);
      var cs := perConn[sl.conn];
      cs := cs.(delivered := cs.delivered + 1);
      if !dup {
        cs := cs.(consumed := cs.consumed + 1);
      }
      perConn[sl.conn] := cs.(latSum := cs.latSum + x, latCount := cs.latCount + 1);
    }

    method RecordAck(n: nat, x: real)
      modifies this
      ensures View() == Acknowledge(old(View()), n, x)
    {
      all := all.(acks := all.acks + 1);
      if n <= phaseFrom {
        return;
      }
      lats := lats.(ackTot := lats.ackTot + [x]);
      lats := lats.(ackWin := lats.ackWin + [x]);
    }

    /** Whether no more useful work is in flight, in whatever run these statistics belong to. */
    method Drained(ack: bool) returns (r: bool)
      ensures r == D.IsDrained(View(), ack)
      ensures forall job, run :: H.HInv(job, run) && run.closed && Agrees(View(), run.ledger) ==> (r <==> D.NoWork(run, ack))
    {
      forall job, run | H.HInv(job, run) && run.closed && Agrees(View(), run.ledger)
        ensures D.IsDrained(View(), ack) <==> D.NoWork(run, ack)
      {
        D.DrainedMeans(job, run, View(), ack);
      }
      if ack {
        return all.consumed >= all.published && all.acks >= all.delivered;
      }
      return total.consumed >= total.published;
    }

    method ResetArrays()
      modifies perConn, perPubCh
      ensures perConn[..] == NoConns(perConn.Length) && perPubCh[..] == NoPubChs(perPubCh.Length)
    {
      for i := 0 to perConn.Length
        invariant forall j :: 0 <= j < i ==> perConn[j] == NO_CONN
      {
        perConn[i] := NO_CONN;
      }
      for i := 0 to perPubCh.Length
        invariant forall j :: 0 <= j < i ==> perPubCh[j] == 0
        invariant forall j :: 0 <= j < perConn.Length ==> perConn[j] == NO_CONN
      {
        perPubCh[i] := 0;
      }
    }

    /** Starts the measured phase at the numbers handed out so far. */
    method BeginMeasured(alloc: nat) returns (cutoff: nat)
      modifies this, perConn, perPubCh
      ensures cutoff == alloc && View() == Begun(old(View()), alloc)
      ensures drops == 0 && total == window == Tally(0, 0, 0, 0) && all == old(all)
    {
      phaseFrom := alloc;
      total, window, drops, lats := NO_TALLY, NO_TALLY, 0, NO_LATS;
      ResetArrays();
      cutoff := phaseFrom;
    }

    /** The drops of the final summary: what consumed lacks to reach published. */
    method StoreDrops()
      modifies `drops
      ensures total.published > total.consumed ==> total.consumed + drops == total.published
      ensures total.published <= total.consumed ==> drops == old(drops)
    {
      if total.published > total.consumed {
        drops := total.published - total.consumed;
      }
    }

    /** Reads the windows and empties them. */
    method SampleWindow() returns (row: Interval)
      modifies this
      ensures View() == Swept(old(View())) && IsRow(row, old(View()))
    {
      var w := window;
      window := NO_TALLY;
      var del := SummaryOf(lats.delWin);
      var ack := SummaryOf(lats.ackWin);
      var both := SummaryOf(lats.bothWin);
      var cons := SummaryOf(lats.consWin);
      lats := lats.(delWin := [], ackWin := [], bothWin := [], consWin := []);
      row := Interval(w.published, w.delivered, w.consumed, w.duplicates,
                      if total.published > total.consumed then total.published - total.consumed else 0,
                      del, if ack.count > 0 then ack.avg else 0.0, both.p95, cons.p95);
    }
  }

  /** Any history of record calls, boundaries and samples, on fresh statistics, leaves exactly the latencies that the
      history says. */
  method Replay(ops: seq<S.Op>, conns: nat, pubChs: nat) returns (s: Stats)
    requires S.Fits(ops, conns, pubChs)
    ensures fresh(s) && fresh(s.perConn) && fresh(s.perPubCh) && s.View() == S.After(ops, conns, pubChs)
    ensures forall f: S.Family, w :: !f.OnConn? ==> S.Held(s.lats, f, w) == S.Expected(ops, f, w)
    ensures s.perConn.Length == conns && forall j :: 0 <= j < conns ==>
              s.perConn[j].latSum == Total(S.Expected(ops, S.OnConn(j), false))
  {
    s := new Stats(conns, pubChs);
    for i := 0 to |ops|
      invariant fresh(s) && fresh(s.perConn) && fresh(s.perPubCh) && s.View() == S.After(ops[..i], conns, pubChs)
    {
      assert ops[..i + 1][..i] == ops[..i] && ops[..i + 1][i] == ops[i];
      match ops[i] {
        case Publish(sl, n) => s.RecordPublish(sl, n);
        case Deliver(sl, n, x, dup) => s.RecordDeliver(sl, n, x, dup);
        case Acknowledge(n, x) => s.RecordAck(n, x);
        case BeginMeasured(alloc) => var _ := s.BeginMeasured(alloc);
        case SampleWindow => var _ := s.SampleWindow();
      }
    }
    assert ops[..|ops|] == ops;
    forall f: S.Family, w | !f.OnConn? ensures S.Held(s.lats, f, w) == S.Expected(ops, f, w) {
      S.SamplesAfter(ops, conns, pubChs, f, w);
    }
    forall j | 0 <= j < conns ensures s.perConn[j].latSum == Total(S.Expected(ops, S.OnConn(j), false)) {
      S.SumsAfter(ops, conns, pubChs, j);
      assert s.perConn[j] == s.View().conns[j];
    }
  }

  /** The next row of the report summarises exactly the latencies recorded since the last one. */
  method NextRow(ops: seq<S.Op>, conns: nat, pubChs: nat) returns (row: Interval)
    requires S.Fits(ops, conns, pubChs)
    ensures IsSummary(row.delLat, S.Expected(ops, S.Deliveries, true))
    ensures var acks := S.Expected(ops, S.Acks, true); row.ackAvg == if acks == [] then 0.0 else Mean(acks)
    ensures IsTail(row.bothP95, S.Expected(ops, S.Both, true)) && IsTail(row.consP95, S.Expected(ops, S.Consumers, true))
  {
    var s := Replay(ops, conns, pubChs);
    assert S.Held(s.lats, S.Deliveries, true) == S.Expected(ops, S.Deliveries, true);
    assert S.Held(s.lats, S.Acks, true) == S.Expected(ops, S.Acks, true);
    assert S.Held(s.lats, S.Both, true) == S.Expected(ops, S.Both, true);
    assert S.Held(s.lats, S.Consumers, true) == S.Expected(ops, S.Consumers, true);
    row := s.SampleWindow();
  }
}
