/** What every accepted plan guarantees. */
module PlanProperties {
  import opened Placement
  import opened Topology
  import opened Planner

  /** Channel `i` is open on exactly one connection, at exactly one position, and its slot says which. */
  lemma ChannelsPlacedOnce(c: Config, t: Topology, i: nat)
    requires Feasible(c) && IsPlan(c, t) && i < c.channels
    ensures var sl := t.slots[i];
            && sl.globalIndex == i && sl.conn < c.conns
            && sl.ch < |t.conns[sl.conn].channels| && t.conns[sl.conn].channels[sl.ch] == i
    ensures forall k, j :: 0 <= k < c.conns && 0 <= j < |t.conns[k].channels| && t.conns[k].channels[j] == i ==>
              k == t.slots[i].conn && j == t.slots[i].ch
    ensures forall k, j :: 0 <= k < c.conns && 0 <= j < |t.conns[k].channels| ==> t.conns[k].channels[j] < c.channels
  {
    var mode, cap, n := c.connsDist, c.maxChannelsPerConn, c.conns;
    BinInRange(mode, cap, n, c.channels, i);
    PositionInBin(mode, cap, n, c.channels, i);
    forall k, j | 0 <= k < c.conns && 0 <= j < |t.conns[k].channels|
      ensures t.conns[k].channels[j] < c.channels
      ensures t.conns[k].channels[j] == i ==> k == t.slots[i].conn && j == t.slots[i].ch
    {
      BinPosition(mode, cap, n, c.channels, k, j);
    }
  }

  lemma {:induction false} PositionInBin(mode: Distribution, cap: int, n: nat, count: nat, i: nat)
    requires n > 0 && i < count
    ensures var k := Bin(mode, cap, n, i);
            |InBin(mode, cap, n, i, k)| < |InBin(mode, cap, n, count, k)|
            && InBin(mode, cap, n, count, k)[|InBin(mode, cap, n, i, k)|] == i
  {
    if i < count - 1 {
      PositionInBin(mode, cap, n, count - 1, i);
    }
  }

  /** The loads of two bins, the earlier one first: within one of each other under even placement; under a cap
      neither exceeds it, and the later bin gets nothing before the earlier one is full. */
  predicate LoadsOk(mode: Distribution, cap: int, earlier: nat, later: nat) {
    && (mode.Even? ==> later <= earlier <= later + 1)
    && (mode.Uneven? && cap > 0 ==> earlier <= cap && later <= cap && (later > 0 ==> earlier == cap))
    && (mode.Uneven? && cap <= 0 ==> later == 0)
  }

  lemma ChannelLoads(c: Config, t: Topology, k: nat, k': nat)
    requires Feasible(c) && IsPlan(c, t) && k < k' < c.conns
    ensures LoadsOk(c.connsDist, c.maxChannelsPerConn, |t.conns[k].channels|, |t.conns[k'].channels|)
  {
    BinLoads(c.connsDist, c.maxChannelsPerConn, c.conns, c.channels, k, k');
  }

  lemma BinLoads(mode: Distribution, cap: int, n: nat, count: nat, k: nat, k': nat)
    requires k < k' < n
    ensures LoadsOk(mode, cap, |InBin(mode, cap, n, count, k)|, |InBin(mode, cap, n, count, k')|)
  {
    if mode.Even? {
      EvenLoad(cap, n, count, k);
      EvenLoad(cap, n, count, k');
    } else if mode.Uneven? && cap > 0 {
      CappedLoad(cap, n, count, k);
      CappedLoad(cap, n, count, k');
      Scale(k + 1, k', cap);
      assert (k + 1) * cap == k * cap + cap;
    } else if mode.Uneven? {
      AllInFirst(mode, cap, n, count, k');
    }
  }

  lemma {:induction false} AllInFirst(mode: Distribution, cap: int, n: nat, count: nat, k: nat)
    requires n > 0 && mode.Uneven? && cap <= 0 && k > 0
    ensures InBin(mode, cap, n, count, k) == []
  {
    if count > 0 {
      AllInFirst(mode, cap, n, count - 1, k);
    }
  }

  /** On mixed connections, in global order: first the publish channels, then the consume channels, then both. */
  lemma RolesInGlobalOrder(c: Config, t: Topology, r: nat)
    requires Feasible(c) && IsPlan(c, t) && r < |MixedList(c, c.channels)|
    ensures MixedList(c, c.channels)[r] < c.channels
    ensures t.slots[MixedList(c, c.channels)[r]].role
            == if r < c.pubChannels then RolePublish
               else if r < c.pubChannels + c.consChannels then RoleConsume else RoleBoth
    ensures c.pubChannels + c.consChannels <= |MixedList(c, c.channels)| == MixedSlots(c)
  {
    MixedAt(c, c.channels, r);
    MixedCount(c, c.channels);
    Counts(c);
  }

  /** The first -pub-conns connections only publish, the next -cons-conns only consume, and so do all channels on them. */
  lemma DedicatedRoles(c: Config, t: Topology, i: nat)
    requires Feasible(c) && IsPlan(c, t) && i < c.channels
    ensures var sl := t.slots[i];
            && sl.conn < c.conns
            && (sl.conn < c.pubConns ==> t.conns[sl.conn].role == ConnPublishOnly && sl.role == RolePublish)
            && (c.pubConns <= sl.conn < c.pubConns + c.consConns ==>
                  t.conns[sl.conn].role == ConnConsumeOnly && sl.role == RoleConsume)
            && (c.pubConns + c.consConns <= sl.conn ==> t.conns[sl.conn].role == ConnMixed && i in MixedList(c, c.channels))
  {
    BinInRange(c.connsDist, c.maxChannelsPerConn, c.conns, c.channels, i);
    OnMixedList(c, c.channels, i);
  }

  lemma {:induction false} OnMixedList(c: Config, n: nat, i: nat)
    requires Sane(c) && i < n
    ensures i in MixedList(c, n) <==> c.pubConns + c.consConns <= HomeOf(c, i)
  {
    if i < n - 1 {
      OnMixedList(c, n - 1, i);
    } else {
      MixedListBelow(c, n - 1);
    }
  }

  lemma {:induction false} MixedListBelow(c: Config, n: nat)
    requires Sane(c)
    ensures forall m :: m in MixedList(c, n) ==> m < n
  {
    if n > 0 {
      MixedListBelow(c, n - 1);
    }
  }

  lemma {:induction false} ListsIncrease(c: Config, i: nat)
    requires Sane(c)
    ensures StrictlyIncreasing(PubList(c, i)) && StrictlyIncreasing(ConsList(c, i))
    ensures forall m :: m in PubList(c, i) <==> 0 <= m < i && Publishes(RoleAt(c, m))
    ensures forall m :: m in ConsList(c, i) <==> 0 <= m < i && Consumes(RoleAt(c, m))
  {
    if i > 0 {
      ListsIncrease(c, i - 1);
      var ps, cs := PubList(c, i - 1), ConsList(c, i - 1);
      forall a | 0 <= a < |ps| ensures ps[a] < i - 1 {
        assert ps[a] in ps;
      }
      forall a | 0 <= a < |cs| ensures cs[a] < i - 1 {
        assert cs[a] in cs;
      }
    }
  }

  /** The capability lists hold exactly the capable slots in increasing order, and a slot's index into the
      publish list is that list's inverse. */
  lemma CapabilityLists(c: Config, t: Topology)
    requires Feasible(c) && IsPlan(c, t)
    ensures StrictlyIncreasing(t.publishCapable) && StrictlyIncreasing(t.consumeCapable)
    ensures forall i :: i in t.publishCapable <==> 0 <= i < c.channels && t.slots[i].role != RoleConsume
    ensures forall i :: i in t.consumeCapable <==> 0 <= i < c.channels && t.slots[i].role != RolePublish
    ensures forall i, k :: 0 <= i < c.channels && 0 <= k < |t.publishCapable| ==>
              (t.publishCapable[k] == i <==> t.slots[i].publishCapIdx == k)
    ensures forall i :: 0 <= i < c.channels && i !in t.publishCapable ==> t.slots[i].publishCapIdx == -1
  {
    ListsIncrease(c, c.channels);
    forall i, k | 0 <= i < c.channels && 0 <= k < |t.publishCapable|
      ensures t.publishCapable[k] == i <==> t.slots[i].publishCapIdx == k
    {
      IndexInverse(c, t, i, k);
    }
  }

  lemma IndexInverse(c: Config, t: Topology, i: nat, k: nat)
    requires Feasible(c) && IsPlan(c, t) && i < c.channels && k < |t.publishCapable|
    ensures t.publishCapable[k] == i <==> t.slots[i].publishCapIdx == k
  {
    PubAt(c, c.channels, k);
    if Publishes(RoleAt(c, i)) {
      PubMember(c, c.channels, i);
    }
  }

  /** Every publisher sits on exactly one slot, and that slot may publish. */
  lemma PublishersPlacedOnce(c: Config, t: Topology, j: nat) returns (i: nat)
    requires Feasible(c) && IsPlan(c, t) && j < c.publishers
    ensures i < c.channels && j in t.slots[i].pubGoroutines && t.slots[i].role != RoleConsume
    ensures forall x :: 0 <= x < c.channels && j in t.slots[x].pubGoroutines ==> x == i
  {
    Counts(c);
    var n := |PubList(c, c.channels)|;
    var mode, cap := c.pubChannelsDist, c.maxPublishersPerChannel;
    BinInRange(mode, cap, n, c.publishers, j);
    var k := Bin(mode, cap, n, j);
    PubAt(c, c.channels, k);
    i := PubList(c, c.channels)[k];
    InBinExact(mode, cap, n, c.publishers, k);
    forall x | 0 <= x < c.channels && j in t.slots[x].pubGoroutines ensures x == i {
      InBinExact(mode, cap, n, c.publishers, |PubList(c, x)|);
      PubMember(c, c.channels, x);
    }
  }

  /** Every consumer sits on exactly one slot, and that slot may consume. */
  lemma ConsumersPlacedOnce(c: Config, t: Topology, j: nat) returns (i: nat)
    requires Feasible(c) && IsPlan(c, t) && j < c.consumers
    ensures i < c.channels && j in t.slots[i].consGoroutines && t.slots[i].role != RolePublish
    ensures forall x :: 0 <= x < c.channels && j in t.slots[x].consGoroutines ==> x == i
  {
    Counts(c);
    var n := |ConsList(c, c.channels)|;
    var mode, cap := c.channelsDist, c.maxConsumersPerChannel;
    BinInRange(mode, cap, n, c.consumers, j);
    var k := Bin(mode, cap, n, j);
    ConsAt(c, c.channels, k);
    i := ConsList(c, c.channels)[k];
    InBinExact(mode, cap, n, c.consumers, k);
    forall x | 0 <= x < c.channels && j in t.slots[x].consGoroutines ensures x == i {
      InBinExact(mode, cap, n, c.consumers, |ConsList(c, x)|);
      ConsMember(c, c.channels, x);
    }
  }

  /** Publisher loads on two slots of the publish list, the earlier one first. */
  lemma PublisherLoads(c: Config, t: Topology, k: nat, k': nat)
    requires Feasible(c) && IsPlan(c, t) && k < k' < |t.publishCapable|
    ensures t.publishCapable[k] < c.channels && t.publishCapable[k'] < c.channels
    ensures LoadsOk(c.pubChannelsDist, c.maxPublishersPerChannel,
                    |t.slots[t.publishCapable[k]].pubGoroutines|, |t.slots[t.publishCapable[k']].pubGoroutines|)
  {
    PubAt(c, c.channels, k);
    PubAt(c, c.channels, k');
    BinLoads(c.pubChannelsDist, c.maxPublishersPerChannel, |PubList(c, c.channels)|, c.publishers, k, k');
  }

  /** Consumer loads on two slots of the consume list, the earlier one first. */
  lemma ConsumerLoads(c: Config, t: Topology, k: nat, k': nat)
    requires Feasible(c) && IsPlan(c, t) && k < k' < |t.consumeCapable|
    ensures t.consumeCapable[k] < c.channels && t.consumeCapable[k'] < c.channels
    ensures LoadsOk(c.channelsDist, c.maxConsumersPerChannel,
                    |t.slots[t.consumeCapable[k]].consGoroutines|, |t.slots[t.consumeCapable[k']].consGoroutines|)
  {
    ConsAt(c, c.channels, k);
    ConsAt(c, c.channels, k');
    BinLoads(c.channelsDist, c.maxConsumersPerChannel, |ConsList(c, c.channels)|, c.consumers, k, k');
  }

  /** Channels on a connection and workers on a slot are listed in increasing order. */
  lemma ListsInOrder(c: Config, t: Topology, k: nat, i: nat)
    requires Feasible(c) && IsPlan(c, t) && k < c.conns && i < c.channels
    ensures StrictlyIncreasing(t.conns[k].channels)
    ensures StrictlyIncreasing(t.slots[i].pubGoroutines) && StrictlyIncreasing(t.slots[i].consGoroutines)
  {
    InBinIncreasing(c.connsDist, c.maxChannelsPerConn, c.conns, c.channels, k);
    WorkersIncrease(c.pubChannelsDist, c.maxPublishersPerChannel, |PubList(c, c.channels)|, c.publishers, |PubList(c, i)|);
    WorkersIncrease(c.channelsDist, c.maxConsumersPerChannel, |ConsList(c, c.channels)|, c.consumers, |ConsList(c, i)|);
  }

  lemma WorkersIncrease(mode: Distribution, cap: int, slots: nat, count: nat, k: nat)
    ensures StrictlyIncreasing(Workers(mode, cap, slots, count, k))
  {
    if slots > 0 {
      InBinIncreasing(mode, cap, slots, count, k);
    }
  }

  // ---------------------------------------------------------------- the bounds of validation

  /** Every flag at its least. */
  const LEAST := Config("broker", 1, 0, 0, 1, 0, 0, Even, Even, Even, 0, 0, 0, 0, 0, 0, HEADER_LEN, 1, 1, 0, 0)

  /** Every bound on a single flag is exact: at the bound it passes, one past it it is refused. */
  lemma FlagBounds(other: string)
    ensures Sane(LEAST) && Sane(LEAST.(pubConns := 1)) && Sane(LEAST.(consConns := 1))
    ensures !Sane(LEAST.(addr := "")) && !Sane(LEAST.(conns := 0)) && !Sane(LEAST.(pubConns := -1))
    ensures !Sane(LEAST.(consConns := -1)) && !Sane(LEAST.(pubConns := 1, consConns := 1))
    ensures !Sane(LEAST.(channels := 0)) && !Sane(LEAST.(pubChannels := -1)) && !Sane(LEAST.(consChannels := -1))
    ensures !Sane(LEAST.(publishers := -1)) && !Sane(LEAST.(consumers := -1)) && !Sane(LEAST.(msgs := -1))
    ensures !Sane(LEAST.(size := HEADER_LEN - 1)) && !Sane(LEAST.(report := 0)) && !Sane(LEAST.(drainTimeout := 0))
    ensures !Sane(LEAST.(warmup := -1)) && !Sane(LEAST.(duration := -1))
    ensures !Sane(LEAST.(connsDist := Unknown(other))) && !Sane(LEAST.(channelsDist := Unknown(other)))
    ensures !Sane(LEAST.(pubChannelsDist := Unknown(other)))
    ensures forall c :: Feasible(c) ==> Sane(c)
  {
  }
}
