/** Building the plan step by step, as the planner's loops do, against the position-by-position
    description in `Topology`. */
module Planner {
  import opened Outcomes
  import opened Placement
  import opened Topology
  import opened Sorting

  // ---------------------------------------------------------------- slots, stage by stage

  function InitialRole(c: Config, k: nat): Role {
    match ConnRoleOf(c, k)
    case ConnPublishOnly => RolePublish
    case ConnConsumeOnly => RoleConsume
    case ConnMixed => RoleBoth
  }

  /** Channel `i` as it is opened: it follows the channels already on its connection. */
  function OpenedSlot(c: Config, i: nat): Slot
    requires Sane(c)
  {
    var k := HomeOf(c, i);
    Slot(k, |InBin(c.connsDist, c.maxChannelsPerConn, c.conns, i, k)|, i, InitialRole(c, k), -1, [], [])
  }

  function RoledSlot(c: Config, i: nat): Slot
    requires Sane(c)
  {
    OpenedSlot(c, i).(role := RoleAt(c, i))
  }

  function IndexedSlot(c: Config, i: nat): Slot
    requires Sane(c)
  {
    RoledSlot(c, i).(publishCapIdx := if Publishes(RoleAt(c, i)) then |PubList(c, i)| else -1)
  }

  /** The workers of one kind on the `k`-th capable slot. */
  function Workers(mode: Distribution, cap: int, slots: nat, count: nat, k: nat): seq<nat> {
    if slots == 0 then [] else InBin(mode, cap, slots, count, k)
  }

  function PublishersAt(c: Config, i: nat): seq<nat>
    requires Sane(c)
  {
    if Publishes(RoleAt(c, i))
    then Workers(c.pubChannelsDist, c.maxPublishersPerChannel, |PubList(c, c.channels)|, c.publishers, |PubList(c, i)|)
    else []
  }

  function ConsumersAt(c: Config, i: nat): seq<nat>
    requires Sane(c)
  {
    if Consumes(RoleAt(c, i))
    then Workers(c.channelsDist, c.maxConsumersPerChannel, |ConsList(c, c.channels)|, c.consumers, |ConsList(c, i)|)
    else []
  }

  function PlannedSlot(c: Config, i: nat): Slot
    requires Sane(c)
  {
    IndexedSlot(c, i).(pubGoroutines := PublishersAt(c, i), consGoroutines := ConsumersAt(c, i))
  }

  // ---------------------------------------------------------------- opening and sorting

  function Indices(ss: seq<Slot>): seq<nat> {
    seq(|ss|, i requires 0 <= i < |ss| => ss[i].globalIndex)
  }

  lemma IndicesLast(ss: seq<Slot>, x: Slot)
    ensures Indices(ss + [x]) == Indices(ss) + [x.globalIndex]
  {
  }

  lemma {:induction false} BinPosition(mode: Distribution, cap: int, n: nat, count: nat, k: nat, j: nat)
    requires n > 0 && j < |InBin(mode, cap, n, count, k)|
    ensures var gi := InBin(mode, cap, n, count, k)[j];
            gi < count && Bin(mode, cap, n, gi) == k && |InBin(mode, cap, n, gi, k)| == j
  {
    if j < |InBin(mode, cap, n, count - 1, k)| {
      BinPosition(mode, cap, n, count - 1, k, j);
    }
  }

  ghost predicate AllOpened(c: Config, ss: seq<Slot>)
    requires Sane(c)
  {
    forall i :: 0 <= i < |ss| ==> ss[i].globalIndex < c.channels && ss[i] == OpenedSlot(c, ss[i].globalIndex)
  }

  /** Slots are made connection by connection. */
  method OpenSlots(c: Config, chans: seq<seq<nat>>) returns (conns: seq<ConnPlan>, all: seq<Slot>)
    requires Sane(c) && |chans| == c.conns
    requires forall k :: 0 <= k < |chans| ==> chans[k] == InBin(c.connsDist, c.maxChannelsPerConn, c.conns, c.channels, k)
    ensures |conns| == c.conns
    ensures forall k :: 0 <= k < c.conns ==> conns[k] == ConnPlan(k, ConnRoleOf(c, k), chans[k])
    ensures Indices(all) == Flat(chans) && AllOpened(c, all)
  {
    conns, all := [], [];
    var cn := 0;
    while cn < c.conns
      invariant 0 <= cn <= c.conns && |conns| == cn
      invariant forall k :: 0 <= k < cn ==> conns[k] == ConnPlan(k, ConnRoleOf(c, k), chans[k])
      invariant Indices(all) == Flat(chans[..cn]) && AllOpened(c, all)
    {
      var more := OpenConnection(c, cn, chans[cn]);
      conns := conns + [ConnPlan(cn, ConnRoleOf(c, cn), chans[cn])];
      IndicesAppend(all, more);
      assert chans[..cn + 1][..cn] == chans[..cn];
      all := all + more;
      cn := cn + 1;
    }
    assert chans[..cn] == chans;
  }

  lemma IndicesAppend(a: seq<Slot>, b: seq<Slot>)
    ensures Indices(a + b) == Indices(a) + Indices(b)
  {
  }

  method OpenConnection(c: Config, cn: nat, mine: seq<nat>) returns (ss: seq<Slot>)
    requires Sane(c) && mine == InBin(c.connsDist, c.maxChannelsPerConn, c.conns, c.channels, cn)
    ensures Indices(ss) == mine && AllOpened(c, ss)
  {
    ss := [];
    var j := 0;
    while j < |mine|
      invariant 0 <= j <= |mine| && Indices(ss) == mine[..j] && AllOpened(c, ss)
    {
      BinPosition(c.connsDist, c.maxChannelsPerConn, c.conns, c.channels, cn, j);
      var sl := Slot(cn, j, mine[j], RoleBoth, -1, [], []);
      match ConnRoleOf(c, cn) {
        case ConnPublishOnly => sl := sl.(role := RolePublish);
        case ConnConsumeOnly => sl := sl.(role := RoleConsume);
        case ConnMixed =>
      }
      IndicesLast(ss, sl);
      ss := ss + [sl];
      j := j + 1;
    }
  }

  function IndexKey(sl: Slot): real {
    sl.globalIndex as real
  }

  function Without(ss: seq<Slot>, i: nat): seq<Slot>
    requires i < |ss|
  {
    ss[..i] + ss[i + 1..]
  }

  lemma IndicesWithout(ss: seq<Slot>, i: nat)
    requires i < |ss|
    ensures multiset(Indices(ss)) == multiset(Indices(Without(ss, i))) + multiset{ss[i].globalIndex}
  {
    var s := Indices(ss);
    assert Indices(Without(ss, i)) == s[..i] + s[i + 1..];
    TakeOut(s, i);
    assert s[i] in multiset(s);
  }

  lemma Match(a: seq<Slot>, b: seq<Slot>) returns (i: nat)
    requires multiset(a) == multiset(b) && a != []
    ensures i < |b| && b[i] == a[|a| - 1] && multiset(Without(a, |a| - 1)) == multiset(Without(b, i))
  {
    var n := |a| - 1;
    assert a[n] in multiset(b);
    i :| 0 <= i < |b| && b[i] == a[n];
    TakeOut(a, n);
    TakeOut(b, i);
  }

  /** The same slots in another order have the same indices. */
  lemma {:induction false} SameIndices(a: seq<Slot>, b: seq<Slot>)
    requires multiset(a) == multiset(b)
    ensures multiset(Indices(a)) == multiset(Indices(b))
    decreases |a|
  {
    if a == [] {
      assert |b| == |multiset(b)| == 0;
    } else {
      var i := Match(a, b);
      SameIndices(Without(a, |a| - 1), Without(b, i));
      IndicesWithout(a, |a| - 1);
      IndicesWithout(b, i);
    }
  }

  /** Sorting by global index orders the slots and keeps them all. */
  lemma SortKeepsAll(ss: seq<Slot>)
    ensures Sorted(Sort(ss, IndexKey), IndexKey)
    ensures multiset(Sort(ss, IndexKey)) == multiset(ss)
    ensures multiset(Indices(Sort(ss, IndexKey))) == multiset(Indices(ss))
  {
    SortSorts(ss, IndexKey);
    SortKeeps(ss, IndexKey);
    SameIndices(Sort(ss, IndexKey), ss);
  }

  /** Sorted, the slots stand at their own global index. */
  lemma SortedIsPlan(c: Config, all: seq<Slot>)
    requires Sane(c) && AllOpened(c, all) && multiset(Indices(all)) == multiset(Range(c.channels))
    ensures var ss := Sort(all, IndexKey); |ss| == c.channels && forall i :: 0 <= i < |ss| ==> ss[i] == OpenedSlot(c, i)
  {
    var ss := Sort(all, IndexKey);
    SortKeepsAll(all);
    SortedUnique(Indices(ss), Range(c.channels));
    forall i | 0 <= i < |ss| ensures ss[i] == OpenedSlot(c, i) {
      assert Indices(ss)[i] == i;
      assert ss[i] in multiset(ss);
      assert ss[i] in all;
    }
  }

  // ---------------------------------------------------------------- roles

  /** The `r`-th mixed channel has exactly `r` mixed channels before it. */
  lemma {:induction false} MixedAt(c: Config, i: nat, r: nat)
    requires Sane(c) && r < |MixedList(c, i)|
    ensures var m := MixedList(c, i)[r];
            m < i && ConnRoleOf(c, HomeOf(c, m)).ConnMixed? && MixedBefore(c, m) == r
  {
    MixedCount(c, i - 1);
    if r < |MixedList(c, i - 1)| {
      MixedAt(c, i - 1, r);
    }
  }

  lemma {:induction false} MixedMember(c: Config, i: nat, m: nat)
    requires Sane(c) && m < i && ConnRoleOf(c, HomeOf(c, m)).ConnMixed?
    ensures MixedBefore(c, m) < |MixedList(c, i)| && MixedList(c, i)[MixedBefore(c, m)] == m
  {
    if m < i - 1 {
      MixedMember(c, i - 1, m);
    } else {
      MixedCount(c, m);
    }
  }

  method MixedSlotsOf(c: Config, slots: seq<Slot>) returns (mixed: seq<nat>)
    requires Sane(c) && |slots| == c.channels && forall i :: 0 <= i < |slots| ==> slots[i] == OpenedSlot(c, i)
    ensures mixed == MixedList(c, c.channels)
  {
    mixed := [];
    var i := 0;
    while i < |slots|
      invariant 0 <= i <= |slots| && mixed == MixedList(c, i)
    {
      if ConnRoleOf(c, slots[i].conn).ConnMixed? {
        mixed := mixed + [i];
      }
      i := i + 1;
    }
  }

  /** Mixed slot `i` once the first `r` mixed slots have been stamped. */
  function Stamped(c: Config, i: nat, r: nat): Slot
    requires Sane(c)
  {
    if ConnRoleOf(c, HomeOf(c, i)).ConnMixed? && MixedBefore(c, i) < r then RoledSlot(c, i) else OpenedSlot(c, i)
  }

  method CarveRoles(c: Config, plain: seq<Slot>) returns (r: Result<seq<Slot>>)
    requires Sane(c) && |plain| == c.channels && forall i :: 0 <= i < |plain| ==> plain[i] == OpenedSlot(c, i)
    ensures r.Ok? <==> c.pubChannels + c.consChannels <= MixedBefore(c, c.channels)
    ensures r.Ok? ==> |r.value| == c.channels && forall i :: 0 <= i < c.channels ==> r.value[i] == RoledSlot(c, i)
  {
    var mixed := MixedSlotsOf(c, plain);
    MixedCount(c, c.channels);
    if c.pubChannels + c.consChannels > |mixed| {
      return Err("role carving overflow");
    }
    var slots := plain;
    var pubLeft, consLeft := c.pubChannels, c.consChannels;
    var k := 0;
    while k < |mixed|
      invariant 0 <= k <= |mixed| && |slots| == c.channels
      invariant pubLeft == c.pubChannels - Clamp(k, c.pubChannels)
      invariant consLeft == c.consChannels - Clamp(k - c.pubChannels, c.consChannels)
      invariant forall i :: 0 <= i < c.channels ==> slots[i] == Stamped(c, i, k)
    {
      MixedAt(c, c.channels, k);
      var m := mixed[k];
      forall i | 0 <= i < c.channels && i != m && ConnRoleOf(c, HomeOf(c, i)).ConnMixed? ensures MixedBefore(c, i) != k {
        MixedMember(c, c.channels, i);
      }
      if pubLeft > 0 {
        slots := slots[m := slots[m].(role := RolePublish)];
        pubLeft := pubLeft - 1;
      } else if consLeft > 0 {
        slots := slots[m := slots[m].(role := RoleConsume)];
        consLeft := consLeft - 1;
      } else {
        slots := slots[m := slots[m].(role := RoleBoth)];
      }
      k := k + 1;
    }
    forall i | 0 <= i < c.channels ensures slots[i] == RoledSlot(c, i) {
      if ConnRoleOf(c, HomeOf(c, i)).ConnMixed? {
        MixedMember(c, c.channels, i);
      }
    }
    r := Ok(slots);
  }

  // ---------------------------------------------------------------- capability lists

  method Capabilities(c: Config, roled: seq<Slot>) returns (slots: seq<Slot>, pubs: seq<nat>, cons: seq<nat>)
    requires Sane(c) && |roled| == c.channels && forall i :: 0 <= i < |roled| ==> roled[i] == RoledSlot(c, i)
    ensures pubs == PubList(c, c.channels) && cons == ConsList(c, c.channels)
    ensures |slots| == c.channels && forall i :: 0 <= i < c.channels ==> slots[i] == IndexedSlot(c, i)
  {
    pubs, cons := [], [];
    var i := 0;
    while i < |roled|
      invariant 0 <= i <= |roled| && pubs == PubList(c, i) && cons == ConsList(c, i)
    {
      match roled[i].role {
        case RolePublish => pubs := pubs + [i];
        case RoleConsume => cons := cons + [i];
        case RoleBoth => pubs, cons := pubs + [i], cons + [i];
      }
      i := i + 1;
    }
    slots := roled;
    var k := 0;
    while k < |pubs|
      invariant 0 <= k <= |pubs| && |slots| == c.channels
      invariant forall i :: 0 <= i < c.channels ==>
                  slots[i] == if Publishes(RoleAt(c, i)) && |PubList(c, i)| < k then IndexedSlot(c, i) else RoledSlot(c, i)
    {
      PubAt(c, c.channels, k);
      forall i | 0 <= i < c.channels && i != pubs[k] && Publishes(RoleAt(c, i)) ensures |PubList(c, i)| != k {
        PubMember(c, c.channels, i);
      }
      slots := slots[pubs[k] := slots[pubs[k]].(publishCapIdx := k)];
      k := k + 1;
    }
    forall i | 0 <= i < c.channels ensures slots[i] == IndexedSlot(c, i) {
      if Publishes(RoleAt(c, i)) {
        PubMember(c, c.channels, i);
      }
    }
  }

  /** The `k`-th publish-capable channel has `k` publish-capable channels before it. */
  lemma {:induction false} PubAt(c: Config, i: nat, k: nat)
    requires Sane(c) && k < |PubList(c, i)|
    ensures var m := PubList(c, i)[k]; m < i && Publishes(RoleAt(c, m)) && |PubList(c, m)| == k
  {
    if k < |PubList(c, i - 1)| {
      PubAt(c, i - 1, k);
    }
  }

  lemma {:induction false} PubMember(c: Config, i: nat, m: nat)
    requires Sane(c) && m < i && Publishes(RoleAt(c, m))
    ensures |PubList(c, m)| < |PubList(c, i)| && PubList(c, i)[|PubList(c, m)|] == m
  {
    if m < i - 1 {
      PubMember(c, i - 1, m);
    }
  }

  lemma {:induction false} ConsAt(c: Config, i: nat, k: nat)
    requires Sane(c) && k < |ConsList(c, i)|
    ensures var m := ConsList(c, i)[k]; m < i && Consumes(RoleAt(c, m)) && |ConsList(c, m)| == k
  {
    if k < |ConsList(c, i - 1)| {
      ConsAt(c, i - 1, k);
    }
  }

  lemma {:induction false} ConsMember(c: Config, i: nat, m: nat)
    requires Sane(c) && m < i && Consumes(RoleAt(c, m))
    ensures |ConsList(c, m)| < |ConsList(c, i)| && ConsList(c, i)[|ConsList(c, m)|] == m
  {
    if m < i - 1 {
      ConsMember(c, i - 1, m);
    }
  }

  // ---------------------------------------------------------------- workers

  function WorkerSlot(mode: Distribution, cap: int, slots: nat, j: nat): nat
    requires slots > 0
  {
    if mode.Even? then j % slots else if cap <= 0 then 0 else (j / cap) % slots
  }

  /** The remainder in the capped case changes nothing: what fits never reaches past the last slot. */
  lemma WorkerSlotIsBin(mode: Distribution, cap: int, slots: nat, count: nat, j: nat)
    requires slots > 0 && Fits(mode, cap, slots, count) && j < count
    ensures WorkerSlot(mode, cap, slots, j) == Bin(mode, cap, slots, j) < slots
  {
    BinInRange(mode, cap, slots, count, j);
    if !mode.Even? && cap > 0 {
      DivModUnique(j / cap, slots, 0, j / cap);
    }
  }

  /** The worker loop; the `k`-th slot of the list ends up with the workers of bin `k`. */
  method PlaceWorkers(count: nat, slots: nat, mode: Distribution, cap: int) returns (r: Result<seq<seq<nat>>>)
    ensures r.Ok? <==> count == 0 || (slots > 0 && !mode.Unknown? && Fits(mode, cap, slots, count))
    ensures r.Ok? ==> |r.value| == slots && forall k :: 0 <= k < slots ==> r.value[k] == Workers(mode, cap, slots, count, k)
  {
    var placed: seq<seq<nat>> := seq(slots, _ => []);
    if count == 0 {
      return Ok(placed);
    }
    if slots == 0 {
      return Err("no slots to place workers");
    }
    if mode.Unknown? {
      return Err("invalid distribution");
    }
    if mode.Uneven? && cap > 0 && count > slots * cap {
      return Err("workers do not fit");
    }
    var j := 0;
    while j < count
      invariant 0 <= j <= count && |placed| == slots
      invariant forall k :: 0 <= k < slots ==> placed[k] == InBin(mode, cap, slots, j, k)
    {
      var k := WorkerSlot(mode, cap, slots, j);
      WorkerSlotIsBin(mode, cap, slots, count, j);
      placed := placed[k := placed[k] + [j]];
      j := j + 1;
    }
    r := Ok(placed);
  }

  /** Slot `i` once the consumers of the first `k` consume-capable slots are attached. */
  function WithConsumers(c: Config, i: nat, k: nat): Slot
    requires Sane(c)
  {
    if Consumes(RoleAt(c, i)) && |ConsList(c, i)| < k then IndexedSlot(c, i).(consGoroutines := ConsumersAt(c, i))
    else IndexedSlot(c, i)
  }

  method AttachConsumers(c: Config, indexed: seq<Slot>, cons: seq<nat>, placed: seq<seq<nat>>) returns (slots: seq<Slot>)
    requires Sane(c) && |indexed| == c.channels && forall i :: 0 <= i < c.channels ==> indexed[i] == IndexedSlot(c, i)
    requires cons == ConsList(c, c.channels)
    requires var n := |cons|;
             |placed| == n && forall k :: 0 <= k < n ==>
               placed[k] == Workers(c.channelsDist, c.maxConsumersPerChannel, n, c.consumers, k)
    ensures |slots| == c.channels
    ensures forall i :: 0 <= i < c.channels ==> slots[i] == IndexedSlot(c, i).(consGoroutines := ConsumersAt(c, i))
  {
    slots := indexed;
    var k := 0;
    while k < |placed|
      invariant 0 <= k <= |placed| && |slots| == c.channels
      invariant forall i :: 0 <= i < c.channels ==> slots[i] == WithConsumers(c, i, k)
    {
      ConsAt(c, c.channels, k);
      var m := cons[k];
      forall i | 0 <= i < c.channels && i != m && Consumes(RoleAt(c, i)) ensures |ConsList(c, i)| != k {
        ConsMember(c, c.channels, i);
      }
      slots := slots[m := slots[m].(consGoroutines := placed[k])];
      k := k + 1;
    }
    forall i | 0 <= i < c.channels ensures slots[i] == IndexedSlot(c, i).(consGoroutines := ConsumersAt(c, i)) {
      if Consumes(RoleAt(c, i)) {
        ConsMember(c, c.channels, i);
      }
    }
  }

  /** The same for publishers, on slots that have their consumers. */
  function WithPublishers(c: Config, i: nat, k: nat): Slot
    requires Sane(c)
  {
    if Publishes(RoleAt(c, i)) && |PubList(c, i)| < k then PlannedSlot(c, i)
    else IndexedSlot(c, i).(consGoroutines := ConsumersAt(c, i))
  }

  method AttachPublishers(c: Config, staffed: seq<Slot>, pubs: seq<nat>, placed: seq<seq<nat>>) returns (slots: seq<Slot>)
    requires Sane(c) && |staffed| == c.channels
    requires forall i :: 0 <= i < c.channels ==> staffed[i] == IndexedSlot(c, i).(consGoroutines := ConsumersAt(c, i))
    requires pubs == PubList(c, c.channels)
    requires var n := |pubs|;
             |placed| == n && forall k :: 0 <= k < n ==>
               placed[k] == Workers(c.pubChannelsDist, c.maxPublishersPerChannel, n, c.publishers, k)
    ensures |slots| == c.channels && forall i :: 0 <= i < c.channels ==> slots[i] == PlannedSlot(c, i)
  {
    slots := staffed;
    var k := 0;
    while k < |placed|
      invariant 0 <= k <= |placed| && |slots| == c.channels
      invariant forall i :: 0 <= i < c.channels ==> slots[i] == WithPublishers(c, i, k)
    {
      PubAt(c, c.channels, k);
      var m := pubs[k];
      forall i | 0 <= i < c.channels && i != m && Publishes(RoleAt(c, i)) ensures |PubList(c, i)| != k {
        PubMember(c, c.channels, i);
      }
      slots := slots[m := slots[m].(pubGoroutines := placed[k])];
      k := k + 1;
    }
    forall i | 0 <= i < c.channels ensures slots[i] == PlannedSlot(c, i) {
      if Publishes(RoleAt(c, i)) {
        PubMember(c, c.channels, i);
      }
    }
  }

  // ---------------------------------------------------------------- the planner

  /** `t` is the plan the configuration describes. */
  ghost predicate IsPlan(c: Config, t: Topology)
    requires Sane(c)
  {
    && |t.conns| == c.conns && |t.slots| == c.channels
    && (forall k :: 0 <= k < c.conns ==>
          t.conns[k] == ConnPlan(k, ConnRoleOf(c, k), InBin(c.connsDist, c.maxChannelsPerConn, c.conns, c.channels, k)))
    && (forall i :: 0 <= i < c.channels ==> t.slots[i] == PlannedSlot(c, i))
    && t.publishCapable == PubList(c, c.channels) && t.consumeCapable == ConsList(c, c.channels)
  }

  method PlaceChannels(c: Config) returns (r: Result<(seq<ConnPlan>, seq<Slot>)>)
    requires Sane(c)
    ensures r.Ok? <==> Fits(c.connsDist, c.maxChannelsPerConn, c.conns, c.channels)
    ensures r.Ok? ==>
              && |r.value.0| == c.conns && |r.value.1| == c.channels
              && (forall k :: 0 <= k < c.conns ==>
                    r.value.0[k] == ConnPlan(k, ConnRoleOf(c, k), InBin(c.connsDist, c.maxChannelsPerConn, c.conns, c.channels, k)))
              && (forall i :: 0 <= i < c.channels ==> r.value.1[i] == OpenedSlot(c, i))
  {
    if c.connsDist.Uneven? && c.maxChannelsPerConn > 0 && c.channels > c.conns * c.maxChannelsPerConn {
      return Err("channels do not fit");
    }
    var chans := Place(c.connsDist, c.maxChannelsPerConn, c.conns, c.channels);
    var conns, all := OpenSlots(c, chans);
    FlatIsRange(c.connsDist, c.maxChannelsPerConn, c.conns, c.channels, chans);
    SortedIsPlan(c, all);
    r := Ok((conns, Sort(all, IndexKey)));
  }

  method BuildTopology(c: Config) returns (r: Result<Topology>)
    requires Sane(c)
    ensures r.Ok? <==> Feasible(c)
    ensures r.Ok? ==> IsPlan(c, r.value)
  {
    Counts(c);
    var opening := PlaceChannels(c);
    if opening.Err? {
      return Err(opening.error);
    }
    var carved := CarveRoles(c, opening.value.1);
    if carved.Err? {
      return Err(carved.error);
    }
    var slots, pubs, cons := Capabilities(c, carved.value);
    if c.consumers > 0 && |cons| == 0 {
      return Err("no consume-capable channels");
    }
    var consPlaced := PlaceWorkers(c.consumers, |cons|, c.channelsDist, c.maxConsumersPerChannel);
    if consPlaced.Err? {
      return Err(consPlaced.error);
    }
    slots := AttachConsumers(c, slots, cons, consPlaced.value);
    if c.publishers > 0 && |pubs| == 0 {
      return Err("no publish-capable channels");
    }
    var pubsPlaced := PlaceWorkers(c.publishers, |pubs|, c.pubChannelsDist, c.maxPublishersPerChannel);
    if pubsPlaced.Err? {
      return Err(pubsPlaced.error);
    }
    slots := AttachPublishers(c, slots, pubs, pubsPlaced.value);
    r := Ok(Topology(opening.value.0, slots, pubs, cons));
  }

  /** A configuration is accepted exactly when the closed-form condition holds. */
  method Validate(c: Config) returns (r: Result<()>)
    ensures r.Ok? <==> Feasible(c)
  {
    if c.addr == "" { return Err("-addr must not be empty"); }
    if c.conns <= 0 { return Err("-conns must be >= 1"); }
    if c.pubConns < 0 { return Err("-pub-conns must be >= 0"); }
    if c.consConns < 0 { return Err("-cons-conns must be >= 0"); }
    if c.pubConns + c.consConns > c.conns { return Err("pub-conns + cons-conns exceeds conns"); }
    if c.channels <= 0 { return Err("-channels must be >= 1"); }
    if c.pubChannels < 0 { return Err("-pub-channels must be >= 0"); }
    if c.consChannels < 0 { return Err("-cons-channels must be >= 0"); }
    if c.publishers < 0 { return Err("-publishers must be >= 0"); }
    if c.consumers < 0 { return Err("-consumers must be >= 0"); }
    if c.msgs < 0 { return Err("-msgs must be >= 0"); }
    if c.size < HEADER_LEN { return Err("-size too small for the header"); }
    if c.report <= 0 { return Err("-report must be > 0"); }
    if c.drainTimeout <= 0 { return Err("-drain-timeout must be > 0"); }
    if c.warmup < 0 { return Err("-warmup must be >= 0"); }
    if c.duration < 0 { return Err("-duration must be >= 0"); }
    if c.connsDist.Unknown? { return Err("invalid conns distribution"); }
    if c.channelsDist.Unknown? { return Err("invalid channels distribution"); }
    if c.pubChannelsDist.Unknown? { return Err("invalid pub-channels distribution"); }
    var built := BuildTopology(c);
    r := if built.Ok? then Ok(()) else Err(built.error);
  }

  /** What is accepted always builds, and builds the described plan. */
  method Build(c: Config) returns (r: Result<Topology>)
    ensures r.Ok? <==> Feasible(c)
    ensures r.Ok? ==> IsPlan(c, r.value)
  {
    var v := Validate(c);
    if v.Err? {
      return Err(v.error);
    }
    r := BuildTopology(c);
  }
}
