/** The benchmark planner: which configurations are accepted and what plan they resolve to. */
module Topology {
  import opened Placement

  datatype ConnRole = ConnMixed | ConnPublishOnly | ConnConsumeOnly
  datatype Role = RoleBoth | RolePublish | RoleConsume

  const HEADER_LEN := 16

  datatype Config = Config(
    addr: string,
    conns: int, pubConns: int, consConns: int,
    channels: int, pubChannels: int, consChannels: int,
    connsDist: Distribution, channelsDist: Distribution, pubChannelsDist: Distribution,
    maxChannelsPerConn: int, maxConsumersPerChannel: int, maxPublishersPerChannel: int,
    publishers: int, consumers: int, msgs: int, size: int,
    report: int, drainTimeout: int, warmup: int, duration: int)

  datatype Slot = Slot(
    conn: nat, ch: nat, globalIndex: nat, role: Role, publishCapIdx: int,
    pubGoroutines: seq<nat>, consGoroutines: seq<nat>)

  datatype ConnPlan = ConnPlan(conn: nat, role: ConnRole, channels: seq<nat>)

  /** Slots in global order; the other lists refer to slots by global index. */
  datatype Topology = Topology(conns: seq<ConnPlan>, slots: seq<Slot>, publishCapable: seq<nat>, consumeCapable: seq<nat>)

  // ---------------------------------------------------------------- the plan, position by position

  /** The checks on single flags. */
  predicate Sane(c: Config) {
    && c.addr != "" && c.conns > 0 && c.pubConns >= 0 && c.consConns >= 0 && c.pubConns + c.consConns <= c.conns
    && c.channels > 0 && c.pubChannels >= 0 && c.consChannels >= 0
    && c.publishers >= 0 && c.consumers >= 0 && c.msgs >= 0 && c.size >= HEADER_LEN
    && c.report > 0 && c.drainTimeout > 0 && c.warmup >= 0 && c.duration >= 0
    && !c.connsDist.Unknown? && !c.channelsDist.Unknown? && !c.pubChannelsDist.Unknown?
  }

  function HomeOf(c: Config, i: nat): nat
    requires Sane(c)
  {
    Bin(c.connsDist, c.maxChannelsPerConn, c.conns, i)
  }

  function ConnRoleOf(c: Config, k: nat): ConnRole {
    if k < c.pubConns then ConnPublishOnly
    else if k < c.pubConns + c.consConns then ConnConsumeOnly
    else ConnMixed
  }

  function Dedicated(c: Config): nat
    requires Sane(c)
  {
    c.pubConns + c.consConns
  }

  /** Channels below `i` on connections below `h`. */
  function Below(c: Config, i: nat, h: nat): nat
    requires Sane(c)
  {
    CountBelow(c.connsDist, c.maxChannelsPerConn, c.conns, i, h)
  }

  /** Channels below `i` on mixed connections. */
  function MixedBefore(c: Config, i: nat): (r: nat)
    requires Sane(c)
    ensures r <= i
  {
    BelowGrows(c.connsDist, c.maxChannelsPerConn, c.conns, i, 0, Dedicated(c));
    i - Below(c, i, Dedicated(c))
  }

  /** Dedicated connections fix the role; on mixed ones the first -pub-channels in global order publish,
      the next -cons-channels consume, the rest do both. */
  function RoleAt(c: Config, i: nat): Role
    requires Sane(c)
  {
    match ConnRoleOf(c, HomeOf(c, i))
    case ConnPublishOnly => RolePublish
    case ConnConsumeOnly => RoleConsume
    case ConnMixed =>
      var r := MixedBefore(c, i);
      if r < c.pubChannels then RolePublish
      else if r < c.pubChannels + c.consChannels then RoleConsume
      else RoleBoth
  }

  predicate Publishes(r: Role) {
    r != RoleConsume
  }

  predicate Consumes(r: Role) {
    r != RolePublish
  }

  /** The publish-capable channels below `i`, in global order; likewise for consume-capable and mixed. */
  function PubList(c: Config, i: nat): seq<nat>
    requires Sane(c)
  {
    if i == 0 then [] else PubList(c, i - 1) + if Publishes(RoleAt(c, i - 1)) then [i - 1] else []
  }

  function ConsList(c: Config, i: nat): seq<nat>
    requires Sane(c)
  {
    if i == 0 then [] else ConsList(c, i - 1) + if Consumes(RoleAt(c, i - 1)) then [i - 1] else []
  }

  function MixedList(c: Config, i: nat): seq<nat>
    requires Sane(c)
  {
    if i == 0 then [] else MixedList(c, i - 1) + if ConnRoleOf(c, HomeOf(c, i - 1)).ConnMixed? then [i - 1] else []
  }

  // ---------------------------------------------------------------- how many of each

  lemma {:induction false} MixedCount(c: Config, i: nat)
    requires Sane(c)
    ensures |MixedList(c, i)| == MixedBefore(c, i)
  {
    if i > 0 {
      MixedCount(c, i - 1);
    }
  }

  function Clamp(x: int, hi: int): int {
    if x < 0 then 0 else if x > hi then hi else x
  }

  lemma {:induction false} PubCount(c: Config, i: nat)
    requires Sane(c)
    ensures |PubList(c, i)|
            == i - (Below(c, i, Dedicated(c)) - Below(c, i, c.pubConns)) - Clamp(MixedBefore(c, i) - c.pubChannels, c.consChannels)
  {
    if i > 0 {
      PubCount(c, i - 1);
    }
  }

  lemma {:induction false} ConsCount(c: Config, i: nat)
    requires Sane(c)
    ensures |ConsList(c, i)| == i - Below(c, i, c.pubConns) - Clamp(MixedBefore(c, i), c.pubChannels)
  {
    if i > 0 {
      ConsCount(c, i - 1);
    }
  }

  // ---------------------------------------------------------------- the acceptance condition, in closed form

  function BelowClosed(c: Config, h: nat): int
    requires Sane(c)
  {
    BelowFormula(c.connsDist, c.maxChannelsPerConn, c.conns, c.channels, h)
  }

  function MixedSlots(c: Config): int
    requires Sane(c)
  {
    c.channels - BelowClosed(c, Dedicated(c))
  }

  function PublishSlots(c: Config): int
    requires Sane(c)
  {
    c.channels - (BelowClosed(c, Dedicated(c)) - BelowClosed(c, c.pubConns)) - c.consChannels
  }

  function ConsumeSlots(c: Config): int
    requires Sane(c)
  {
    c.channels - BelowClosed(c, c.pubConns) - c.pubChannels
  }

  /** No workers, or somewhere to put them and room under the cap. */
  predicate Room(count: int, slots: int, mode: Distribution, cap: int) {
    count == 0 || (slots > 0 && (mode.Even? || cap <= 0 || count <= slots * cap))
  }

  predicate Feasible(c: Config) {
    && Sane(c)
    && (c.connsDist.Even? || c.maxChannelsPerConn <= 0 || c.channels <= c.conns * c.maxChannelsPerConn)
    && c.pubChannels + c.consChannels <= MixedSlots(c)
    && Room(c.consumers, ConsumeSlots(c), c.channelsDist, c.maxConsumersPerChannel)
    && Room(c.publishers, PublishSlots(c), c.pubChannelsDist, c.maxPublishersPerChannel)
  }

  /** Under even placement the mixed slots are the full rounds of the mixed connections plus what the last,
      partial round gives them. */
  lemma EvenMixedSlots(c: Config)
    requires Sane(c) && c.connsDist.Even?
    ensures var d, q, r := Dedicated(c), c.channels / c.conns, c.channels % c.conns;
            MixedSlots(c) == (c.conns - d) * q + if r > d then r - d else 0
  {
    var d, q := Dedicated(c), c.channels / c.conns;
    assert c.channels == c.conns * q + c.channels % c.conns;
    assert (c.conns - d) * q == c.conns * q - d * q;
  }

  lemma Counts(c: Config)
    requires Sane(c)
    ensures MixedBefore(c, c.channels) == MixedSlots(c)
    ensures c.pubChannels + c.consChannels <= MixedSlots(c) ==>
              |PubList(c, c.channels)| == PublishSlots(c) && |ConsList(c, c.channels)| == ConsumeSlots(c)
  {
    CountClosedForm(c.connsDist, c.maxChannelsPerConn, c.conns, c.channels, Dedicated(c));
    CountClosedForm(c.connsDist, c.maxChannelsPerConn, c.conns, c.channels, c.pubConns);
    PubCount(c, c.channels);
    ConsCount(c, c.channels);
  }
}
