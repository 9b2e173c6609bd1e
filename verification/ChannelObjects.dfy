/** Channels and connections: the handlers that reach consumers and queues through them. */
module ChannelObjects {
  import opened Outcomes
  import opened Messages
  import opened Naming
  import opened BrokerObjects
  import CS = ConsumerSpec
  import R = Routing

  /** The consumer keeps consistent books and hangs off one of the broker's own queues. */
  ghost predicate Belongs(b: Broker, c: Consumer)
    reads b, c
  {
    CS.Booked(c.View()) && c.queue.name in b.queues && b.queues[c.queue.name] == c.queue
  }

  ghost predicate Sound(b: Broker, all: set<Consumer>)
    reads b, b.queues.Values, all
  {
    b.QueuesOk() && forall c :: c in all ==> Belongs(b, c)
  }

  lemma Admit(b: Broker, all: set<Consumer>, c: Consumer)
    requires Sound(b, all) && Belongs(b, c)
    ensures Sound(b, all + {c})
  {
  }

  ghost function Members(cs: seq<Consumer>): set<Consumer> {
    set c | c in cs
  }

  /** Consumers are filed under their tags. */
  predicate Filed(cs: map<string, Consumer>) {
    forall g :: g in cs ==> cs[g].tag == g
  }

  class Channel {
    const id: nat
    const broker: Broker
    var consumers: map<string, Consumer>

    constructor (id: nat, broker: Broker)
      ensures this.id == id && this.broker == broker && consumers == map[]
    {
      this.id, this.broker, consumers := id, broker, map[];
    }

    ghost predicate Valid()
      reads this, broker, broker.queues.Values, broker.exchanges.Values, consumers.Values
    {
      broker.Valid() && Sound(broker, consumers.Values)
    }

    function TagFor(tag: string): string
      reads this
    {
      ConsumerTag(id, |consumers.Keys|, tag)
    }

    /** Subscribe: a fresh consumer, registered with the queue and filed on this channel; or an error
        and no change when the queue is unknown or the consumer tag is taken. */
    method RegisterConsumer(tag: string, queue: string, ghost all: set<Consumer>)
      returns (r: Result<string>, ghost made: Option<Consumer>)
      requires Sound(broker, all)
      modifies this`consumers, broker.queues.Values`consumers
      ensures Sound(broker, all)
      ensures r.Ok? <==> queue in broker.queues && old(TagFor(tag)) !in old(consumers)
      ensures r.Ok? <==> made.Some?
      ensures r.Ok? ==>
                var c := made.value;
                && r.value == old(TagFor(tag)) && fresh(c) && Belongs(broker, c)
                && c.View() == CS.Fresh() && c.tag == r.value && c.queue == broker.queues[queue]
                && consumers == old(consumers)[r.value := c]
                && WorldOf(broker, all) == Enlist(old(WorldOf(broker, all)), c)
      ensures r.Err? ==> consumers == old(consumers) && WorldOf(broker, all) == old(WorldOf(broker, all))
    {
      made := None;
      if queue !in broker.queues {
        return Err("queue not found"), None;
      }
      var g := TagFor(tag);
      var c := new Consumer(g, broker.queues[queue]);
      if g in consumers {
        return Err("consumer tag already in use"), None;
      }
      Attach(c, all);
      r, made := Ok(g), Some(c);
    }

    /** Registered with its queue, then filed under its tag. */
    method Attach(c: Consumer, ghost all: set<Consumer>)
      requires Sound(broker, all) && Belongs(broker, c)
      modifies this`consumers, c.queue`consumers
      ensures Sound(broker, all) && Belongs(broker, c) && consumers == old(consumers)[c.tag := c]
      ensures WorldOf(broker, all) == Enlist(old(WorldOf(broker, all)), c)
    {
      Enrol(c, all);
      consumers := consumers[c.tag := c];
    }

    method Enrol(c: Consumer, ghost all: set<Consumer>)
      requires broker.QueuesOk() && c.queue.name in broker.queues && broker.queues[c.queue.name] == c.queue
      modifies c.queue`consumers
      ensures broker.QueuesOk() && WorldOf(broker, all) == Enlist(old(WorldOf(broker, all)), c)
    {
      ghost var w := WorldOf(broker, all);
      assert forall n :: n in broker.queues && n != c.queue.name ==> broker.queues[n] != c.queue;
      c.queue.RegisterConsumer(c);
      Enlisted(w, WorldOf(broker, all), c);
    }

    /** `walk` is an order in which the consumer map may be walked. */
    ghost predicate Walks(walk: seq<string>)
      reads this
    {
      multiset(walk) == multiset(consumers.Keys)
    }

    /** The first consumer on the walk that holds the tag. */
    function Finder(walk: seq<string>, t: Tag): Consumer?
      reads this, consumers.Values
    {
      if walk == [] then null
      else if walk[0] in consumers && t in consumers[walk[0]].inflightTags then consumers[walk[0]]
      else Finder(walk[1..], t)
    }

    /** Ack by tag: the first consumer of the channel that holds the tag names the queue, and the tag is
        settled at a consumer of that queue that holds it; nobody else changes. */
    method HandleAck(t: Tag, walk: seq<string>) returns (ghost holder: Consumer?, ghost hit: Consumer?)
      requires Sound(broker, consumers.Values) && Walks(walk)
      modifies set g, c | g in consumers && c in consumers[g].queue.consumers :: c
      ensures holder == old(Finder(walk, t)) && (holder != null ==> holder in consumers.Values)
      ensures holder == null <==> forall g :: g in consumers ==> t !in old(consumers[g].inflightTags)
      ensures hit == null <==> holder == null || forall x :: x in holder.queue.consumers ==> t !in old(x.inflightTags)
      ensures hit != null ==> hit in holder.queue.consumers && t in old(hit.inflightTags)
                              && hit.View() == CS.Settle(old(hit.View()), t)
      ensures forall q, c :: q in broker.queues.Values && c in q.consumers && c != hit ==> c.View() == old(c.View())
    {
      holder, hit := null, null;
      for i := 0 to |walk|
        invariant Finder(walk, t) == Finder(walk[i..], t)
        invariant forall j :: 0 <= j < i ==> walk[j] in consumers && t !in consumers[walk[j]].inflightTags
      {
        assert walk[i] in multiset(walk);
        assert walk[i..][1..] == walk[i + 1..];
        var c := consumers[walk[i]];
        if t in c.inflightTags {
          holder := c;
          assert c in consumers.Values && Belongs(broker, c);
          var _, h := broker.Ack(c.queue.name, t);
          hit := h;
          return;
        }
      }
      forall g | g in consumers ensures t !in consumers[g].inflightTags {
        assert g in multiset(walk);
      }
    }

    /** Nack: the message leaves its consumer and goes back to the front of its queue, or through the
        dead-letter exchange with its body unchanged, or nowhere. A missing requeue field means requeue. */
    method HandleNack(t: Tag, requeueField: Option<bool>, ghost p: R.Plain) returns (ghost hit: Consumer?)
      requires Valid() && broker.Shows(p)
      modifies consumers.Values, broker.queues.Values`messages, broker.queues.Values`nextTag, broker.queues.Values`nextId
      ensures Valid()
      ensures hit == null <==> forall g :: g in consumers ==> t !in old(consumers[g].pendingMessages)
      ensures hit == null ==> broker.Shows(p)
      ensures hit != null ==> hit in consumers.Values && t in old(hit.pendingMessages) && hit.View() == CS.Settle(old(hit.View()), t)
      ensures forall g :: g in consumers && consumers[g] != hit ==> consumers[g].View() == old(consumers[g].View())
      ensures hit != null ==>
                broker.Shows(R.Step(p, R.Nack(hit.queue.name, old(hit.pendingMessages[t]), requeueField != Some(false))))
      ensures hit == null ==> forall n :: n in broker.queues ==> broker.queues[n].messages == old(broker.queues[n].messages)
      ensures hit != null && requeueField != Some(false) ==>
                && hit.queue.messages == [old(hit.pendingMessages[t])] + old(hit.queue.messages)
                && forall n :: n in broker.queues && n != hit.queue.name ==>
                     broker.queues[n].messages == old(broker.queues[n].messages)
      ensures hit != null && requeueField == Some(false) ==>
                var m, q := old(hit.pendingMessages[t]), hit.queue;
                var key := if q.dlxRoutingKey == "" then m.routingKey else q.dlxRoutingKey;
                forall n :: n in broker.queues ==>
                  broker.queues[n].messages == old(broker.queues[n].messages)
                    + if q.dlx != "" && q.dlx in broker.exchanges && broker.exchanges[q.dlx].Routes(key, n)
                      then [Message(old(broker.queues[n].nextId), old(broker.queues[n].nextTag), m.body, q.dlx, key)] else []
    {
      var requeue := true;
      if requeueField.Some? {
        requeue := requeueField.value;
      }
      var c, msg := TakePending(t, p);
      hit := c;
      if c == null {
        return;
      }
      FinishNack(c.queue, msg, requeue, p);
    }

    /** The rest of a nack, with no consumer's lock held. */
    method FinishNack(q: Queue, msg: Message, requeue: bool, ghost p: R.Plain)
      requires Valid() && broker.Shows(p) && q.name in broker.queues && broker.queues[q.name] == q
      modifies broker.queues.Values`messages, broker.queues.Values`nextTag, broker.queues.Values`nextId
      ensures Valid() && broker.Shows(R.Step(p, R.Nack(q.name, msg, requeue)))
      ensures requeue ==>
                && q.messages == [msg] + old(q.messages)
                && forall n :: n in broker.queues && n != q.name ==> broker.queues[n].messages == old(broker.queues[n].messages)
      ensures !requeue ==>
                var key := if q.dlxRoutingKey == "" then msg.routingKey else q.dlxRoutingKey;
                forall n :: n in broker.queues ==>
                  broker.queues[n].messages == old(broker.queues[n].messages)
                    + if q.dlx != "" && q.dlx in broker.exchanges && broker.exchanges[q.dlx].Routes(key, n)
                      then [Message(old(broker.queues[n].nextId), old(broker.queues[n].nextTag), msg.body, q.dlx, key)] else []
      ensures forall g :: g in consumers ==> consumers[g].View() == old(consumers[g].View())
    {
      broker.SettleNack(q, msg, requeue, p);
    }

    /** The part of a nack under the consumer's lock: the first consumer of the channel that has the tag
        pending gives up its message. */
    method TakePending(t: Tag, ghost p: R.Plain) returns (c: Consumer?, msg: Message)
      requires Valid() && broker.Shows(p)
      modifies consumers.Values`inflight, consumers.Values`inflightTags, consumers.Values`pendingMessages
      ensures Valid() && broker.Shows(p)
      ensures forall n :: n in broker.queues ==> broker.queues[n].messages == old(broker.queues[n].messages)
      ensures c == null <==> forall g :: g in consumers ==> t !in old(consumers[g].pendingMessages)
      ensures c != null ==> c in consumers.Values && t in old(c.pendingMessages) && msg == old(c.pendingMessages[t])
                            && c.View() == CS.Settle(old(c.View()), t)
      ensures forall g :: g in consumers && consumers[g] != c ==> consumers[g].View() == old(consumers[g].View())
    {
      c, msg := null, Message(0, 0, [], "", "");
      var left := consumers.Keys;
      while left != {}
        invariant left <= consumers.Keys
        invariant forall g :: g in consumers.Keys - left ==> t !in consumers[g].pendingMessages
        invariant forall g :: g in consumers ==> consumers[g].View() == old(consumers[g].View())
        decreases left
      {
        var g :| g in left;
        left := left - {g};
        c := consumers[g];
        if t in c.pendingMessages {
          msg := c.pendingMessages[t];
          GiveUp(c, t, p);
          return;
        }
      }
      c := null;
    }

    method GiveUp(c: Consumer, t: Tag, ghost p: R.Plain)
      requires Valid() && broker.Shows(p) && c in consumers.Values && t in c.pendingMessages
      modifies c`inflight, c`inflightTags, c`pendingMessages
      ensures Valid() && broker.Shows(p) && c.View() == CS.Settle(old(c.View()), t)
    {
      CS.SettlePend(c.View(), t);
      c.SettleTag(t);
    }

    /** One consumer is unregistered from its queue. */
    method UnregisterOne(c: Consumer, ghost all: set<Consumer>) returns (ghost order: seq<Message>)
      requires Sound(broker, all) && c in all
      modifies c, c.queue`messages, c.queue`consumers
      ensures Sound(broker, all)
      ensures c.queue.messages == order + old(c.queue.messages) && c.queue.consumers == old(c.queue.consumers) - {c}
      ensures c in old(c.queue.consumers) ==> multiset(order) == CS.Pend(old(c.View())) && c.View() == CS.Drain(old(c.View()))
      ensures c !in old(c.queue.consumers) ==> order == [] && c.View() == old(c.View())
    {
      CS.DrainPend(c.View());
      order := c.queue.UnregisterConsumer(c);
    }

    method CloseOne(c: Consumer, ghost all: set<Consumer>) returns (ghost order: seq<Message>)
      requires Sound(broker, all) && c in all
      modifies c, broker.queues.Values`messages, broker.queues.Values`consumers
      ensures Sound(broker, all)
      ensures IsOrder(old(WorldOf(broker, all)), c, order)
      ensures WorldOf(broker, all) == Close(old(WorldOf(broker, all)), c, order)
    {
      ghost var w := WorldOf(broker, all);
      assert forall n :: n in broker.queues && n != c.queue.name ==> broker.queues[n] != c.queue;
      order := UnregisterOne(c, all);
      WorldCloses(w, WorldOf(broker, all), c, order);
    }

    /** Close: every consumer of the channel is unregistered, in the order the map yields them. */
    method Cleanup(ghost all: set<Consumer>) returns (ghost cs: seq<Consumer>, ghost orders: seq<seq<Message>>)
      requires Sound(broker, all) && Filed(consumers) && consumers.Values <= all
      modifies consumers.Values, broker.queues.Values`messages, broker.queues.Values`consumers
      ensures Sound(broker, all) && Members(cs) == consumers.Values
      ensures Closing(old(WorldOf(broker, all)), cs, orders)
      ensures WorldOf(broker, all) == Closed(old(WorldOf(broker, all)), cs, orders)
    {
      cs, orders := [], [];
      ghost var start := WorldOf(broker, all);
      var mine := consumers;
      var left := mine.Keys;
      while left != {}
        invariant Sound(broker, all) && Progress(mine, left, start, cs, orders, WorldOf(broker, all))
        decreases left
      {
        var g :| g in left;
        ghost var now := WorldOf(broker, all);
        ghost var order := CloseOne(mine[g], all);
        ProgressOne(mine, left, start, cs, orders, now, g, order);
        cs, orders, left := cs + [mine[g]], orders + [order], left - {g};
      }
    }
  }

  /** The consumers of each channel of a connection, by channel id and consumer tag. */
  type Table = map<nat, map<string, Consumer>>

  /** Consumers are filed under their tags, on one channel each, and come from `made`. */
  ghost predicate GoodTable(table: Table, made: set<Consumer>) {
    && (forall i, g :: i in table && g in table[i] ==> table[i][g].tag == g && table[i][g] in made)
    && (forall i, g, j, h :: i in table && g in table[i] && j in table && h in table[j] && table[i][g] == table[j][h] ==> i == j)
  }

  function Put(table: Table, id: nat, c: Consumer): Table {
    if id in table then table[id := table[id][c.tag := c]] else table
  }

  function Row(table: Table, id: nat): set<Consumer> {
    if id in table then table[id].Values else {}
  }

  /** All the consumers of a table. */
  ghost function Union(table: Table): set<Consumer> {
    set i, g | i in table && g in table[i] :: table[i][g]
  }

  lemma PutKeeps(table: Table, made: set<Consumer>, id: nat, c: Consumer)
    requires GoodTable(table, made) && c !in made
    ensures GoodTable(Put(table, id, c), made + {c})
  {
    if id in table {
      forall x | x in table[id][c.tag := c].Values ensures x in table[id].Values || x == c {
      }
    }
  }

  /** A connection. The ghost fields are history: every consumer ever made on one of its channels, and what the
      channel table reaches. */
  class Connection {
    const broker: Broker
    var channels: map<nat, Channel>
    ghost var made: set<Consumer>
    ghost var table: Table

    constructor (broker: Broker)
      requires broker.QueuesOk()
      ensures Valid() && this.broker == broker && channels == map[] && made == {} && table == map[]
    {
      this.broker, channels, made, table := broker, map[], {}, map[];
    }

    ghost predicate Valid()
      reads this, broker, broker.queues.Values, channels.Values, made
    {
      Sound(broker, made) && TableOk()
    }

    /** `table` says which consumers are on which channel. */
    ghost predicate TableOk()
      reads this`made, this`channels, this`table, channels.Values
    {
      GoodTable(table, made) && Shows(table)
    }

    ghost predicate Shows(t: Table)
      reads this`channels, channels.Values
    {
      && channels.Keys == t.Keys
      && forall i :: i in channels ==>
           channels[i].id == i && channels[i].broker == broker && channels[i].consumers == t[i]
    }

    /** Queue contents, registrations and bookkeeping, for every consumer ever made. */
    ghost function World(): World
      reads this`made, broker, broker.queues.Values, made
    {
      WorldOf(broker, made)
    }

    /** A new empty channel takes the id; whatever was open under it is forgotten, not cleaned up. */
    method ChannelOpen(id: nat)
      requires Valid()
      modifies this`channels, this`table
      ensures Valid() && table == old(table)[id := map[]] && World() == old(World())
      ensures id in channels && fresh(channels[id]) && channels == old(channels)[id := channels[id]]
      ensures forall x :: x in channels.Values && x !in old(channels.Values) ==> fresh(x)
    {
      var ch := new Channel(id, broker);
      Enter(id, ch);
    }

    method Enter(id: nat, ch: Channel)
      requires Valid() && ch.id == id && ch.broker == broker && ch.consumers == map[]
      modifies this`channels, this`table
      ensures Valid() && table == old(table)[id := map[]] && World() == old(World())
      ensures channels == old(channels)[id := ch]
    {
      channels := channels[id := ch];
      table := table[id := map[]];
    }

    /** The tag a consumer would get on a channel. */
    ghost function Wanted(id: nat, tag: string): string
      reads this
    {
      ConsumerTag(id, if id in table then |table[id].Keys| else 0, tag)
    }

    /** Subscribe on an open channel. */
    method Consume(id: nat, tag: string, queue: string) returns (r: Result<string>, ghost c: Option<Consumer>)
      requires Valid()
      modifies this`made, this`table, channels.Values, broker.queues.Values`consumers
      ensures Valid()
      ensures r.Ok? <==> id in old(table) && queue in broker.queues && old(Wanted(id, tag)) !in old(table)[id]
      ensures r.Ok? <==> c.Some?
      ensures r.Ok? ==> fresh(c.value) && c.value.tag == r.value == old(Wanted(id, tag)) && c.value.queue == broker.queues[queue]
      ensures r.Ok? ==> c.value !in old(made) && c.value.queue.name == queue && queue in old(World()).members
      ensures r.Ok? ==> made == old(made) + {c.value} && table == Put(old(table), id, c.value) && World() == Join(old(World()), c.value)
      ensures r.Err? ==> made == old(made) && table == old(table) && World() == old(World())
      ensures forall x :: x in made && x !in old(made) ==> fresh(x)
    {
      if id !in channels {
        return Err("channel with requested channelID not open for communication"), None;
      }
      r, c := Subscribe(id, tag, queue);
      if r.Ok? {
        PutKeeps(table, made, id, c.value);
        Note(id, c.value);
      }
    }

    /** The registration itself, before the history takes note of it. */
    method Subscribe(id: nat, tag: string, queue: string) returns (r: Result<string>, ghost c: Option<Consumer>)
      requires Sound(broker, made) && Shows(table) && id in channels
      modifies {channels[id]}`consumers, broker.queues.Values`consumers
      ensures Sound(broker, made)
      ensures r.Ok? <==> queue in broker.queues && Wanted(id, tag) !in table[id]
      ensures r.Ok? <==> c.Some?
      ensures r.Ok? ==>
                && fresh(c.value) && Belongs(broker, c.value) && c.value.View() == CS.Fresh()
                && c.value.tag == r.value == Wanted(id, tag) && c.value.queue == broker.queues[queue]
      ensures Shows(if r.Ok? then Put(table, id, c.value) else table)
      ensures WorldOf(broker, made) == if r.Ok? then Enlist(old(WorldOf(broker, made)), c.value) else old(WorldOf(broker, made))
    {
      ghost var ch := channels[id];
      r, c := SubscribeOn(channels[id], id, tag, queue);
      ghost var t' := if r.Ok? then Put(table, id, c.value) else table;
      assert channels.Keys == t'.Keys;
      forall i | i in channels
        ensures channels[i].id == i && channels[i].broker == broker && channels[i].consumers == t'[i]
      {
        if i == id {
          assert channels[i] == ch;
        } else {
          assert channels[i] != ch;
          assert channels[i].consumers == old(channels[i].consumers) == table[i] == t'[i];
        }
      }
    }

    method SubscribeOn(ch: Channel, ghost id: nat, tag: string, queue: string) returns (r: Result<string>, ghost c: Option<Consumer>)
      requires Sound(broker, made) && ch.broker == broker && ch.id == id && id in table && ch.consumers == table[id]
      modifies ch`consumers, broker.queues.Values`consumers
      ensures Sound(broker, made)
      ensures r.Ok? <==> queue in broker.queues && Wanted(id, tag) !in table[id]
      ensures r.Ok? <==> c.Some?
      ensures r.Ok? ==>
                && fresh(c.value) && Belongs(broker, c.value) && c.value.View() == CS.Fresh()
                && c.value.tag == r.value == Wanted(id, tag) && c.value.queue == broker.queues[queue]
      ensures ch.consumers == if r.Ok? then table[id][r.value := c.value] else table[id]
      ensures WorldOf(broker, made) == if r.Ok? then Enlist(old(WorldOf(broker, made)), c.value) else old(WorldOf(broker, made))
    {
      r, c := ch.RegisterConsumer(tag, queue, made);
    }

    /** The history takes note of a new consumer. */
    ghost method Note(id: nat, c: Consumer)
      requires Sound(broker, made) && Belongs(broker, c)
      requires GoodTable(Put(table, id, c), made + {c}) && Shows(Put(table, id, c))
      modifies this`made, this`table
      ensures Valid() && made == old(made) + {c} && table == Put(old(table), id, c)
      ensures forall x :: x in made && x !in old(made) ==> x == c
      ensures World() == old(World()).(views := old(World()).views[c := c.View()])
    {
      Remember(c);
      table := Put(table, id, c);
    }

    ghost method Remember(c: Consumer)
      requires Sound(broker, made) && Belongs(broker, c)
      modifies this`made
      ensures Sound(broker, made) && made == old(made) + {c}
      ensures forall x :: x in made && x !in old(made) ==> x == c
      ensures World() == old(World()).(views := old(World()).views[c := c.View()])
    {
      WorldGrows(broker, made, c);
      Admit(broker, made, c);
      made := made + {c};
    }

    /** The channel leaves the table. */
    method Drop(id: nat)
      requires Valid()
      modifies this`channels, this`table
      ensures Valid() && channels == old(channels) - {id} && table == old(table) - {id} && World() == old(World())
    {
      channels := channels - {id};
      table := table - {id};
    }

    /** The channel leaves the table and its consumers are unregistered. */
    method ChannelClose(id: nat) returns (ghost cs: seq<Consumer>, ghost orders: seq<seq<Message>>)
      requires Valid()
      modifies this`channels, this`table, Row(table, id)
      modifies broker.queues.Values`messages, broker.queues.Values`consumers
      ensures Valid() && channels == old(channels) - {id} && table == old(table) - {id}
      ensures Members(cs) == Row(old(table), id)
      ensures Closing(old(World()), cs, orders) && World() == Closed(old(World()), cs, orders)
    {
      cs, orders := [], [];
      var ok := id in channels;
      if ok {
        cs, orders := CloseOpen(id);
      } else {
        Drop(id);
      }
    }

    method CloseOpen(id: nat) returns (ghost cs: seq<Consumer>, ghost orders: seq<seq<Message>>)
      requires Valid() && id in channels
      modifies this`channels, this`table, channels[id].consumers.Values
      modifies broker.queues.Values`messages, broker.queues.Values`consumers
      ensures Valid() && channels == old(channels) - {id} && table == old(table) - {id}
      ensures Members(cs) == old(channels[id].consumers).Values
      ensures Closing(old(World()), cs, orders) && World() == Closed(old(World()), cs, orders)
    {
      var ch := channels[id];
      Drop(id);
      cs, orders := Shut(ch);
    }

    /** The consumers of one channel are closed, whether or not it is in the table. */
    method Shut(ch: Channel) returns (ghost cs: seq<Consumer>, ghost orders: seq<seq<Message>>)
      requires Valid() && ch.broker == broker && Filed(ch.consumers) && ch.consumers.Values <= made
      modifies ch.consumers.Values, broker.queues.Values`messages, broker.queues.Values`consumers
      ensures Valid() && Members(cs) == ch.consumers.Values
      ensures Closing(old(World()), cs, orders) && World() == Closed(old(World()), cs, orders)
    {
      cs, orders := ch.Cleanup(made);
    }

    /** One round of cleaning up a connection. */
    method SweepChannel(i: nat, ghost left: set<nat>, ghost start: World, ghost cs: seq<Consumer>, ghost orders: seq<seq<Message>>)
      returns (ghost cs': seq<Consumer>, ghost orders': seq<seq<Message>>)
      requires Valid() && i in left && i in channels && Sweeping(table, left, start, cs, orders, World())
      modifies channels[i].consumers.Values, broker.queues.Values`messages, broker.queues.Values`consumers
      ensures Valid() && Sweeping(table, left - {i}, start, cs', orders', World())
    {
      ghost var more, back := Shut(channels[i]);
      SweepOne(table, made, left, start, cs, orders, i, more, back);
      cs', orders' := cs + more, orders + back;
    }

    /** The connection goes away: every channel in the table is cleaned up. */
    method Cleanup() returns (ghost cs: seq<Consumer>, ghost orders: seq<seq<Message>>)
      requires Valid()
      modifies Union(table), broker.queues.Values`messages, broker.queues.Values`consumers
      ensures Valid()
      ensures Members(cs) == Union(table)
      ensures Closing(old(World()), cs, orders) && World() == Closed(old(World()), cs, orders)
    {
      cs, orders := [], [];
      ghost var start := World();
      var left := channels.Keys;
      while left != {}
        invariant left <= table.Keys && Valid()
        invariant Sweeping(table, left, start, cs, orders, World())
        decreases left
      {
        var i :| i in left;
        cs, orders := SweepChannel(i, left, start, cs, orders);
        left := left - {i};
      }
      GatheredAll(table, cs);
    }
  }

  lemma GatheredAll(table: Table, cs: seq<Consumer>)
    requires Gathered(table, {}, cs)
    ensures Members(cs) == Union(table)
  {
    forall c | c in Union(table) ensures c in cs {
      var i, g :| i in table && g in table[i] && table[i][g] == c;
      assert c in table[i].Values;
    }
    forall c | c in cs ensures c in Union(table) {
      var i :| i in table && c in table[i].Values;
      var g :| g in table[i] && table[i][g] == c;
    }
  }

  /** `cs` are the consumers of the channels that are no longer in `left`. */
  ghost predicate Gathered(table: Table, left: set<nat>, cs: seq<Consumer>) {
    && (forall c :: c in cs ==> exists i :: i in table && i !in left && c in table[i].Values)
    && (forall i, c :: i in table && i !in left && c in table[i].Values ==> c in cs)
  }

  lemma GatherOne(table: Table, made: set<Consumer>, left: set<nat>, cs: seq<Consumer>, i: nat, more: seq<Consumer>)
    requires GoodTable(table, made) && Gathered(table, left, cs) && i in left && i in table
    requires forall c :: c in more <==> c in table[i].Values
    ensures Gathered(table, left - {i}, cs + more)
    ensures forall c :: c in more ==> c !in cs
  {
    forall c | c in cs + more ensures exists j :: j in table && j !in left - {i} && c in table[j].Values {
      if c in cs {
        var j :| j in table && j !in left && c in table[j].Values;
      }
    }
  }

  /** Part way through cleaning a connection: the channels not in `left` are closed. */
  ghost predicate Sweeping(table: Table, left: set<nat>, start: World, cs: seq<Consumer>, orders: seq<seq<Message>>, now: World) {
    Gathered(table, left, cs) && Closing(start, cs, orders) && now == Closed(start, cs, orders)
  }

  lemma SweepOne(table: Table, made: set<Consumer>, left: set<nat>, start: World, cs: seq<Consumer>, orders: seq<seq<Message>>,
                 i: nat, more: seq<Consumer>, back: seq<seq<Message>>)
    requires GoodTable(table, made) && i in left && i in table && Members(more) == table[i].Values
    requires Gathered(table, left, cs) && Closing(start, cs, orders) && Closing(Closed(start, cs, orders), more, back)
    ensures Sweeping(table, left - {i}, start, cs + more, orders + back, Closed(Closed(start, cs, orders), more, back))
  {
    assert forall c :: c in more <==> c in Members(more);
    GatherOne(table, made, left, cs, i, more);
    ClosingMore(start, cs, orders, more, back);
  }

  // ---------------------------------------------------------------- closing, on values

  /** `cs` are the consumers of a channel whose keys are no longer in `left`. */
  ghost predicate Visited(mine: map<string, Consumer>, left: set<string>, cs: seq<Consumer>) {
    && (forall g :: g in mine ==> mine[g].tag == g)
    && (forall g :: g in mine && g !in left ==> mine[g] in cs)
    && (forall c :: c in cs ==> c.tag in mine && c == mine[c.tag] && c.tag !in left)
  }

  /** Part way through closing a channel: the consumers whose keys are not in `left` are closed. */
  ghost predicate Progress(mine: map<string, Consumer>, left: set<string>, start: World,
                           cs: seq<Consumer>, orders: seq<seq<Message>>, now: World) {
    left <= mine.Keys && Visited(mine, left, cs) && Closing(start, cs, orders) && now == Closed(start, cs, orders)
  }

  lemma ProgressOne(mine: map<string, Consumer>, left: set<string>, start: World,
                    cs: seq<Consumer>, orders: seq<seq<Message>>, now: World, g: string, order: seq<Message>)
    requires Progress(mine, left, start, cs, orders, now) && g in left && IsOrder(now, mine[g], order)
    ensures Progress(mine, left - {g}, start, cs + [mine[g]], orders + [order], Close(now, mine[g], order))
  {
    VisitOne(mine, left, cs, g);
    ClosingOneMore(start, cs, orders, mine[g], order);
  }

  lemma VisitOne(mine: map<string, Consumer>, left: set<string>, cs: seq<Consumer>, g: string)
    requires g in mine && g in left && Visited(mine, left, cs)
    ensures Visited(mine, left - {g}, cs + [mine[g]]) && mine[g] !in cs
  {
  }

  /** What unregistering touches: queue contents, registrations, and the consumers' bookkeeping. */
  datatype World = World(
    messages: map<string, seq<Message>>,
    members: map<string, set<Consumer>>,
    views: map<Consumer, CS.Consumer>)

  // The guards make each comprehension constant outside its domain, so that empty maps of all states are alike.
  ghost function WorldOf(b: Broker, all: set<Consumer>): World
    reads b, b.queues.Values, all
  {
    World(map n | n in b.queues :: if n in b.queues then b.queues[n].messages else [],
          map n | n in b.queues :: if n in b.queues then b.queues[n].consumers else {},
          map c | c in all :: if c in all then c.View() else CS.Fresh())
  }

  /** The consumer is registered: its queue lists it. */
  predicate Listed(w: World, c: Consumer) {
    c.queue.name in w.members && c in w.members[c.queue.name]
  }

  ghost function Held(w: World, c: Consumer): multiset<Message> {
    if c in w.views then CS.Pend(w.views[c]) else multiset{}
  }

  ghost predicate IsOrder(w: World, c: Consumer, order: seq<Message>) {
    multiset(order) == if Listed(w, c) then Held(w, c) else multiset{}
  }

  function Close(w: World, c: Consumer, order: seq<Message>): World {
    if Listed(w, c) then
      var n := c.queue.name;
      World(if n in w.messages then w.messages[n := order + w.messages[n]] else w.messages,
            w.members[n := w.members[n] - {c}],
            if c in w.views then w.views[c := CS.Drain(w.views[c])] else w.views)
    else w
  }

  lemma WorldGrows(b: Broker, all: set<Consumer>, c: Consumer)
    ensures WorldOf(b, all + {c}) == WorldOf(b, all).(views := WorldOf(b, all).views[c := c.View()])
  {
  }

  /** A consumer joins its queue. */
  function Enlist(w: World, c: Consumer): World {
    var n := c.queue.name;
    w.(members := if n in w.members then w.members[n := w.members[n] + {c}] else w.members)
  }

  function Join(w: World, c: Consumer): World {
    Enlist(w, c).(views := w.views[c := CS.Fresh()])
  }

  lemma Enlisted(w: World, w': World, c: Consumer)
    requires w'.messages == w.messages && w'.views == w.views && w'.members.Keys == w.members.Keys
    requires forall n :: n in w.members ==>
               w'.members[n] == if n == c.queue.name then w.members[n] + {c} else w.members[n]
    ensures w' == Enlist(w, c)
  {
  }

  /** `w'` differs from `w` as unregistering `c` makes it differ. */
  ghost predicate Differs(w: World, w': World, c: Consumer, order: seq<Message>) {
    var n := c.queue.name;
    && w'.messages.Keys == w.messages.Keys == w.members.Keys == w'.members.Keys && w'.views.Keys == w.views.Keys
    && c in w.views && n in w.members
    && (forall k :: k in w.messages && k != n ==> w'.messages[k] == w.messages[k] && w'.members[k] == w.members[k])
    && (forall x :: x in w.views && x != c ==> w'.views[x] == w.views[x])
    && w'.messages[n] == order + w.messages[n] && w'.members[n] == w.members[n] - {c}
    && (if c in w.members[n] then multiset(order) == CS.Pend(w.views[c]) && w'.views[c] == CS.Drain(w.views[c])
        else order == [] && w'.views[c] == w.views[c])
  }

  lemma MessagesClose(w: World, w': World, c: Consumer, order: seq<Message>)
    requires Differs(w, w', c, order)
    ensures w'.messages == Close(w, c, order).messages
  {
    assert order == [] ==> order + w.messages[c.queue.name] == w.messages[c.queue.name];
  }

  lemma MembersClose(w: World, w': World, c: Consumer, order: seq<Message>)
    requires Differs(w, w', c, order)
    ensures w'.members == Close(w, c, order).members
  {
    assert c !in w.members[c.queue.name] ==> w'.members[c.queue.name] == w.members[c.queue.name];
  }

  lemma ViewsClose(w: World, w': World, c: Consumer, order: seq<Message>)
    requires Differs(w, w', c, order)
    ensures w'.views == Close(w, c, order).views
  {
  }

  lemma WorldCloses(w: World, w': World, c: Consumer, order: seq<Message>)
    requires Differs(w, w', c, order)
    ensures IsOrder(w, c, order) && w' == Close(w, c, order)
  {
    MessagesClose(w, w', c, order);
    MembersClose(w, w', c, order);
    ViewsClose(w, w', c, order);
  }

  /** Close the consumers `cs` one after another; `orders[i]` is how the messages of `cs[i]` came back. */
  ghost function Closed(w: World, cs: seq<Consumer>, orders: seq<seq<Message>>): World
    requires |cs| == |orders|
  {
    if cs == [] then w
    else Close(Closed(w, cs[..|cs| - 1], orders[..|cs| - 1]), cs[|cs| - 1], orders[|cs| - 1])
  }

  /** Distinct consumers, each returning exactly the messages it held. */
  ghost predicate Closing(w: World, cs: seq<Consumer>, orders: seq<seq<Message>>) {
    && |cs| == |orders|
    && (cs == [] ||
        var n := |cs| - 1;
        && Closing(w, cs[..n], orders[..n])
        && cs[n] !in cs[..n]
        && IsOrder(Closed(w, cs[..n], orders[..n]), cs[n], orders[n]))
  }

  lemma ClosingOneMore(w: World, cs: seq<Consumer>, orders: seq<seq<Message>>, c: Consumer, order: seq<Message>)
    requires Closing(w, cs, orders) && c !in cs && IsOrder(Closed(w, cs, orders), c, order)
    ensures Closing(w, cs + [c], orders + [order])
    ensures Closed(w, cs + [c], orders + [order]) == Close(Closed(w, cs, orders), c, order)
  {
    assert (cs + [c])[..|cs|] == cs && (orders + [order])[..|cs|] == orders;
  }

  lemma ClosingLast(w: World, cs: seq<Consumer>, orders: seq<seq<Message>>)
    requires Closing(w, cs, orders) && cs != []
    ensures var n := |cs| - 1;
            var now := Closed(w, cs[..n], orders[..n]);
            && Closing(w, cs[..n], orders[..n]) && cs[n] !in cs[..n] && IsOrder(now, cs[n], orders[n])
            && Closed(w, cs, orders) == Close(now, cs[n], orders[n])
  {
  }

  lemma LastApart<T>(a: seq<T>, b: seq<T>)
    requires b != []
    ensures a + b[..|b| - 1] + [b[|b| - 1]] == a + b
  {
  }

  lemma {:induction false} ClosingMore(w: World, cs: seq<Consumer>, orders: seq<seq<Message>>,
                                       more: seq<Consumer>, back: seq<seq<Message>>)
    requires Closing(w, cs, orders) && Closing(Closed(w, cs, orders), more, back)
    requires forall c :: c in more ==> c !in cs
    ensures Closing(w, cs + more, orders + back)
    ensures Closed(w, cs + more, orders + back) == Closed(Closed(w, cs, orders), more, back)
    decreases |more|
  {
    if more == [] {
      assert cs + more == cs && orders + back == orders;
    } else {
      var k := |more| - 1;
      ClosingLast(Closed(w, cs, orders), more, back);
      ClosingMore(w, cs, orders, more[..k], back[..k]);
      ClosingOneMore(w, cs + more[..k], orders + back[..k], more[k], back[k]);
      LastApart(cs, more);
      LastApart(orders, back);
    }
  }

  /** The messages that the listed consumers of queue `n` among `cs` held. */
  ghost function Backlog(w: World, cs: seq<Consumer>, n: string): multiset<Message> {
    if cs == [] then multiset{} else
    var c := cs[|cs| - 1];
    Backlog(w, cs[..|cs| - 1], n) + if Listed(w, c) && c.queue.name == n then Held(w, c) else multiset{}
  }

  /** Closing others leaves a consumer as it was. */
  lemma {:induction false} OthersUntouched(w: World, cs: seq<Consumer>, orders: seq<seq<Message>>, c: Consumer)
    requires Closing(w, cs, orders) && c !in cs
    ensures Listed(Closed(w, cs, orders), c) <==> Listed(w, c)
    ensures c in w.views <==> c in Closed(w, cs, orders).views
    ensures c in w.views ==> Closed(w, cs, orders).views[c] == w.views[c]
  {
    if cs != [] {
      OthersUntouched(w, cs[..|cs| - 1], orders[..|cs| - 1], c);
    }
  }

  /** A closed consumer is registered nowhere it was, and holds nothing if it was registered. */
  lemma {:induction false} ClosedConsumer(w: World, cs: seq<Consumer>, orders: seq<seq<Message>>, c: Consumer)
    requires Closing(w, cs, orders) && c in cs
    ensures !Listed(Closed(w, cs, orders), c)
    ensures c in w.views ==> c in Closed(w, cs, orders).views
                             && Closed(w, cs, orders).views[c] == if Listed(w, c) then CS.Drain(w.views[c]) else w.views[c]
  {
    var k := |cs| - 1;
    if c == cs[k] {
      OthersUntouched(w, cs[..k], orders[..k], c);
    } else {
      ClosedConsumer(w, cs[..k], orders[..k], c);
    }
  }

  /** Every queue starts with some arrangement of exactly the messages its closed consumers held,
      followed by its old contents unchanged. */
  lemma {:induction false} ClosedQueue(w: World, cs: seq<Consumer>, orders: seq<seq<Message>>, n: string)
    returns (front: seq<Message>)
    requires Closing(w, cs, orders) && n in w.messages
    ensures n in Closed(w, cs, orders).messages && Closed(w, cs, orders).messages[n] == front + w.messages[n]
    ensures multiset(front) == Backlog(w, cs, n)
  {
    if cs == [] {
      front := [];
    } else {
      var k := |cs| - 1;
      var c := cs[k];
      front := ClosedQueue(w, cs[..k], orders[..k], n);
      OthersUntouched(w, cs[..k], orders[..k], c);
      if Listed(w, c) && c.queue.name == n {
        Associates(orders[k], front, w.messages[n]);
        front := orders[k] + front;
      }
    }
  }

  lemma Associates(a: seq<Message>, b: seq<Message>, c: seq<Message>)
    ensures a + (b + c) == (a + b) + c
    ensures multiset(a + b) == multiset(b) + multiset(a)
  {
  }

  // ---------------------------------------------------------------- what a connection leaves behind

  /** After closing, registered are those that were and are not among the closed. */
  lemma ListedAfter(w: World, cs: seq<Consumer>, orders: seq<seq<Message>>, c: Consumer)
    requires Closing(w, cs, orders)
    ensures Listed(Closed(w, cs, orders), c) <==> Listed(w, c) && c !in cs
  {
    if c in cs {
      ClosedConsumer(w, cs, orders, c);
    } else {
      OthersUntouched(w, cs, orders, c);
    }
  }
}
