/** The life of a connection: channels opened, consumers made, channels closed, and what is left behind at the end. */
module Sessions {
  import opened Messages
  import opened Naming
  import opened BrokerObjects
  import opened ChannelObjects
  import R = Routing

  datatype Op =
    | Open(id: nat)
    | Consume(id: nat, tag: string, queue: string)
    | CloseChannel(id: nat)

  /** The consumer tags in use on each open channel. */
  type Tags = map<nat, set<string>>

  function Step(queues: set<string>, t: Tags, op: Op): Tags {
    match op
    case Open(id) => t[id := {}]
    case Consume(id, tag, queue) =>
      if id in t && queue in queues && ConsumerTag(id, |t[id]|, tag) !in t[id]
      then t[id := t[id] + {ConsumerTag(id, |t[id]|, tag)}] else t
    case CloseChannel(id) => t - {id}
  }

  function After(queues: set<string>, ops: seq<Op>): Tags {
    if ops == [] then map[] else Step(queues, After(queues, ops[..|ops| - 1]), ops[|ops| - 1])
  }

  /** The operation opens an id under which a channel with consumers is open. */
  predicate Hits(t: Tags, op: Op) {
    op.Open? && op.id in t && t[op.id] != {}
  }

  ghost predicate HitsAt(queues: set<string>, ops: seq<Op>, i: nat)
    requires i < |ops|
  {
    Hits(After(queues, ops[..i]), ops[i])
  }

  /** Some open of the session hits an id whose channel still has consumers. */
  ghost predicate Reopens(queues: set<string>, ops: seq<Op>) {
    exists i :: 0 <= i < |ops| && HitsAt(queues, ops, i)
  }

  lemma HitsAtPrefix(queues: set<string>, ops: seq<Op>, n: nat, i: nat)
    requires i < n <= |ops|
    ensures HitsAt(queues, ops[..n], i) <==> HitsAt(queues, ops, i)
  {
    assert ops[..n][..i] == ops[..i];
  }

  lemma ReopensStep(queues: set<string>, ops: seq<Op>)
    requires ops != []
    ensures Reopens(queues, ops) <==> Reopens(queues, ops[..|ops| - 1]) || HitsAt(queues, ops, |ops| - 1)
  {
    var n := |ops| - 1;
    forall i | 0 <= i < n ensures HitsAt(queues, ops[..n], i) <==> HitsAt(queues, ops, i) {
      HitsAtPrefix(queues, ops, n, i);
    }
  }

  /** `t` are the tags of the table. */
  ghost predicate Tagged(table: Table, t: Tags) {
    table.Keys == t.Keys && forall i :: i in table ==> table[i].Keys == t[i]
  }

  // ---------------------------------------------------------------- generated tags

  /** No client names its consumers on channel `id`. */
  ghost predicate Unnamed(ops: seq<Op>, id: nat) {
    forall i :: 0 <= i < |ops| && ops[i].Consume? && ops[i].id == id ==> ops[i].tag == ""
  }

  /** The tags are those generated on channel `id` for 1, 2, .., n. */
  ghost predicate Generated(tags: set<string>, id: nat) {
    forall g :: g in tags <==> exists k: nat :: k < |tags| && g == ConsumerTag(id, k, "")
  }

  lemma NextIsNew(tags: set<string>, id: nat)
    requires Generated(tags, id)
    ensures ConsumerTag(id, |tags|, "") !in tags
    ensures Generated(tags + {ConsumerTag(id, |tags|, "")}, id)
  {
    var n := |tags|;
    forall k: nat | k < n ensures ConsumerTag(id, k, "") != ConsumerTag(id, n, "") {
      GeneratedTagsDiffer(id, k, id, n);
    }
    var more := tags + {ConsumerTag(id, n, "")};
    assert |more| == n + 1;
    forall g ensures g in more <==> exists k: nat :: k < n + 1 && g == ConsumerTag(id, k, "") {
      if g in tags {
        var k: nat :| k < n && g == ConsumerTag(id, k, "");
      }
    }
  }

  ghost predicate Numbered(t: Tags, id: nat) {
    id in t ==> Generated(t[id], id)
  }

  lemma NumberedStep(queues: set<string>, t: Tags, op: Op, id: nat)
    requires Numbered(t, id) && (op.Consume? && op.id == id ==> op.tag == "")
    ensures Numbered(Step(queues, t, op), id)
  {
    if id in t {
      NextIsNew(t[id], id);
    }
  }

  lemma {:induction false} StaysNumbered(queues: set<string>, ops: seq<Op>, id: nat)
    requires Unnamed(ops, id)
    ensures Numbered(After(queues, ops), id)
  {
    if ops != [] {
      StaysNumbered(queues, ops[..|ops| - 1], id);
      NumberedStep(queues, After(queues, ops[..|ops| - 1]), ops[|ops| - 1], id);
    }
  }

  /** On a channel on which no client names its consumers, a subscription to an existing queue is never refused. */
  lemma UnnamedNeverRefused(queues: set<string>, ops: seq<Op>, id: nat, queue: string)
    requires Unnamed(ops, id) && id in After(queues, ops) && queue in queues
    ensures var t := After(queues, ops);
            Step(queues, t, Consume(id, "", queue)) == t[id := t[id] + {ConsumerTag(id, |t[id]|, "")}]
            && |Step(queues, t, Consume(id, "", queue))[id]| == |t[id]| + 1
  {
    StaysNumbered(queues, ops, id);
    NextIsNew(After(queues, ops)[id], id);
  }

  // ---------------------------------------------------------------- who is registered, on values

  /** Registered are exactly the consumers in the table and the lost ones. */
  ghost predicate Tracked(w: World, made: set<Consumer>, table: Table, lost: set<Consumer>) {
    && GoodTable(table, made) && lost <= made && lost !! Union(table)
    && forall c :: c in made ==> (Listed(w, c) <==> c in Union(table) || c in lost)
  }

  lemma InUnion(table: Table, i: nat, c: Consumer)
    requires i in table && c in table[i].Values
    ensures c in Union(table)
  {
    var g :| g in table[i] && table[i][g] == c;
  }

  lemma RowInUnion(table: Table, id: nat)
    ensures Row(table, id) <= Union(table)
  {
    forall c | c in Row(table, id) ensures c in Union(table) {
      InUnion(table, id, c);
    }
  }

  /** Without a row, the table has the consumers of the other rows. */
  lemma UnionWithout(table: Table, made: set<Consumer>, id: nat, t': Table)
    requires GoodTable(table, made) && (t' == table - {id} || t' == table[id := map[]])
    ensures GoodTable(t', made) && Union(t') == Union(table) - Row(table, id)
  {
    forall c | c in Union(t') ensures c in Union(table) && c !in Row(table, id) {
      var i, g :| i in t' && g in t'[i] && t'[i][g] == c;
      assert table[i][g] == c;
      assert id in table ==> forall h :: h in table[id] ==> table[id][h] != c;
    }
    forall c | c in Union(table) && c !in Row(table, id) ensures c in Union(t') {
      var i, g :| i in table && g in table[i] && table[i][g] == c;
      assert i != id ==> t'[i][g] == c;
    }
  }

  lemma UnionPut(table: Table, made: set<Consumer>, id: nat, c: Consumer)
    requires GoodTable(table, made) && id in table && c.tag !in table[id]
    ensures Union(Put(table, id, c)) == Union(table) + {c}
  {
    var t' := Put(table, id, c);
    forall x | x in Union(t') ensures x in Union(table) || x == c {
      var i, g :| i in t' && g in t'[i] && t'[i][g] == x;
      assert x != c ==> g in table[i] && table[i][g] == x;
    }
    assert c in t'[id].Values by {
      assert t'[id][c.tag] == c;
    }
    InUnion(t', id, c);
    forall x | x in Union(table) ensures x in Union(t') {
      var i, g :| i in table && g in table[i] && table[i][g] == x;
      assert t'[i][g] == x;
    }
  }

  lemma OpenTracked(w: World, made: set<Consumer>, table: Table, lost: set<Consumer>, id: nat)
    requires Tracked(w, made, table, lost)
    ensures Tracked(w, made, table[id := map[]], lost + Row(table, id))
  {
    UnionWithout(table, made, id, table[id := map[]]);
    RowInUnion(table, id);
    UnionMade(table, made);
  }

  lemma UnionMade(table: Table, made: set<Consumer>)
    requires GoodTable(table, made)
    ensures Union(table) <= made
  {
  }

  lemma JoinTracked(w: World, made: set<Consumer>, table: Table, lost: set<Consumer>, id: nat, c: Consumer)
    requires Tracked(w, made, table, lost) && c !in made && id in table && c.tag !in table[id] && c.queue.name in w.members
    ensures Tracked(Join(w, c), made + {c}, Put(table, id, c), lost)
  {
    PutKeeps(table, made, id, c);
    UnionPut(table, made, id, c);
  }

  lemma CloseTracked(w: World, made: set<Consumer>, table: Table, lost: set<Consumer>, id: nat,
                     cs: seq<Consumer>, orders: seq<seq<Message>>)
    requires Tracked(w, made, table, lost) && Closing(w, cs, orders) && Members(cs) == Row(table, id)
    ensures Tracked(Closed(w, cs, orders), made, table - {id}, lost)
  {
    UnionWithout(table, made, id, table - {id});
    RowInUnion(table, id);
    forall c | c in made ensures Listed(Closed(w, cs, orders), c) <==> Listed(w, c) && c !in Row(table, id) {
      ListedAfter(w, cs, orders, c);
      assert c in cs <==> c in Members(cs);
    }
  }

  /** Cleaning up leaves registered exactly the lost consumers. */
  lemma SweepTracked(w: World, made: set<Consumer>, table: Table, lost: set<Consumer>, cs: seq<Consumer>, orders: seq<seq<Message>>)
    requires Tracked(w, made, table, lost) && Closing(w, cs, orders) && Members(cs) == Union(table)
    ensures forall c :: c in made ==> (Listed(Closed(w, cs, orders), c) <==> c in lost)
  {
    forall c | c in made ensures Listed(Closed(w, cs, orders), c) <==> c in lost {
      ListedAfter(w, cs, orders, c);
      assert c in cs <==> c in Members(cs);
    }
  }

  // ---------------------------------------------------------------- running a session

  /** Where a session stands: the tags in use, and the consumers registered but out of the table's reach. */
  ghost predicate At(conn: Connection, t: Tags, lost: set<Consumer>)
    reads conn, conn.broker, conn.broker.queues.Values, conn.channels.Values, conn.made
  {
    conn.Valid() && Tagged(conn.table, t) && Tracked(conn.World(), conn.made, conn.table, lost)
  }

  method DoOpen(conn: Connection, id: nat, ghost t: Tags, ghost lost: set<Consumer>) returns (ghost lost': set<Consumer>)
    requires At(conn, t, lost)
    modifies conn`channels, conn`table
    ensures At(conn, t[id := {}], lost')
    ensures forall x :: x in conn.channels.Values && x !in old(conn.channels.Values) ==> fresh(x)
    ensures lost' == {} <==> lost == {} && !Hits(t, Open(id))
  {
    ghost var table := conn.table;
    lost' := lost + Row(table, id);
    OpenTracked(conn.World(), conn.made, table, lost, id);
    EmptyRow(table, t, id);
    OpenTags(table, t, id);
    conn.ChannelOpen(id);
  }

  lemma OpenTags(table: Table, t: Tags, id: nat)
    requires Tagged(table, t)
    ensures Tagged(table[id := map[]], t[id := {}])
  {
  }

  lemma EmptyRow(table: Table, t: Tags, id: nat)
    requires Tagged(table, t)
    ensures Row(table, id) == {} <==> !Hits(t, Open(id))
  {
    if id in table && t[id] != {} {
      var g :| g in table[id];
      assert table[id][g] in table[id].Values;
    }
  }

  method DoConsume(conn: Connection, id: nat, tag: string, queue: string, ghost t: Tags, ghost lost: set<Consumer>)
    requires At(conn, t, lost)
    modifies conn`made, conn`table, conn.channels.Values, conn.broker.queues.Values`consumers
    ensures At(conn, Step(conn.broker.queues.Keys, t, Consume(id, tag, queue)), lost)
    ensures forall x :: x in conn.made && x !in old(conn.made) ==> fresh(x)
  {
    ghost var w, made, table := conn.World(), conn.made, conn.table;
    var r, c := conn.Consume(id, tag, queue);
    if r.Ok? {
      JoinTracked(w, made, table, lost, id, c.value);
      PutTags(table, t, id, c.value);
    }
  }

  lemma PutTags(table: Table, t: Tags, id: nat, c: Consumer)
    requires Tagged(table, t) && id in table
    ensures Tagged(Put(table, id, c), t[id := t[id] + {c.tag}])
  {
    assert table[id][c.tag := c].Keys == table[id].Keys + {c.tag};
  }

  method DoClose(conn: Connection, id: nat, ghost t: Tags, ghost lost: set<Consumer>)
    requires At(conn, t, lost)
    modifies conn`channels, conn`table, Row(conn.table, id)
    modifies conn.broker.queues.Values`messages, conn.broker.queues.Values`consumers
    ensures At(conn, t - {id}, lost) && conn.channels == old(conn.channels) - {id}
  {
    ghost var w, made, table := conn.World(), conn.made, conn.table;
    ghost var cs, orders := conn.ChannelClose(id);
    CloseTracked(w, made, table, lost, id, cs, orders);
  }

  /** One operation. */
  method Do(conn: Connection, op: Op, ghost t: Tags, ghost lost: set<Consumer>) returns (ghost lost': set<Consumer>)
    requires At(conn, t, lost)
    modifies conn, conn.channels.Values, conn.made
    modifies conn.broker.queues.Values`messages, conn.broker.queues.Values`consumers
    ensures At(conn, Step(conn.broker.queues.Keys, t, op), lost')
    ensures forall x :: x in conn.made && x !in old(conn.made) ==> fresh(x)
    ensures forall x :: x in conn.channels.Values && x !in old(conn.channels.Values) ==> fresh(x)
    ensures lost' == {} <==> lost == {} && !Hits(t, op)
  {
    lost' := lost;
    match op {
      case Open(id) => lost' := DoOpen(conn, id, t, lost);
      case Consume(id, tag, queue) => DoConsume(conn, id, tag, queue, t, lost);
      case CloseChannel(id) =>
        RowInUnion(conn.table, id);
        UnionMade(conn.table, conn.made);
        DoClose(conn, id, t, lost);
    }
  }

  method Begin(b: Broker) returns (conn: Connection)
    requires b.QueuesOk()
    ensures fresh(conn) && conn.broker == b && conn.made == {} && conn.channels == map[] && At(conn, map[], {})
  {
    conn := new Connection(b);
  }

  method Play(conn: Connection, ops: seq<Op>) returns (ghost lost: set<Consumer>)
    requires At(conn, map[], {})
    modifies conn, conn.channels.Values, conn.made
    modifies conn.broker.queues.Values`messages, conn.broker.queues.Values`consumers
    ensures At(conn, After(conn.broker.queues.Keys, ops), lost)
    ensures forall x :: x in conn.made && x !in old(conn.made) ==> fresh(x)
    ensures forall x :: x in conn.channels.Values && x !in old(conn.channels.Values) ==> fresh(x)
    ensures lost == {} <==> !Reopens(conn.broker.queues.Keys, ops)
  {
    lost := {};
    if ops != [] {
      var n := |ops| - 1;
      ReopensStep(conn.broker.queues.Keys, ops);
      lost := Play(conn, ops[..n]);
      lost := Do(conn, ops[n], After(conn.broker.queues.Keys, ops[..n]), lost);
    }
  }

  /** Any sequence of opens, subscriptions and closes on one connection, followed by its end, leaves none of the
      consumers it made registered if and only if no open hit an id whose channel still had consumers. */
  method Session(b: Broker, ops: seq<Op>) returns (conn: Connection)
    requires b.QueuesOk()
    modifies b.queues.Values`messages, b.queues.Values`consumers
    ensures conn.broker == b && Sound(b, conn.made)
    ensures (forall c :: c in conn.made ==> c !in c.queue.consumers) <==> !Reopens(b.queues.Keys, ops)
  {
    conn := Begin(b);
    ghost var lost := Play(conn, ops);
    Finish(conn, lost);
  }

  /** The end of the connection: registered are exactly the lost consumers. */
  method Finish(conn: Connection, ghost lost: set<Consumer>)
    requires conn.Valid() && Tracked(conn.World(), conn.made, conn.table, lost)
    modifies conn.made, conn.broker.queues.Values`messages, conn.broker.queues.Values`consumers
    ensures Sound(conn.broker, conn.made) && lost <= conn.made
    ensures forall c :: c in conn.made ==> (c in c.queue.consumers <==> c in lost)
  {
    ghost var w := conn.World();
    UnionMade(conn.table, conn.made);
    ghost var cs, orders := conn.Cleanup();
    SweepTracked(w, conn.made, conn.table, lost, cs, orders);
    forall c | c in conn.made ensures c in c.queue.consumers <==> c in lost {
      assert Listed(conn.World(), c) <==> c in c.queue.consumers;
    }
  }

  /** The leak in the small: open, subscribe, open the same id again, end the connection; a consumer is still
      registered. */
  method ReopenLeaks() returns (conn: Connection)
    ensures exists c :: c in conn.made && c in c.queue.consumers
  {
    var b := new Broker();
    b.DeclareQueue("q", "", "", R.Plain(map[], {}, {}));
    var ops := [Open(1), Consume(1, "c", "q"), Open(1)];
    SecondOpenHits(b.queues.Keys, ops);
    conn := Session(b, ops);
  }

  lemma SecondOpenHits(queues: set<string>, ops: seq<Op>)
    requires "q" in queues && ops == [Open(1), Consume(1, "c", "q"), Open(1)]
    ensures Reopens(queues, ops)
  {
    assert ops[..2][..1] == [Open(1)] && [Open(1)][..0] == [];
    assert After(queues, [Open(1)]) == map[1 := {}];
    assert After(queues, ops[..2]) == map[1 := {"c"}];
    assert HitsAt(queues, ops, 2);
  }
}
