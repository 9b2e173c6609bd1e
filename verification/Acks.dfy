/** Which message an ack settles. Tags are numbered per queue, and an ack names a tag only, so a channel with
    consumers on several queues can have several messages pending under one tag. */
module Acks {
  import opened Messages
  import opened BrokerObjects
  import opened ChannelObjects
  import CS = ConsumerSpec
  import R = Routing

  /** With this order of the channel's consumer map, an ack may settle the tag at `y`. */
  ghost predicate Settles(ch: Channel, walk: seq<string>, t: Tag, y: Consumer)
    reads ch, ch.consumers.Values, set c | c in ch.consumers.Values :: c.queue, y
  {
    var h := ch.Finder(walk, t);
    h != null && h in ch.consumers.Values && y in h.queue.consumers && t in y.inflightTags
  }

  /** `y` holds the tag and is a consumer of the queue of some consumer of the channel that holds the tag. */
  ghost predicate Candidate(ch: Channel, t: Tag, y: Consumer)
    reads ch, ch.consumers.Values, set c | c in ch.consumers.Values :: c.queue, y
  {
    exists g :: g in ch.consumers && t in ch.consumers[g].inflightTags && y in ch.consumers[g].queue.consumers
                && t in y.inflightTags
  }

  lemma {:induction false} FinderFinds(ch: Channel, walk: seq<string>, t: Tag) returns (g: string)
    requires ch.Finder(walk, t) != null
    ensures g in ch.consumers && ch.consumers[g] == ch.Finder(walk, t) && t in ch.consumers[g].inflightTags
  {
    if walk[0] in ch.consumers && t in ch.consumers[walk[0]].inflightTags {
      g := walk[0];
    } else {
      g := FinderFinds(ch, walk[1..], t);
    }
  }

  lemma Listing(keys: set<string>) returns (s: seq<string>)
    ensures multiset(s) == multiset(keys)
  {
    s := [];
    var left := keys;
    while left != {}
      invariant left <= keys && multiset(s) == multiset(keys - left)
      decreases left
    {
      var g :| g in left;
      assert keys - (left - {g}) == (keys - left) + {g};
      s, left := s + [g], left - {g};
    }
    assert keys - {} == keys;
  }

  /** Every candidate is settled under some order of the map, and nobody else under any. */
  lemma SettledUnderSomeOrder(ch: Channel, t: Tag, y: Consumer)
    ensures Candidate(ch, t, y) <==> exists walk :: ch.Walks(walk) && Settles(ch, walk, t, y)
  {
    if Candidate(ch, t, y) {
      var g :| g in ch.consumers && t in ch.consumers[g].inflightTags && y in ch.consumers[g].queue.consumers;
      var rest := Listing(ch.consumers.Keys - {g});
      var walk := [g] + rest;
      assert multiset(ch.consumers.Keys) == multiset(ch.consumers.Keys - {g}) + multiset{g};
      assert ch.Walks(walk) && ch.Finder(walk, t) == ch.consumers[g];
      assert Settles(ch, walk, t, y);
    }
    if walk :| ch.Walks(walk) && Settles(ch, walk, t, y) {
      var g := FinderFinds(ch, walk, t);
    }
  }

  /** An ack settles nobody but `x`, whatever the order of the map, if and only if nobody but `x` is a candidate. */
  lemma AckExactIff(ch: Channel, t: Tag, x: Consumer)
    ensures (forall walk, y :: ch.Walks(walk) && Settles(ch, walk, t, y) ==> y == x)
            <==> (forall y :: Candidate(ch, t, y) ==> y == x)
  {
    if forall y :: Candidate(ch, t, y) ==> y == x {
      forall walk, y | ch.Walks(walk) && Settles(ch, walk, t, y) ensures y == x {
        SettledUnderSomeOrder(ch, t, y);
      }
    }
    if forall walk, y :: ch.Walks(walk) && Settles(ch, walk, t, y) ==> y == x {
      forall y | Candidate(ch, t, y) ensures y == x {
        SettledUnderSomeOrder(ch, t, y);
      }
    }
  }

  /** The consumers of the channel are registered with their queues. */
  ghost predicate AllRegistered(ch: Channel)
    reads ch, set c | c in ch.consumers.Values :: c.queue
  {
    forall g :: g in ch.consumers ==> ch.consumers[g] in ch.consumers[g].queue.consumers
  }

  /** An ack of a tag that nobody but `x` can be settled for: `x` alone is settled, if anybody is. */
  method AckOnly(ch: Channel, t: Tag, walk: seq<string>, ghost x: Consumer)
    requires Sound(ch.broker, ch.consumers.Values) && ch.Walks(walk)
    requires forall y :: Candidate(ch, t, y) ==> y == x
    modifies set g, c | g in ch.consumers && c in ch.consumers[g].queue.consumers :: c
    ensures forall g, y :: g in ch.consumers && y in ch.consumers[g].queue.consumers && y != x ==> y.View() == old(y.View())
    ensures old(AllRegistered(ch) && Candidate(ch, t, x)) ==> x.View() == CS.Settle(old(x.View()), t)
  {
    AckExactIff(ch, t, x);
    ghost var who := ch.Finder(walk, t);
    if who != null {
      ghost var g := FinderFinds(ch, walk, t);
      assert AllRegistered(ch) ==> Candidate(ch, t, who);
    }
    var holder, hit := ch.HandleAck(t, walk);
    assert hit != null ==> old(Settles(ch, walk, t, hit));
    forall g, y | g in ch.consumers && y in ch.consumers[g].queue.consumers && y != x ensures y.View() == old(y.View()) {
      assert ch.consumers[g] in ch.consumers.Values && old(Belongs(ch.broker, ch.consumers[g]));
      assert ch.consumers[g].queue in ch.broker.queues.Values;
    }
  }

  // ---------------------------------------------------------------- the wrong queue's message

  ghost predicate Idle(q: Queue, c: Consumer)
    reads q, c
  {
    q.Valid() && q.messages == [] && q.nextTag == 1 && q.consumers == {c} && c.View() == CS.Fresh()
  }

  /** A message is published to an idle queue and handed to its only consumer. */
  method Deliver(q: Queue, c: Consumer)
    requires Idle(q, c)
    modifies q`messages, q`nextTag, q`nextId, c
    ensures q.Valid() && c.inflightTags == {1} == c.pendingMessages.Keys && CS.Booked(c.View())
  {
    var t := q.AllocateTag();
    var m := Message(q.nextId - 1, t, [], "", "");
    q.Enqueue(m);
    assert q.messages == [m] && c in q.consumers && CS.Free(c.View());
    var msg, taker := q.Dispatch();
    assert ([msg] + q.messages)[0] == m;
    assert c.View() == CS.Mark(CS.Fresh(), m);
    assert c.pendingMessages == map[t := m];
  }

  ghost predicate Quiet(b: Broker, n: string, members: set<Consumer>)
    reads b, b.queues.Values
  {
    && n in b.queues && b.queues[n].name == n && b.queues[n].Valid()
    && b.queues[n].messages == [] && b.queues[n].nextTag == 1 && b.queues[n].consumers == members
  }

  method TwoQueues() returns (b: Broker)
    ensures fresh(b) && fresh(b.queues.Values) && b.QueuesOk() && Quiet(b, "a", {}) && Quiet(b, "b", {})
  {
    b := new Broker();
    ghost var p := R.Plain(map[], {}, {});
    b.DeclareQueue("a", "", "", p);
    p := R.Step(p, R.DeclareQueue("a", "", ""));
    assert Quiet(b, "a", {}) by {
      assert b.queues["a"].View() == p.queues["a"];
    }
    b.DeclareQueue("b", "", "", p);
    p := R.Step(p, R.DeclareQueue("b", "", ""));
    assert b.queues["b"].View() == p.queues["b"];
  }

  /** Subscribe on a queue without consumers. */
  method Subscribe(ch: Channel, tag: string, n: string) returns (c: Consumer)
    requires Sound(ch.broker, {}) && Quiet(ch.broker, n, {}) && tag != "" && tag !in ch.consumers
    modifies ch`consumers, ch.broker.queues.Values`consumers
    ensures ch.broker.QueuesOk() && fresh(c) && Quiet(ch.broker, n, {c}) && c.queue == ch.broker.queues[n]
    ensures c.View() == CS.Fresh() && ch.consumers == old(ch.consumers)[tag := c]
    ensures forall k :: k in ch.broker.queues && k != n ==> ch.broker.queues[k].consumers == old(ch.broker.queues[k].consumers)
  {
    ghost var w := WorldOf(ch.broker, {});
    var r, _ := ch.RegisterConsumer(tag, n, {});
    c := ch.consumers[tag];
    assert WorldOf(ch.broker, {}).members == Enlist(w, c).members;
    forall k | k in ch.broker.queues
      ensures ch.broker.queues[k].consumers == if k == n then {c} else w.members[k]
    {
      assert WorldOf(ch.broker, {}).members[k] == ch.broker.queues[k].consumers;
    }
  }

  /** One channel with one consumer on each of two queues. */
  method TwoConsumers() returns (ch: Channel, x: Consumer, y: Consumer)
    ensures fresh(ch) && fresh(ch.broker.queues.Values) && fresh(x) && fresh(y) && ch.broker.QueuesOk()
    ensures ch.consumers == map["x" := x, "y" := y]
    ensures Quiet(ch.broker, "a", {x}) && Quiet(ch.broker, "b", {y})
    ensures x.queue == ch.broker.queues["a"] && y.queue == ch.broker.queues["b"]
    ensures x.View() == y.View() == CS.Fresh()
  {
    var b := TwoQueues();
    ch := new Channel(1, b);
    x := Subscribe(ch, "x", "a");
    y := Subscribe(ch, "y", "b");
  }

  /** Two queues, one channel, one consumer each, and both first deliveries carry tag 1: an ack of tag 1 settles the
      message of whichever consumer the map happens to yield first. */
  method AckDependsOnOrder(walk: seq<string>) returns (x: Consumer, y: Consumer)
    requires walk == ["x", "y"] || walk == ["y", "x"]
    ensures x.queue.name == "a" && y.queue.name == "b"
    ensures 1 in x.pendingMessages <==> walk[0] == "y"
    ensures 1 in y.pendingMessages <==> walk[0] == "x"
  {
    var ch;
    ch, x, y := TwoConsumers();
    Deliver(x.queue, x);
    Deliver(y.queue, y);
    AckFirst(ch, x, y, walk);
  }

  method AckFirst(ch: Channel, x: Consumer, y: Consumer, walk: seq<string>)
    requires walk == ["x", "y"] || walk == ["y", "x"]
    requires ch.consumers == map["x" := x, "y" := y] && Sound(ch.broker, {x, y})
    requires x.queue.consumers == {x} && y.queue.consumers == {y} && x != y
    requires x.inflightTags == x.pendingMessages.Keys == y.inflightTags == y.pendingMessages.Keys == {1}
    modifies x, y
    ensures 1 in x.pendingMessages <==> walk[0] == "y"
    ensures 1 in y.pendingMessages <==> walk[0] == "x"
  {
    assert ch.consumers["x"] == x && ch.consumers["y"] == y;
    assert ch.consumers.Values == {x, y};
    assert ch.Walks(walk);
    ghost var first := ch.consumers[walk[0]];
    assert ch.Finder(walk, 1) == first;
    var holder, hit := ch.HandleAck(1, walk);
    assert hit == first;
  }
}
