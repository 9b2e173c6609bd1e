/** The broker's objects and the code that updates them in place.

    Consumers, queues, exchanges, channels and connections are heap objects, as in the program. A
    method is one call of the corresponding Go method with its locks held; what it does to a
    consumer is tied to the value functions `Mark`, `Settle` and `Drain` that the steps of
    `QueueProtocol` are made of. Go's map iteration order is left open. */
module BrokerObjects {
  import opened Outcomes
  import opened Messages
  import CS = ConsumerSpec
  import R = Routing

  class Consumer {
    const tag: string
    const queue: Queue
    const prefetch: int
    var inflight: int
    var inflightTags: set<Tag>
    var pendingMessages: map<Tag, Message>

    constructor (tag: string, queue: Queue)
      ensures this.tag == tag && this.queue == queue && View() == CS.Fresh()
    {
      this.tag, this.queue := tag, queue;
      prefetch, inflight, inflightTags, pendingMessages := CS.PREFETCH, 0, {}, map[];
    }

    function View(): CS.Consumer
      reads this
    {
      CS.Consumer(prefetch, inflight, inflightTags, pendingMessages)
    }

    method MarkPending(m: Message)
      modifies this
      ensures View() == CS.Mark(old(View()), m)
    {
      inflight := inflight + 1;
      inflightTags := inflightTags + {m.tag};
      pendingMessages := pendingMessages[m.tag := m];
    }

    method SettleTag(t: Tag)
      modifies this`inflight, this`inflightTags, this`pendingMessages
      ensures View() == CS.Settle(old(View()), t)
    {
      inflightTags := inflightTags - {t};
      pendingMessages := pendingMessages - {t};
      inflight := inflight - 1;
    }
  }

  class Queue {
    const name: string
    const dlx: string
    const dlxRoutingKey: string
    var messages: seq<Message>
    var consumers: set<Consumer>
    var nextTag: Tag
    var nextId: nat     // history: how many copies were minted

    predicate Valid()
      reads this
    {
      nextTag == TagOf(nextId) && forall c :: c in consumers ==> c.queue == this
    }

    ghost function View(): R.QueueView
      reads this
    {
      R.QueueView(messages, nextId, dlx, dlxRoutingKey)
    }

    constructor (name: string, dlx: string, dlxRoutingKey: string)
      ensures this.name == name && this.dlx == dlx && this.dlxRoutingKey == dlxRoutingKey
      ensures Valid() && nextTag == 1 && nextId == 0 && messages == [] && consumers == {}
    {
      this.name, this.dlx, this.dlxRoutingKey := name, dlx, dlxRoutingKey;
      messages, consumers, nextTag, nextId := [], {}, 1, 0;
    }

    method RegisterConsumer(c: Consumer)
      requires Valid() && c.queue == this
      modifies this`consumers
      ensures Valid() && consumers == old(consumers) + {c}
    {
      consumers := consumers + {c};
    }

    /** One pending message goes back to the front of the queue. */
    method PutBack(c: Consumer, msg: Message)
      modifies this`messages, c
      ensures messages == [msg] + old(messages)
      ensures c.View() == old(c.View()).(inflight := old(c.inflight) - 1, tags := old(c.inflightTags) - {msg.tag})
    {
      messages := [msg] + messages;
      c.inflightTags := c.inflightTags - {msg.tag};
      c.inflight := c.inflight - 1;
    }

    /** One round of the loop below. */
    method ReturnNext(c: Consumer, t: Tag, ghost was: CS.Consumer, ghost left: set<Tag>, ghost order: seq<Message>,
                      ghost back: seq<Message>)
      returns (ghost order': seq<Message>)
      requires CS.Booked(was) && t in left && Midway(was, left, order, c.View()) && messages == order + back
      modifies this`messages, c
      ensures Midway(was, left - {t}, order', c.View()) && messages == order' + back
    {
      MidwayStep(was, left, order, c.View(), t);
      var msg := c.pendingMessages[t];
      PrependAssociates(msg, order, back);
      PutBack(c, msg);
      order' := [msg] + order;
    }

    /** The loop over a consumer's pending messages, in whatever order the map yields them. */
    method ReturnPending(c: Consumer) returns (ghost order: seq<Message>)
      requires CS.Booked(c.View())
      modifies this`messages, c
      ensures messages == order + old(messages)
      ensures multiset(order) == CS.Pend(old(c.View())) && c.View() == CS.Drain(old(c.View()))
    {
      order := [];
      ghost var was := c.View();
      var left := c.pendingMessages.Keys;
      MidwayStart(was);
      while left != {}
        invariant messages == order + old(messages)
        invariant Midway(was, left, order, c.View())
        decreases left
      {
        var t :| t in left;
        order := ReturnNext(c, t, was, left, order, old(messages));
        left := left - {t};
      }
      MidwayEnd(was, order, c.View());
      c.pendingMessages := map[];
    }

    /** Every pending message goes back ahead of the old contents, in the order the map yields them. */
    method UnregisterConsumer(c: Consumer) returns (ghost order: seq<Message>)
      requires CS.Booked(c.View())
      modifies this`messages, this`consumers, c
      ensures messages == order + old(messages)
      ensures consumers == old(consumers) - {c}
      ensures c !in old(consumers) ==> order == [] && c.View() == old(c.View())
      ensures c in old(consumers) ==> multiset(order) == CS.Pend(old(c.View())) && c.View() == CS.Drain(old(c.View()))
    {
      order := [];
      if c !in consumers {
        return;
      }
      consumers := consumers - {c};
      order := ReturnPending(c);
    }

    method SelectConsumer() returns (c: Consumer?)
      ensures c != null ==> c in consumers && CS.Free(c.View())
      ensures c == null ==> forall x :: x in consumers ==> !CS.Free(x.View())
    {
      var left := consumers;
      while left != {}
        invariant left <= consumers
        invariant forall x :: x in consumers - left ==> !CS.Free(x.View())
        decreases |left|
      {
        c :| c in left;
        if c.inflight < c.prefetch {
          return c;
        }
        left := left - {c};
      }
      c := null;
    }

    /** The locked part of one dispatcher round: nothing to send, or the head is marked pending at a
        consumer that has room. */
    method Dispatch() returns (msg: Message, c: Consumer?)
      modifies this`messages, consumers
      ensures c == null ==> messages == old(messages) && forall x :: x in consumers ==> x.View() == old(x.View())
      ensures c == null <==> old(messages) == [] || forall x :: x in consumers ==> !old(CS.Free(x.View()))
      ensures c != null ==>
                && c in consumers && old(CS.Free(c.View())) && old(messages) == [msg] + messages
                && c.View() == CS.Mark(old(c.View()), msg)
                && forall x :: x in consumers && x != c ==> x.View() == old(x.View())
    {
      msg := Message(0, 0, [], "", "");
      c := null;
      if |messages| == 0 {
        return;
      }
      c := SelectConsumer();
      if c == null {
        return;
      }
      msg := messages[0];
      messages := messages[1..];
      c.MarkPending(msg);
    }

    /** The locked part after a failed write. */
    method Requeue(msg: Message, c: Consumer)
      modifies this`messages, c
      ensures messages == [msg] + old(messages)
      ensures c.View() == CS.Settle(old(c.View()), msg.tag)
    {
      messages := [msg] + messages;
      c.SettleTag(msg.tag);
    }

    /** Take the next tag, wrapping at sixteen bits. */
    method AllocateTag() returns (t: Tag)
      requires Valid()
      modifies this`nextTag, this`nextId
      ensures Valid() && t == old(nextTag) == TagOf(old(nextId)) && nextId == old(nextId) + 1
    {
      t := nextTag;
      nextTag := (nextTag + 1) % TAG_SPACE;
      nextId := nextId + 1;
    }

    method Enqueue(m: Message)
      modifies this`messages
      ensures messages == old(messages) + [m]
    {
      messages := messages + [m];
    }

    /** The locked part of an ack: settle the tag at some consumer of the queue that holds it. */
    method AckTag(t: Tag) returns (hit: Consumer?)
      modifies consumers
      ensures hit == null <==> forall x :: x in consumers ==> t !in old(x.inflightTags)
      ensures hit != null ==> hit in consumers && t in old(hit.inflightTags) && hit.View() == CS.Settle(old(hit.View()), t)
      ensures forall x :: x in consumers && x != hit ==> x.View() == old(x.View())
    {
      var left := consumers;
      while left != {}
        invariant left <= consumers
        invariant forall x :: x in consumers - left ==> t !in x.inflightTags
        invariant forall x :: x in consumers ==> x.View() == old(x.View())
        decreases |left|
      {
        hit :| hit in left;
        if t in hit.inflightTags {
          hit.SettleTag(t);
          return;
        }
        left := left - {hit};
      }
      hit := null;
    }
  }

  class Exchange {
    const name: string
    var bindings: map<string, map<string, Queue>>

    constructor (name: string)
      ensures this.name == name && bindings == map[]
    {
      this.name, bindings := name, map[];
    }

    /** Queues are filed under their own names. */
    predicate Valid()
      reads this
    {
      forall k, n :: k in bindings && n in bindings[k] ==> bindings[k][n].name == n
    }

    ghost predicate Routes(key: string, n: string)
      reads this
    {
      key in bindings && n in bindings[key]
    }

    method Bind(q: Queue, key: string)
      requires Valid()
      modifies this
      ensures Valid()
      ensures forall k, n :: Routes(k, n) <==> old(Routes(k, n)) || (k, n) == (key, q.name)
      ensures Routes(key, q.name) && bindings[key][q.name] == q
      ensures forall k, n :: old(Routes(k, n)) && (k, n) != (key, q.name) ==> Routes(k, n) && bindings[k][n] == old(bindings[k][n])
    {
      if key !in bindings {
        bindings := bindings[key := map[]];
      }
      bindings := bindings[key := bindings[key][q.name := q]];
    }

    /** The queues bound under exactly this key, each once. */
    method GetQueues(key: string) returns (qs: seq<Queue>)
      requires Valid()
      ensures forall i :: 0 <= i < |qs| ==> Routes(key, qs[i].name) && bindings[key][qs[i].name] == qs[i]
      ensures forall n :: Routes(key, n) ==> bindings[key][n] in qs
      ensures forall i, j :: 0 <= i < j < |qs| ==> qs[i] != qs[j]
    {
      qs := [];
      var keys := bindings.Keys;
      while keys != {}
        invariant keys <= bindings.Keys
        invariant key in keys ==> qs == []
        invariant forall i :: 0 <= i < |qs| ==> Routes(key, qs[i].name) && bindings[key][qs[i].name] == qs[i]
        invariant key !in keys ==> forall n :: Routes(key, n) ==> bindings[key][n] in qs
        invariant forall i, j :: 0 <= i < j < |qs| ==> qs[i] != qs[j]
        decreases keys
      {
        var rk :| rk in keys;
        keys := keys - {rk};
        if rk == key {
          var names := bindings[rk].Keys;
          while names != {}
            invariant names <= bindings[key].Keys
            invariant forall i :: 0 <= i < |qs| ==>
                        Routes(key, qs[i].name) && bindings[key][qs[i].name] == qs[i] && qs[i].name !in names
            invariant forall n :: Routes(key, n) && n !in names ==> bindings[key][n] in qs
            invariant forall i, j :: 0 <= i < j < |qs| ==> qs[i] != qs[j]
            decreases names
          {
            var n :| n in names;
            names := names - {n};
            qs := qs + [bindings[rk][n]];
          }
        }
      }
    }
  }

  class Broker {
    var queues: map<string, Queue>
    var exchanges: map<string, Exchange>

    constructor ()
      ensures Valid() && Shows(R.Plain(map[], {}, {})) && queues == map[] && exchanges == map[]
    {
      queues, exchanges := map[], map[];
    }

    /** Names are keys, and every bound queue is the broker's own queue object of that name. */
    ghost predicate Valid()
      reads this, queues.Values, exchanges.Values
    {
      && QueuesOk()
      && (forall e :: e in exchanges ==> exchanges[e].name == e && exchanges[e].Valid())
      && (forall e, k, n :: e in exchanges && exchanges[e].Routes(k, n) ==>
            n in queues && exchanges[e].bindings[k][n] == queues[n])
    }

    ghost predicate QueuesOk()
      reads this, queues.Values
    {
      forall n :: n in queues ==> queues[n].name == n && queues[n].Valid()
    }

    /** The broker stands where the plain state `p` says. */
    ghost predicate Shows(p: R.Plain)
      reads this, queues.Values, exchanges.Values
    {
      ShowsQueues(p.queues) && ShowsRoutes(p.exchanges, p.bindings)
    }

    ghost predicate ShowsQueues(views: map<string, R.QueueView>)
      reads this, queues.Values
    {
      views.Keys == queues.Keys && forall n :: n in queues ==> views[n] == queues[n].View()
    }

    ghost predicate ShowsRoutes(names: set<string>, bindings: set<(string, string, string)>)
      reads this, exchanges.Values
    {
      && names == exchanges.Keys
      && forall e, k, n :: (e, k, n) in bindings <==> e in exchanges && exchanges[e].Routes(k, n)
    }

    /** Every broker shows one plain state. */
    lemma ShowsOne() returns (p: R.Plain)
      ensures Shows(p) && forall p' :: Shows(p') ==> p' == p
    {
      var views, left := map[], queues.Keys;
      while left != {}
        invariant left <= queues.Keys && views.Keys == queues.Keys - left
        invariant forall n :: n in views ==> views[n] == queues[n].View()
        decreases left
      {
        var n :| n in left;
        views, left := views[n := queues[n].View()], left - {n};
      }
      p := R.Plain(views, exchanges.Keys,
                   set e, k, n | e in exchanges && k in exchanges[e].bindings && n in exchanges[e].bindings[k] :: (e, k, n));
      forall p' | Shows(p') ensures p' == p {
        assert p'.queues == p.queues;
        forall x ensures x in p'.bindings <==> x in p.bindings {
          assert x == (x.0, x.1, x.2);
          assert x in p.bindings <==> x.0 in exchanges && exchanges[x.0].Routes(x.1, x.2);
        }
      }
    }

    method DeclareQueue(name: string, dlx: string, dlxRoutingKey: string, ghost p: R.Plain)
      requires Valid() && Shows(p)
      modifies this`queues
      ensures Valid() && Shows(R.Step(p, R.DeclareQueue(name, dlx, dlxRoutingKey)))
      ensures forall n :: n in old(queues) ==> n in queues && queues[n] == old(queues[n])
      ensures forall q :: q in queues.Values && q !in old(queues.Values) ==> fresh(q)
      ensures name in queues
      ensures name !in old(queues) ==>
                var q := queues[name];
                q.messages == [] && q.consumers == {} && q.dlx == dlx && q.dlxRoutingKey == dlxRoutingKey
    {
      if name !in queues {
        var q := new Queue(name, dlx, dlxRoutingKey);
        queues := queues[name := q];
      }
    }

    method DeclareExchange(name: string, ghost p: R.Plain)
      requires Valid() && Shows(p)
      modifies this`exchanges
      ensures Valid() && Shows(R.Step(p, R.DeclareExchange(name)))
      ensures forall e :: e in exchanges.Values && e !in old(exchanges.Values) ==> fresh(e)
    {
      if name !in exchanges {
        var e := new Exchange(name);
        exchanges := exchanges[name := e];
      }
      assert exchanges.Keys == old(exchanges.Keys) + {name};
    }

    method BindQueue(exchange: string, queue: string, key: string, ghost p: R.Plain) returns (r: Result<()>)
      requires Valid() && Shows(p)
      modifies exchanges.Values
      ensures Valid() && Shows(R.Step(p, R.BindQueue(exchange, queue, key)))
      ensures r.Ok? <==> exchange in exchanges && queue in queues
    {
      if exchange !in exchanges {
        return Err("exchange not found");
      }
      if queue !in queues {
        return Err("queue not found");
      }
      exchanges[exchange].Bind(queues[queue], key);
      r := Ok(());
    }

    /** One copy, with a tag of its own, to each queue bound under exactly this key; none elsewhere. */
    method Publish(exchange: string, key: string, body: Bytes, ghost p: R.Plain) returns (r: Result<()>)
      requires Valid() && Shows(p)
      modifies queues.Values`messages, queues.Values`nextTag, queues.Values`nextId
      ensures Valid() && Shows(R.Step(p, R.Publish(exchange, key, body)))
      ensures r.Ok? <==> exchange in exchanges
      ensures forall n :: n in queues ==>
                queues[n].messages == old(queues[n].messages)
                  + if r.Ok? && exchanges[exchange].Routes(key, n)
                    then [Message(old(queues[n].nextId), old(queues[n].nextTag), body, exchange, key)] else []
    {
      if exchange !in exchanges {
        return Err("exchange not found");
      }
      PublishBound(exchange, key, body, p);
      r := Ok(());
      forall n | n in queues
        ensures queues[n].messages == old(queues[n].messages)
                  + if exchanges[exchange].Routes(key, n)
                    then [Message(old(queues[n].nextId), old(queues[n].nextTag), body, exchange, key)] else []
      {
        assert p.queues[n] == old(queues[n].View());
        assert queues[n].View() == R.Step(p, R.Publish(exchange, key, body)).queues[n];
        assert (exchange, key, n) in p.bindings <==> exchanges[exchange].Routes(key, n);
      }
    }

    method PublishBound(exchange: string, key: string, body: Bytes, ghost p: R.Plain)
      requires Valid() && Shows(p) && exchange in exchanges
      modifies queues.Values`messages, queues.Values`nextTag, queues.Values`nextId
      ensures Valid() && Shows(R.Step(p, R.Publish(exchange, key, body)))
    {
      var qs := Recipients(exchange, key, p);
      ghost var views := FanOut(qs, exchange, key, body, p.queues);
      assert ShowsRoutes(p.exchanges, p.bindings);
      FannedIsStep(p, views, Names(qs), exchange, key, body);
    }

    /** The queues bound under the key are the broker's own, each once. */
    method Recipients(exchange: string, key: string, ghost p: R.Plain) returns (qs: seq<Queue>)
      requires Valid() && Shows(p) && exchange in exchanges
      ensures forall j :: 0 <= j < |qs| ==> qs[j].name in queues && queues[qs[j].name] == qs[j]
      ensures forall i, j :: 0 <= i < j < |qs| ==> qs[i] != qs[j]
      ensures forall n :: n in Names(qs) <==> (exchange, key, n) in p.bindings
    {
      qs := exchanges[exchange].GetQueues(key);
      forall j | 0 <= j < |qs| ensures qs[j].name in queues && queues[qs[j].name] == qs[j] {
        assert exchanges[exchange].Routes(key, qs[j].name);
      }
      forall n ensures n in Names(qs) <==> (exchange, key, n) in p.bindings {
        assert (exchange, key, n) in p.bindings <==> exchanges[exchange].Routes(key, n);
      }
    }

    /** What becomes of a nacked message once it has left its consumer. */
    method SettleNack(q: Queue, msg: Message, requeue: bool, ghost p: R.Plain)
      requires Valid() && Shows(p) && q.name in queues && queues[q.name] == q
      modifies queues.Values`messages, queues.Values`nextTag, queues.Values`nextId
      ensures Valid() && Shows(R.Step(p, R.Nack(q.name, msg, requeue)))
      ensures requeue ==> q.messages == [msg] + old(q.messages)
      ensures requeue || q.dlx == "" ==>
                forall n :: n in queues && (requeue ==> n != q.name) ==> queues[n].messages == old(queues[n].messages)
      ensures !requeue && q.dlx != "" ==>
                var key := if q.dlxRoutingKey == "" then msg.routingKey else q.dlxRoutingKey;
                forall n :: n in queues ==>
                  queues[n].messages == old(queues[n].messages)
                    + if q.dlx in exchanges && exchanges[q.dlx].Routes(key, n)
                      then [Message(old(queues[n].nextId), old(queues[n].nextTag), msg.body, q.dlx, key)] else []
    {
      if requeue {
        Requeue(q, msg, p);
      } else if q.dlx != "" {
        var key := if q.dlxRoutingKey == "" then msg.routingKey else q.dlxRoutingKey;
        assert R.Step(p, R.Nack(q.name, msg, requeue)) == R.Step(p, R.Publish(q.dlx, key, msg.body));
        var _ := Publish(q.dlx, key, msg.body, p);
      }
    }

    method Requeue(q: Queue, msg: Message, ghost p: R.Plain)
      requires Valid() && Shows(p) && q.name in queues && queues[q.name] == q
      modifies q`messages
      ensures Valid() && Shows(R.Step(p, R.Nack(q.name, msg, true)))
      ensures q.messages == [msg] + old(q.messages)
      ensures forall n :: n in queues && n != q.name ==> queues[n].messages == old(queues[n].messages)
    {
      assert forall n :: n in queues && n != q.name ==> queues[n] != q;
      q.messages := [msg] + q.messages;
    }

    method FanOut(qs: seq<Queue>, exchange: string, key: string, body: Bytes, ghost before: map<string, R.QueueView>)
      returns (ghost now: map<string, R.QueueView>)
      requires Valid() && ShowsQueues(before)
      requires forall j :: 0 <= j < |qs| ==> qs[j].name in queues && queues[qs[j].name] == qs[j]
      requires forall i, j :: 0 <= i < j < |qs| ==> qs[i] != qs[j]
      modifies queues.Values`messages, queues.Values`nextTag, queues.Values`nextId
      ensures Valid() && ShowsQueues(now) && Fanned(before, now, Names(qs), exchange, key, body)
    {
      now := before;
      var i := 0;
      while i < |qs|
        invariant 0 <= i <= |qs| && Valid() && ShowsQueues(now)
        invariant Fanned(before, now, Names(qs[..i]), exchange, key, body)
      {
        NextName(qs, i);
        PublishTo(qs[i], exchange, key, body, now);
        now := now[qs[i].name := R.Append(now[qs[i].name], exchange, key, body)];
        i := i + 1;
      }
      assert qs[..i] == qs;
    }

    /** One round of the fan-out: allocate the tag, release the lock, append. */
    method PublishTo(q: Queue, exchange: string, key: string, body: Bytes, ghost views: map<string, R.QueueView>)
      requires Valid() && ShowsQueues(views) && q.name in queues && queues[q.name] == q
      modifies q`messages, q`nextTag, q`nextId
      ensures Valid() && ShowsQueues(views[q.name := R.Append(views[q.name], exchange, key, body)])
      ensures q.messages == old(q.messages) + [Message(old(q.nextId), old(q.nextTag), body, exchange, key)]
    {
      assert forall n :: n in queues && n != q.name ==> queues[n] != q;
      var tag := q.AllocateTag();
      q.Enqueue(Message(q.nextId - 1, tag, body, exchange, key));
      assert q.View() == R.Append(views[q.name], exchange, key, body);
    }

    ghost function ConsumersOf(name: string): set<Consumer>
      reads this, queues.Values
    {
      if name in queues then queues[name].consumers else {}
    }

    /** Settle the tag at some consumer of the named queue, whichever channel that consumer is on. */
    method Ack(queueName: string, t: Tag) returns (r: Result<()>, ghost hit: Consumer?)
      modifies ConsumersOf(queueName)
      ensures r.Ok? <==> hit != null
      ensures hit == null <==> forall x :: x in ConsumersOf(queueName) ==> t !in old(x.inflightTags)
      ensures hit != null ==> hit in ConsumersOf(queueName) && t in old(hit.inflightTags) && hit.View() == CS.Settle(old(hit.View()), t)
      ensures forall x :: x in ConsumersOf(queueName) && x != hit ==> x.View() == old(x.View())
    {
      hit := null;
      if queueName !in queues {
        return Err("queue not found"), null;
      }
      var found := queues[queueName].AckTag(t);
      hit := found;
      r := if found == null then Err("delivery tag not found") else Ok(());
    }
  }

  ghost function Names(qs: seq<Queue>): set<string> {
    set i | 0 <= i < |qs| :: qs[i].name
  }

  lemma NextName(qs: seq<Queue>, i: nat)
    requires i < |qs| && forall a, b :: 0 <= a < b < |qs| ==> qs[a].name != qs[b].name
    ensures qs[i].name !in Names(qs[..i]) && Names(qs[..i + 1]) == Names(qs[..i]) + {qs[i].name}
  {
    forall n | n in Names(qs[..i]) + {qs[i].name} ensures n in Names(qs[..i + 1]) {
      if n == qs[i].name {
        assert qs[..i + 1][i].name == n;
      } else {
        var j :| 0 <= j < i && qs[..i][j].name == n;
        assert qs[..i + 1][j].name == n;
      }
    }
  }

  /** The queues named have one more copy each, and the others are as before. */
  ghost predicate Fanned(before: map<string, R.QueueView>, now: map<string, R.QueueView>, names: set<string>,
                         exchange: string, key: string, body: Bytes) {
    && now.Keys == before.Keys
    && forall n :: n in before ==> now[n] == if n in names then R.Append(before[n], exchange, key, body) else before[n]
  }

  lemma FannedIsStep(p: R.Plain, views: map<string, R.QueueView>, names: set<string>, e: string, k: string, body: Bytes)
    requires e in p.exchanges && Fanned(p.queues, views, names, e, k, body)
    requires forall n :: n in names <==> (e, k, n) in p.bindings
    ensures R.Step(p, R.Publish(e, k, body)) == p.(queues := views)
  {
  }

  /** Any history of declarations, binds, publishes and nacks, run on a fresh broker, leaves exactly what the
      plain set of bindings says. */
  method Replay(ops: seq<R.Op>) returns (b: Broker)
    ensures b.Valid() && b.Shows(R.After(ops))
  {
    b := new Broker();
    var i := 0;
    while i < |ops|
      invariant 0 <= i <= |ops| && b.Valid() && b.Shows(R.After(ops[..i]))
      invariant fresh(b) && fresh(b.queues.Values) && fresh(b.exchanges.Values)
    {
      assert ops[..i + 1][..i] == ops[..i] && ops[..i + 1][i] == ops[i];
      ghost var p := R.After(ops[..i]);
      match ops[i] {
        case DeclareQueue(n, dlx, k) => b.DeclareQueue(n, dlx, k, p);
        case DeclareExchange(n) => b.DeclareExchange(n, p);
        case BindQueue(e, n, k) => var _ := b.BindQueue(e, n, k, p);
        case Publish(e, k, body) => var _ := b.Publish(e, k, body, p);
        case Nack(n, m, requeue) =>
          if n in b.queues {
            b.SettleNack(b.queues[n], m, requeue, p);
          }
      }
      i := i + 1;
    }
    assert ops[..i] == ops;
  }

  /** The part of a consumer's pending messages that has gone back when the tags in `left` have not. */
  ghost function Returned(c: CS.Consumer, left: set<Tag>): CS.Consumer {
    c.(pending := c.pending - left, tags := c.pending.Keys - left)
  }

  /** Part way through returning the messages of `was`: `order` went back, the tags `left` did not. */
  ghost predicate Midway(was: CS.Consumer, left: set<Tag>, order: seq<Message>, now: CS.Consumer) {
    && left <= was.pending.Keys
    && multiset(order) == CS.Pend(Returned(was, left))
    && now == was.(inflight := was.inflight - |was.pending| + |left|, tags := was.tags - (was.pending.Keys - left))
  }

  lemma PrependAssociates(m: Message, a: seq<Message>, b: seq<Message>)
    ensures [m] + (a + b) == ([m] + a) + b
  {
  }

  lemma MidwayStart(was: CS.Consumer)
    ensures Midway(was, was.pending.Keys, [], was)
  {
    assert Returned(was, was.pending.Keys).pending == map[];
  }

  lemma ReturnOne(c: CS.Consumer, left: set<Tag>, t: Tag)
    requires CS.Booked(c) && t in left && left <= c.pending.Keys
    ensures CS.Pend(Returned(c, left - {t})) == CS.Pend(Returned(c, left)) + multiset{c.pending[t]}
  {
    var a, b := Returned(c, left), Returned(c, left - {t});
    CS.SettlePend(b, t);
    assert CS.Settle(b, t).pending == a.pending;
  }

  lemma MidwayStep(was: CS.Consumer, left: set<Tag>, order: seq<Message>, now: CS.Consumer, t: Tag)
    requires CS.Booked(was) && Midway(was, left, order, now) && t in left
    ensures now.pending[t].tag == t
    ensures Midway(was, left - {t}, [now.pending[t]] + order,
                   now.(inflight := now.inflight - 1, tags := now.tags - {t}))
  {
    ReturnOne(was, left, t);
    assert was.tags - (was.pending.Keys - (left - {t})) == was.tags - (was.pending.Keys - left) - {t};
    assert multiset([now.pending[t]] + order) == multiset{now.pending[t]} + multiset(order);
  }

  lemma MidwayEnd(was: CS.Consumer, order: seq<Message>, now: CS.Consumer)
    requires CS.Booked(was) && Midway(was, {}, order, now)
    ensures multiset(order) == CS.Pend(was) && now.(pending := map[]) == CS.Drain(was)
  {
    assert Returned(was, {}).pending == was.pending;
    DrainedTags(was);
  }

  lemma DrainedTags(c: CS.Consumer)
    requires CS.Booked(c)
    ensures CS.Drain(c).tags == c.tags - c.pending.Keys
  {
    var gone := set t | t in c.pending :: c.pending[t].tag;
    forall t | t in c.pending ensures t in gone {
      assert c.pending[t].tag == t;
    }
    assert gone == c.pending.Keys;
  }
}
