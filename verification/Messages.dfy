/** Messages, delivery tags and the per-consumer bookkeeping record, as values.

    A message copy is created when a publish allocates its delivery tag. The `id` of a copy is
    history only: it numbers the copies of one queue without bound, while the tag the program
    keeps is sixteen bits wide and wraps. */
module Messages {

  const TAG_SPACE := 65536

  type Tag = t: int | 0 <= t < TAG_SPACE
  type Bytes = seq<bv8>

  datatype Message = Message(id: nat, tag: Tag, body: Bytes, exchange: string, routingKey: string)

  /** The counter starts at 1 and is incremented, with wrap-around, after each allocation. */
  function TagOf(id: nat): Tag {
    (id + 1) % TAG_SPACE
  }

  /** Two copies whose ids are less than one tag cycle apart share a tag only if they are one copy. */
  lemma SameTagSameId(a: nat, b: nat)
    requires TagOf(a) == TagOf(b)
    requires -TAG_SPACE < a - b < TAG_SPACE
    ensures a == b
  {
    var qa, qb := (a + 1) / TAG_SPACE, (b + 1) / TAG_SPACE;
    assert a - b == TAG_SPACE * (qa - qb);
  }

  /** Every id has another one a whole cycle later with the same tag: the window is tight. */
  lemma TagWraps(a: nat)
    ensures TagOf(a) == TagOf(a + TAG_SPACE)
  {
  }
}

/** The fields of a broker consumer that the queue, the ack and the nack paths update. */
module ConsumerSpec {
  import opened Messages

  const PREFETCH := 10

  datatype Consumer = Consumer(prefetch: int, inflight: int, tags: set<Tag>, pending: map<Tag, Message>)

  function Fresh(): Consumer {
    Consumer(PREFETCH, 0, {}, map[])
  }

  predicate Free(c: Consumer) {
    c.inflight < c.prefetch
  }

  /** What the dispatcher does under the consumer's lock before it writes. */
  function Mark(c: Consumer, m: Message): Consumer {
    c.(inflight := c.inflight + 1, tags := c.tags + {m.tag}, pending := c.pending[m.tag := m])
  }

  /** What ack, nack and a failed write all do under the consumer's lock. */
  function Settle(c: Consumer, t: Tag): Consumer {
    c.(inflight := c.inflight - 1, tags := c.tags - {t}, pending := c.pending - {t})
  }

  /** What unregistering does: every pending message leaves, one decrement for each. */
  function Drain(c: Consumer): Consumer {
    c.(inflight := c.inflight - |c.pending|,
       tags := c.tags - (set t | t in c.pending :: c.pending[t].tag),
       pending := map[])
  }

  /** The two maps of a consumer agree, and each entry is stored under its message's own tag. */
  predicate Booked(c: Consumer) {
    && c.tags == c.pending.Keys
    && forall t :: t in c.pending ==> c.pending[t].tag == t
  }

  ghost function Pend(c: Consumer): multiset<Message> {
    multiset(c.pending.Values)
  }

  lemma PendAt(c: Consumer, t: Tag)
    requires Booked(c) && t in c.pending
    ensures Pend(c)[c.pending[t]] == 1
    ensures forall m :: m in Pend(c) ==> m.tag in c.pending && c.pending[m.tag] == m
  {
  }

  lemma SetPlusOne(a: set<Message>, m: Message)
    requires m !in a
    ensures multiset(a + {m}) == multiset(a) + multiset{m}
  {
  }

  lemma MarkValues(c: Consumer, m: Message)
    requires Booked(c)
    ensures Booked(Mark(c, m))
    ensures Mark(c, m).pending.Values == Settle(c, m.tag).pending.Values + {m}
    ensures m !in Settle(c, m.tag).pending.Values
  {
    var d, e := Mark(c, m), Settle(c, m.tag);
    assert d.pending == e.pending[m.tag := m];
    forall x | x in e.pending.Values ensures x in d.pending.Values {
      assert d.pending[x.tag] == x;
    }
    assert d.pending[m.tag] == m;
  }

  lemma MarkPend(c: Consumer, m: Message)
    requires Booked(c)
    ensures Booked(Mark(c, m))
    ensures m.tag !in c.pending ==> Pend(Mark(c, m)) == Pend(c) + multiset{m}
    ensures m.tag in c.pending ==>
              Pend(Mark(c, m)) + multiset{c.pending[m.tag]} == Pend(c) + multiset{m}
  {
    MarkValues(c, m);
    SettlePend(c, m.tag);
    SetPlusOne(Settle(c, m.tag).pending.Values, m);
  }

  lemma SettlePend(c: Consumer, t: Tag)
    requires Booked(c)
    ensures Booked(Settle(c, t))
    ensures t in c.pending ==> Pend(Settle(c, t)) + multiset{c.pending[t]} == Pend(c)
    ensures t !in c.pending ==> Pend(Settle(c, t)) == Pend(c)
  {
    var d := Settle(c, t);
    forall x | x in c.pending.Values && x.tag != t ensures x in d.pending.Values {
      assert d.pending[x.tag] == x;
    }
    if t in c.pending {
      assert d.pending.Values == c.pending.Values - {c.pending[t]};
    } else {
      assert d.pending == c.pending;
    }
  }

  lemma DrainPend(c: Consumer)
    requires Booked(c)
    ensures Booked(Drain(c)) && Pend(Drain(c)) == multiset{}
  {
    var gone := set t | t in c.pending :: c.pending[t].tag;
    forall t | t in c.pending ensures t in gone {
      assert c.pending[t].tag == t;
    }
    assert Drain(c).tags == {};
  }

  /** A consumer holds as many messages as it holds tags. */
  lemma {:induction false} PendSize(c: Consumer)
    requires Booked(c)
    ensures |Pend(c)| == |c.pending|
    decreases |c.pending|
  {
    if c.pending == map[] {
    } else {
      var t :| t in c.pending;
      var d := c.(tags := c.tags - {t}, pending := c.pending - {t});
      PendSize(d);
      SettlePend(c, t);
      assert Pend(Settle(c, t)) == Pend(d);
      assert c.pending.Keys == d.pending.Keys + {t};
    }
  }
}
