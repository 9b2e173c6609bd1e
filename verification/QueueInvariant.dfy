/** What every run of a queue keeps: consumer bookkeeping, and where every copy is. */
module QueueInvariant {
  import opened Messages
  import opened ConsumerSpec
  import opened QueueProtocol

  // ---------------------------------------------------------------- invariants

  /** Consumer `i`: its maps agree, it never exceeds its prefetch, and its counter differs from the
      number of messages it holds by exactly the overwrites and stray failures it has suffered. */
  ghost predicate ConsumerOk(s: State, i: nat)
    requires i < |s.consumers|
  {
    var c := s.consumers[i];
    && Booked(c)
    && c.prefetch == PREFETCH
    && c.inflight <= c.prefetch
    && c.inflight == |c.pending| + s.past.overwrittenAt[i] - s.past.duplicatedAt[i]
    && (i !in s.registered ==> c.pending == map[])
  }

  ghost predicate ConsumersOk(s: State) {
    && (forall i :: i in s.registered ==> i < |s.consumers|)
    && (forall i :: i in s.past.overwrittenAt ==> i < |s.consumers|)
    && (forall i :: i in s.past.duplicatedAt ==> i < |s.consumers|)
    && (forall i :: 0 <= i < |s.consumers| ==> ConsumerOk(s, i))
  }

  ghost predicate DispatcherOk(s: State) {
    match s.dispatcher
    case Scanning(seen) => s.messages != [] && seen <= s.registered
    case Chosen(c) => s.messages != [] && c in s.registered && c < |s.consumers| && Free(s.consumers[c])
    case Delivering(m, c) =>
      && c < |s.consumers|
      && m in s.past.enqueued
      && (m.tag in s.consumers[c].pending ==> s.consumers[c].pending[m.tag] == m)
    case _ => true
  }

  /** Ids name copies: each copy is minted once, with its tag, and enqueued at most once. */
  ghost predicate IdsOk(s: State) {
    var known := s.past.enqueued + s.minted;
    && (forall m :: m in known ==> m.id < s.nextId && m.tag == TagOf(m.id) && known[m] == 1)
    && (forall a, b :: a in known && b in known && a.id == b.id ==> a == b)
    && (forall m :: m in s.past.duplicated ==> m in s.past.enqueued)
  }

  /** Every copy ever enqueued, plus those a stray failure put back once more, is in exactly one
      place: queued, pending, held by a nack, acked, discarded, or overwritten. */
  ghost predicate Balanced(s: State) {
    Received(s) == Live(s) + Gone(s)
  }

  ghost function Received(s: State): multiset<Message> {
    s.past.enqueued + s.past.duplicated
  }

  ghost function Gone(s: State): multiset<Message> {
    s.past.acked + s.past.discarded + s.past.overwritten
  }

  ghost predicate Inv(s: State) {
    ConsumersOk(s) && DispatcherOk(s) && IdsOk(s) && Balanced(s)
  }

  // ---------------------------------------------------------------- steps keep them

  lemma LiveIsKnown(s: State, m: Message)
    requires IdsOk(s) && Balanced(s) && m in Live(s)
    ensures m in s.past.enqueued
  {
    assert m in Received(s);
  }

  /** Multiset bookkeeping: a step that moves `added` in and `removed` out of the live copies. */
  lemma Rebalance(s: State, s': State, received: multiset<Message>, gone: multiset<Message>,
                  removed: multiset<Message>, added: multiset<Message>)
    requires Balanced(s)
    requires Received(s') == Received(s) + received
    requires Gone(s') == Gone(s) + gone
    requires Live(s') + removed == Live(s) + added
    requires received + removed == added + gone
    ensures Balanced(s')
  {
    forall m ensures Received(s')[m] == (Live(s') + Gone(s'))[m] {
      assert Received(s)[m] == Live(s)[m] + Gone(s)[m];
      assert (Live(s') + removed)[m] == (Live(s) + added)[m];
      assert (received + removed)[m] == (added + gone)[m];
    }
  }

  /** One consumer changes and the queue loses `back` and gains `front`. */
  lemma Transfer(s: State, s': State, c: nat, back: multiset<Message>, front: multiset<Message>)
    requires c < |s.consumers| && |s'.consumers| == |s.consumers|
    requires s'.consumers == s.consumers[c := s'.consumers[c]] && s'.held == s.held
    requires multiset(s'.messages) + back == multiset(s.messages) + front
    ensures Live(s') + (back + Pend(s.consumers[c])) == Live(s) + (front + Pend(s'.consumers[c]))
  {
    PendAllUpdate(s.consumers, c, s'.consumers[c]);
    forall m ensures (Live(s') + (back + Pend(s.consumers[c])))[m] == (Live(s) + (front + Pend(s'.consumers[c])))[m] {
      assert (multiset(s'.messages) + back)[m] == (multiset(s.messages) + front)[m];
      assert (PendAll(s'.consumers) + Pend(s.consumers[c]))[m] == (PendAll(s.consumers) + Pend(s'.consumers[c]))[m];
    }
  }

  lemma SettleConsumers(s: State, c: nat, t: Tag)
    requires ConsumersOk(s) && DispatcherOk(s) && c < |s.consumers| && t in s.consumers[c].pending
    ensures ConsumersOk(DoSettle(s, c, t)) && DispatcherOk(DoSettle(s, c, t))
  {
    var s' := DoSettle(s, c, t);
    assert ConsumerOk(s, c);
    SettlePend(s.consumers[c], t);
    assert s'.consumers[c].pending.Keys == s.consumers[c].pending.Keys - {t};
    forall i | 0 <= i < |s'.consumers| ensures ConsumerOk(s', i) {
      assert ConsumerOk(s, i);
    }
  }

  lemma SettleLive(s: State, c: nat, t: Tag)
    requires c < |s.consumers| && Booked(s.consumers[c]) && t in s.consumers[c].pending
    ensures Live(DoSettle(s, c, t)) + multiset{s.consumers[c].pending[t]} == Live(s)
  {
    var s', e := DoSettle(s, c, t), multiset{s.consumers[c].pending[t]};
    var x, y := Pend(s.consumers[c]), Pend(s'.consumers[c]);
    SettlePend(s.consumers[c], t);
    Transfer(s, s', c, multiset{}, multiset{});
    forall m ensures (Live(s') + e)[m] == Live(s)[m] {
      assert (Live(s') + (multiset{} + x))[m] == (Live(s) + (multiset{} + y))[m];
      assert x[m] == (y + e)[m];
    }
  }

  lemma SettleStep(s: State, c: nat, t: Tag)
    requires ConsumersOk(s) && DispatcherOk(s) && c < |s.consumers| && t in s.consumers[c].pending
    ensures ConsumersOk(DoSettle(s, c, t)) && DispatcherOk(DoSettle(s, c, t))
    ensures Live(DoSettle(s, c, t)) + multiset{s.consumers[c].pending[t]} == Live(s)
  {
    SettleConsumers(s, c, t);
    assert ConsumerOk(s, c);
    SettleLive(s, c, t);
  }

  /** A step that leaves the consumers, the registrations and the overwrite history alone. */
  lemma SameConsumers(s: State, s': State)
    requires ConsumersOk(s)
    requires s'.consumers == s.consumers && s'.registered == s.registered
    requires s'.past.overwrittenAt == s.past.overwrittenAt && s'.past.duplicatedAt == s.past.duplicatedAt
    ensures ConsumersOk(s')
  {
    forall i | 0 <= i < |s'.consumers| ensures ConsumerOk(s', i) {
      assert ConsumerOk(s, i);
    }
  }

  lemma AckStep(s: State, c: nat, t: Tag)
    requires Inv(s) && Enabled(s, Ack(c, t))
    ensures Inv(DoAck(s, c, t))
  {
    assert ConsumerOk(s, c);
    SettleStep(s, c, t);
    SameConsumers(DoSettle(s, c, t), DoAck(s, c, t));
    var x := multiset{s.consumers[c].pending[t]};
    Rebalance(s, DoAck(s, c, t), multiset{}, x, x, multiset{});
  }

  lemma TakeRequeueStep(s: State, c: nat, t: Tag)
    requires Inv(s) && Enabled(s, TakeRequeue(c, t))
    ensures Inv(DoTakeRequeue(s, c, t))
  {
    SettleStep(s, c, t);
    SameConsumers(DoSettle(s, c, t), DoTakeRequeue(s, c, t));
    assert Live(DoTakeRequeue(s, c, t)) == Live(DoSettle(s, c, t)) + multiset{s.consumers[c].pending[t]};
  }

  lemma TakeDiscardStep(s: State, c: nat, t: Tag)
    requires Inv(s) && Enabled(s, TakeDiscard(c, t))
    ensures Inv(DoTakeDiscard(s, c, t))
  {
    SettleStep(s, c, t);
    SameConsumers(DoSettle(s, c, t), DoTakeDiscard(s, c, t));
    var x := multiset{s.consumers[c].pending[t]};
    Rebalance(s, DoTakeDiscard(s, c, t), multiset{}, x, x, multiset{});
  }

  lemma AllocateStep(s: State, b: Bytes, e: string, k: string)
    requires Inv(s) && Enabled(s, Allocate(b, e, k))
    ensures Inv(DoAllocate(s, b, e, k))
  {
    var s' := DoAllocate(s, b, e, k);
    SameConsumers(s, s');
    var m := Message(s.nextId, TagOf(s.nextId), b, e, k);
    assert s'.past.enqueued + s'.minted == s.past.enqueued + s.minted + multiset{m};
  }

  lemma EnqueueStep(s: State, m: Message)
    requires Inv(s) && Enabled(s, Enqueue(m))
    ensures Inv(DoEnqueue(s, m))
  {
    var s' := DoEnqueue(s, m);
    SameConsumers(s, s');
    assert s'.past.enqueued + s'.minted == s.past.enqueued + s.minted;
    assert multiset(s'.messages) == multiset(s.messages) + multiset{m};
    Rebalance(s, s', multiset{m}, multiset{}, multiset{}, multiset{m});
  }

  lemma RegisterStep(s: State)
    requires Inv(s) && Enabled(s, Register)
    ensures Inv(DoRegister(s))
  {
    var s' := DoRegister(s);
    PendAllAppend(s.consumers, Fresh());
    forall i | 0 <= i < |s'.consumers| ensures ConsumerOk(s', i) {
      if i < |s.consumers| {
        assert ConsumerOk(s, i);
      }
    }
  }

  lemma UnregisterConsumers(s: State, c: nat, order: seq<Message>)
    requires ConsumersOk(s) && Enabled(s, Unregister(c, order))
    ensures ConsumersOk(DoUnregister(s, c, order))
  {
    var s' := DoUnregister(s, c, order);
    assert ConsumerOk(s, c);
    DrainPend(s.consumers[c]);
    forall i | 0 <= i < |s'.consumers| ensures ConsumerOk(s', i) {
      assert ConsumerOk(s, i);
    }
  }

  lemma UnregisterStep(s: State, c: nat, order: seq<Message>)
    requires Inv(s) && Enabled(s, Unregister(c, order))
    ensures Inv(DoUnregister(s, c, order))
  {
    UnregisterConsumers(s, c, order);
    UnregisterBalance(s, c, order);
    UnregisterDispatcher(s, c, order);
    SameIds(s, DoUnregister(s, c, order));
  }

  lemma UnregisterDispatcher(s: State, c: nat, order: seq<Message>)
    requires DispatcherOk(s) && Enabled(s, Unregister(c, order))
    ensures DispatcherOk(DoUnregister(s, c, order))
  {
  }

  lemma SameIds(s: State, s': State)
    requires IdsOk(s) && s'.past == s.past && s'.minted == s.minted && s'.nextId == s.nextId
    ensures IdsOk(s')
  {
  }

  lemma UnregisterBalance(s: State, c: nat, order: seq<Message>)
    requires Inv(s) && Enabled(s, Unregister(c, order))
    ensures Balanced(DoUnregister(s, c, order))
  {
    var s', x := DoUnregister(s, c, order), Pend(s.consumers[c]);
    assert ConsumerOk(s, c);
    DrainPend(s.consumers[c]);
    Transfer(s, s', c, multiset{}, x);
    Rebalance(s, s', multiset{}, multiset{}, multiset{} + x, x + multiset{});
  }

  lemma PutStep(s: State, m: Message)
    requires Inv(s) && Enabled(s, Put(m))
    ensures Inv(DoPut(s, m))
  {
    SameConsumers(s, DoPut(s, m));
  }

  lemma DispatchConsumers(s: State)
    requires ConsumersOk(s) && DispatcherOk(s) && Enabled(s, Dispatch)
    ensures ConsumersOk(DoDispatch(s))
  {
    var s', m, c := DoDispatch(s), s.messages[0], s.dispatcher.consumer;
    assert ConsumerOk(s, c);
    MarkPend(s.consumers[c], m);
    assert s'.consumers[c].pending.Keys == s.consumers[c].pending.Keys + {m.tag};
    forall i | 0 <= i < |s'.consumers| ensures ConsumerOk(s', i) {
      assert ConsumerOk(s, i);
    }
  }

  ghost function Overwrites(c: Consumer, m: Message): multiset<Message> {
    if m.tag in c.pending then multiset{c.pending[m.tag]} else multiset{}
  }

  lemma MarkMoves(c: Consumer, m: Message)
    requires Booked(c)
    ensures multiset{m} + Pend(c) == Pend(Mark(c, m)) + Overwrites(c, m)
  {
    MarkPend(c, m);
  }

  lemma DispatchHistory(s: State)
    requires Enabled(s, Dispatch)
    ensures var over := Overwrites(s.consumers[s.dispatcher.consumer], s.messages[0]);
            Received(DoDispatch(s)) == Received(s) + multiset{} && Gone(DoDispatch(s)) == Gone(s) + over
  {
  }

  lemma DispatchLive(s: State)
    requires Enabled(s, Dispatch)
    ensures var m, x := s.messages[0], s.consumers[s.dispatcher.consumer];
            Live(DoDispatch(s)) + (multiset{m} + Pend(x)) == Live(s) + (multiset{} + Pend(Mark(x, m)))
  {
    assert s.messages == [s.messages[0]] + s.messages[1..];
    Transfer(s, DoDispatch(s), s.dispatcher.consumer, multiset{s.messages[0]}, multiset{});
  }

  lemma DispatchBalance(s: State)
    requires Inv(s) && Enabled(s, Dispatch)
    ensures Balanced(DoDispatch(s)) && s.messages[0] in s.past.enqueued
  {
    var m, x := s.messages[0], s.consumers[s.dispatcher.consumer];
    assert ConsumerOk(s, s.dispatcher.consumer);
    LiveIsKnown(s, m);
    MarkMoves(x, m);
    DispatchHistory(s);
    DispatchLive(s);
    Rebalance(s, DoDispatch(s), multiset{}, Overwrites(x, m),
              multiset{m} + Pend(x), multiset{} + Pend(Mark(x, m)));
  }

  lemma DispatchStep(s: State)
    requires Inv(s) && Enabled(s, Dispatch)
    ensures Inv(DoDispatch(s))
  {
    DispatchConsumers(s);
    DispatchBalance(s);
  }

  lemma WriteFailConsumers(s: State)
    requires ConsumersOk(s) && DispatcherOk(s) && Enabled(s, WriteFail)
    ensures ConsumersOk(DoWriteFail(s))
  {
    var s', m, c := DoWriteFail(s), s.dispatcher.msg, s.dispatcher.to;
    assert ConsumerOk(s, c);
    SettlePend(s.consumers[c], m.tag);
    assert s'.consumers[c].pending.Keys == s.consumers[c].pending.Keys - {m.tag};
    forall i | 0 <= i < |s'.consumers| ensures ConsumerOk(s', i) {
      assert ConsumerOk(s, i);
    }
  }

  /** What a failed write puts back beyond what it finds pending. */
  ghost function FailDuplicates(c: Consumer, m: Message): multiset<Message> {
    if m.tag in c.pending then multiset{} else multiset{m}
  }

  lemma FailMoves(c: Consumer, m: Message)
    requires Booked(c) && (m.tag in c.pending ==> c.pending[m.tag] == m)
    ensures FailDuplicates(c, m) + Pend(c) == multiset{m} + Pend(Settle(c, m.tag))
  {
    SettlePend(c, m.tag);
  }

  lemma WriteFailHistory(s: State)
    requires Enabled(s, WriteFail)
    ensures var dup := FailDuplicates(s.consumers[s.dispatcher.to], s.dispatcher.msg);
            Received(DoWriteFail(s)) == Received(s) + dup && Gone(DoWriteFail(s)) == Gone(s) + multiset{}
  {
  }

  lemma WriteFailLive(s: State)
    requires Enabled(s, WriteFail)
    ensures var m, x := s.dispatcher.msg, s.consumers[s.dispatcher.to];
            Live(DoWriteFail(s)) + (multiset{} + Pend(x)) == Live(s) + (multiset{m} + Pend(Settle(x, m.tag)))
  {
    Transfer(s, DoWriteFail(s), s.dispatcher.to, multiset{}, multiset{s.dispatcher.msg});
  }

  lemma WriteFailBalance(s: State)
    requires Inv(s) && Enabled(s, WriteFail)
    ensures Balanced(DoWriteFail(s))
  {
    var m, x := s.dispatcher.msg, s.consumers[s.dispatcher.to];
    assert ConsumerOk(s, s.dispatcher.to);
    FailMoves(x, m);
    WriteFailHistory(s);
    WriteFailLive(s);
    Rebalance(s, DoWriteFail(s), FailDuplicates(x, m), multiset{},
              multiset{} + Pend(x), multiset{m} + Pend(Settle(x, m.tag)));
  }

  lemma WriteFailStep(s: State)
    requires Inv(s) && Enabled(s, WriteFail)
    ensures Inv(DoWriteFail(s))
  {
    WriteFailConsumers(s);
    WriteFailBalance(s);
  }

  lemma StepKeepsInv(s: State, l: Label)
    requires Inv(s) && Enabled(s, l)
    ensures Inv(Apply(s, l))
  {
    match l {
      case Allocate(b, e, k) => AllocateStep(s, b, e, k);
      case Enqueue(m) => EnqueueStep(s, m);
      case Register => RegisterStep(s);
      case Unregister(c, order) => UnregisterStep(s, c, order);
      case Ack(c, t) => AckStep(s, c, t);
      case TakeRequeue(c, t) => TakeRequeueStep(s, c, t);
      case Put(m) => PutStep(s, m);
      case TakeDiscard(c, t) => TakeDiscardStep(s, c, t);
      case Dispatch => DispatchStep(s);
      case WriteFail => WriteFailStep(s);
      case _ => SameConsumers(s, Apply(s, l));
    }
  }

  lemma {:induction false} RunKeepsInv(run: seq<State>, ls: seq<Label>, i: nat)
    requires IsRun(run, ls) && i < |run|
    ensures Inv(run[i])
  {
    if i > 0 {
      RunKeepsInv(run, ls, i - 1);
      assert Enabled(run[i - 1], ls[i - 1]);
      StepKeepsInv(run[i - 1], ls[i - 1]);
    }
  }
}
