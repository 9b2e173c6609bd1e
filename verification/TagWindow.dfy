/** Sixteen-bit delivery tags: when they identify a message, and what happens when they wrap. */
module TagWindow {
  import opened Messages
  import opened ConsumerSpec
  import opened QueueProtocol
  import opened QueueInvariant
  import opened DeliveryGuarantees

  /** The live copies of the queue were minted within one tag cycle of each other. */
  ghost predicate Windowed(s: State) {
    forall a, b :: a in Live(s) && b in Live(s) ==> -TAG_SPACE < a.id - b.id < TAG_SPACE
  }

  ghost predicate AlwaysWindowed(run: seq<State>) {
    forall i :: 0 <= i < |run| ==> Windowed(run[i])
  }

  /** Every copy somebody still has: queued, pending, held by a nack, being written, or minted and on its way. */
  ghost function Around(s: State): multiset<Message> {
    Live(s) + s.minted + if s.dispatcher.Delivering? then multiset{s.dispatcher.msg} else multiset{}
  }

  /** Copies minted within one tag cycle of each other have different tags, however often the counter has wrapped
      and wherever the two copies are. */
  lemma TagsDistinct(s: State, a: Message, b: Message)
    requires Inv(s) && a in Around(s) && b in Around(s) && a.tag == b.tag
    requires -TAG_SPACE < a.id - b.id < TAG_SPACE
    ensures a == b
  {
    AroundIsKnown(s, a);
    AroundIsKnown(s, b);
    SameTagSameId(a.id, b.id);
  }

  lemma AroundIsKnown(s: State, m: Message)
    requires Inv(s) && m in Around(s)
    ensures m in s.past.enqueued + s.minted
  {
    if m in Live(s) {
      LiveIsKnown(s, m);
    }
  }

  lemma LiveTagsDistinct(s: State, a: Message, b: Message)
    requires Inv(s) && Windowed(s)
    requires a in Live(s) && b in Live(s) && a.tag == b.tag
    ensures a == b
  {
    TagsDistinct(s, a, b);
  }

  lemma PendingIsLive(s: State, c: nat, t: Tag)
    requires c < |s.consumers| && t in s.consumers[c].pending
    ensures s.consumers[c].pending[t] in Live(s)
  {
    PendAllHas(s.consumers, c);
    assert s.consumers[c].pending[t] in Pend(s.consumers[c]);
  }

  lemma WindowedNeverClobbers(s: State, l: Label)
    requires Inv(s) && Windowed(s)
    ensures !Clobbers(s, l)
  {
    if Clobbers(s, l) {
      var c := s.dispatcher.consumer;
      assert ConsumerOk(s, c);
      PendingIsLive(s, c, s.messages[0].tag);
      LiveTagsDistinct(s, s.messages[0], s.consumers[c].pending[s.messages[0].tag]);
    }
  }

  /** With no stray failures a copy is live at most once. */
  lemma LiveOnce(s: State, m: Message)
    requires Inv(s) && s.past.duplicated == multiset{}
    ensures Live(s)[m] <= 1
  {
    assert Received(s)[m] == Live(s)[m] + Gone(s)[m];
    assert m in s.past.enqueued ==> m in s.past.enqueued + s.minted;
  }

  lemma WindowedNeverCollides(s: State, l: Label)
    requires Inv(s) && Windowed(s) && s.past.duplicated == multiset{}
    ensures !Collides(s, l)
  {
    if Collides(s, l) {
      var m, c := s.messages[0], s.dispatcher.consumer;
      WindowedNeverClobbers(s, l);
      PendAllHas(s.consumers, c);
      assert m in Pend(s.consumers[c]);
      assert m in multiset(s.messages);
      LiveOnce(s, m);
    }
  }

  /** Within the window no run loses a copy, races or not; without stray failures the books are exact. */
  lemma WindowedRuns(run: seq<State>, ls: seq<Label>)
    requires IsRun(run, ls) && AlwaysWindowed(run)
    ensures NothingLost(Last(run))
    ensures NoStray(run, ls) ==> NoCollision(run, ls) && Last(run).past.enqueued == Accounted(Last(run))
  {
    forall i | 0 <= i < |ls| ensures !Clobbers(run[i], ls[i]) {
      RunKeepsInv(run, ls, i);
      WindowedNeverClobbers(run[i], ls[i]);
    }
    RunLosesNothing(run, ls);
    if NoStray(run, ls) {
      forall i | 0 <= i < |ls| ensures !Collides(run[i], ls[i]) {
        NoStrayYet(run, ls, i);
        RunKeepsInv(run, ls, i);
        WindowedNeverCollides(run[i], ls[i]);
      }
      ExactConservation(run, ls);
    }
  }

  lemma NoStrayYet(run: seq<State>, ls: seq<Label>, i: nat)
    requires IsRun(run, ls) && NoStray(run, ls) && i < |run|
    ensures run[i].past.duplicated == multiset{}
  {
    StrayIsRecorded(run, ls);
    HistoryGrows(run, ls, i, |run| - 1);
  }

  lemma {:induction false} TwoHolders(cs: seq<Consumer>, c: nat, d: nat, m: Message)
    requires c < d < |cs| && m in Pend(cs[c]) && m in Pend(cs[d])
    ensures PendAll(cs)[m] >= 2
  {
    var n := |cs| - 1;
    if d == n {
      assert cs[..n][c] == cs[c];
      PendAllHas(cs[..n], c);
    } else {
      assert cs[..n][c] == cs[c] && cs[..n][d] == cs[d];
      TwoHolders(cs[..n], c, d, m);
    }
  }

  /** One holder per tag, so an ack by tag can only mean one message. */
  lemma OneHolder(s: State, c: nat, d: nat, t: Tag)
    requires Inv(s) && Windowed(s) && s.past.duplicated == multiset{}
    requires c < |s.consumers| && d < |s.consumers|
    requires t in s.consumers[c].pending && t in s.consumers[d].pending
    ensures c == d
  {
    assert ConsumerOk(s, c) && ConsumerOk(s, d);
    PendingIsLive(s, c, t);
    PendingIsLive(s, d, t);
    var m := s.consumers[c].pending[t];
    LiveTagsDistinct(s, m, s.consumers[d].pending[t]);
    if c != d {
      assert m in Pend(s.consumers[c]) && m in Pend(s.consumers[d]);
      TwoHolders(s.consumers, if c < d then c else d, if c < d then d else c, m);
      LiveOnce(s, m);
    }
  }

  /** Within the window and without stray failures an ack removes exactly the acked message: no other
      consumer held its tag, no other consumer changes, and the message is gone. */
  lemma AckIsExact(run: seq<State>, ls: seq<Label>, i: nat, c: nat, t: Tag)
    requires IsRun(run, ls) && AlwaysWindowed(run) && NoStray(run, ls)
    requires i < |ls| && ls[i] == Ack(c, t)
    ensures c < |run[i].consumers| && t in run[i].consumers[c].pending
    ensures var m := run[i].consumers[c].pending[t];
            && m.tag == t
            && (forall d :: 0 <= d < |run[i].consumers| && d != c ==>
                  t !in run[i].consumers[d].pending && run[i + 1].consumers[d] == run[i].consumers[d])
            && Live(run[i + 1]) + multiset{m} == Live(run[i])
            && m !in Live(run[i + 1])
  {
    RunKeepsInv(run, ls, i);
    NoStrayYet(run, ls, i);
    assert Enabled(run[i], ls[i]);
    AckRemovesOne(run[i], c, t);
    OnlyHolder(run[i], c, t);
  }

  lemma AckRemovesOne(s: State, c: nat, t: Tag)
    requires Inv(s) && s.past.duplicated == multiset{} && Enabled(s, Ack(c, t))
    ensures t in s.consumers[c].pending
    ensures var m := s.consumers[c].pending[t];
            && m.tag == t && Live(DoAck(s, c, t)) + multiset{m} == Live(s) && m !in Live(DoAck(s, c, t))
  {
    assert ConsumerOk(s, c);
    SettleLive(s, c, t);
    assert Live(DoAck(s, c, t)) == Live(DoSettle(s, c, t));
    LiveOnce(s, s.consumers[c].pending[t]);
  }

  lemma OnlyHolder(s: State, c: nat, t: Tag)
    requires Inv(s) && Windowed(s) && s.past.duplicated == multiset{} && c < |s.consumers| && t in s.consumers[c].pending
    ensures forall d :: 0 <= d < |s.consumers| && d != c ==> t !in s.consumers[d].pending
  {
    forall d | 0 <= d < |s.consumers| && d != c ensures t !in s.consumers[d].pending {
      if t in s.consumers[d].pending {
        OneHolder(s, c, d, t);
      }
    }
  }

  // ---------------------------------------------------------------- outside the window

  lemma Extend(run: seq<State>, ls: seq<Label>, l: Label) returns (run': seq<State>, ls': seq<Label>)
    requires IsRun(run, ls) && Enabled(Last(run), l)
    ensures IsRun(run', ls') && Last(run') == Apply(Last(run), l)
    ensures ls' == ls + [l] && |run'| == |run| + 1 && run'[|run| - 1] == Last(run)
  {
    run', ls' := run + [Apply(Last(run), l)], ls + [l];
    forall i | 0 <= i < |ls'| ensures Enabled(run'[i], ls'[i]) && run'[i + 1] == Apply(run'[i], ls'[i]) {
      if i < |ls| {
        assert Enabled(run[i], ls[i]) && run[i + 1] == Apply(run[i], ls[i]);
      }
    }
  }

  lemma PublishNext(run: seq<State>, ls: seq<Label>, n: nat)
    returns (run': seq<State>, ls': seq<Label>, m: Message)
    requires IsRun(run, ls) && !Locked(Last(run)) && Last(run).nextId == n && Last(run).minted == multiset{}
    ensures m == Message(n, TagOf(n), [], "", "") && IsRun(run', ls')
    ensures Last(run') == Last(run).(nextId := n + 1, messages := Last(run).messages + [m], owed := Last(run).owed + 1,
                                     past := Last(run).past.(enqueued := Last(run).past.enqueued + multiset{m}))
  {
    m := Message(n, TagOf(n), [], "", "");
    run', ls' := Extend(run, ls, Allocate([], "", ""));
    run', ls' := Extend(run', ls', Enqueue(m));
  }

  /** One consumer, holding the first message ever minted and nothing else; the queue is empty. */
  ghost predicate HoldsFirst(s: State, m0: Message, n: nat) {
    && s.messages == [] && s.consumers == [Consumer(PREFETCH, 1, {1}, map[1 := m0])] && s.registered == {0}
    && s.dispatcher == Checking && s.nextId == n && s.minted == multiset{} && s.held == multiset{}
    && m0.id == 0 && m0.tag == 1
    && s.past.enqueued[m0] == 1 && m0 !in s.past.acked && m0 !in s.past.discarded
    && s.past.duplicated == multiset{}
  }

  /** A consumer is registered, a message is published, and the dispatcher has picked the consumer. */
  lemma FirstChosen() returns (run: seq<State>, ls: seq<Label>, m0: Message)
    ensures IsRun(run, ls) && m0 == Message(0, 1, [], "", "")
    ensures Last(run) == Initial().(messages := [m0], consumers := [Fresh()], registered := {0}, nextId := 1,
                                    owed := 2, dispatcher := Chosen(0),
                                    past := Initial().past.(enqueued := multiset{m0}))
  {
    run, ls := [Initial()], [];
    run, ls := Extend(run, ls, Register);
    run, ls, m0 := PublishNext(run, ls, 0);
    run, ls := Extend(run, ls, StartScan);
    run, ls := Extend(run, ls, Look(0));
  }

  lemma FirstDelivering() returns (run: seq<State>, ls: seq<Label>, m0: Message)
    ensures IsRun(run, ls) && m0 == Message(0, 1, [], "", "")
    ensures Last(run) == Initial().(consumers := [Consumer(PREFETCH, 1, {1}, map[1 := m0])], registered := {0},
                                    nextId := 1, owed := 2, dispatcher := Delivering(m0, 0),
                                    past := Initial().past.(enqueued := multiset{m0}))
  {
    run, ls, m0 := FirstChosen();
    run, ls := Extend(run, ls, Dispatch);
    assert Mark(Fresh(), m0) == Consumer(PREFETCH, 1, {1}, map[1 := m0]);
    assert Last(run).consumers == [Mark(Fresh(), m0)];
  }

  lemma HoldFirst() returns (run: seq<State>, ls: seq<Label>, m0: Message)
    ensures IsRun(run, ls) && HoldsFirst(Last(run), m0, 1)
  {
    run, ls, m0 := FirstDelivering();
    run, ls := Extend(run, ls, WriteOk);
  }

  /** Publish one more message and let the dispatcher hand it to the only consumer. */
  lemma DispatchNext(run: seq<State>, ls: seq<Label>, m0: Message, n: nat)
    returns (run': seq<State>, ls': seq<Label>, m: Message, before: State)
    requires IsRun(run, ls) && HoldsFirst(Last(run), m0, n)
    ensures m == Message(n, TagOf(n), [], "", "")
    ensures before == Last(run).(nextId := n + 1, messages := [m], dispatcher := Chosen(0), owed := before.owed,
                                 past := Last(run).past.(enqueued := Last(run).past.enqueued + multiset{m}))
    ensures IsRun(run', ls') && Enabled(before, Dispatch) && Last(run') == DoDispatch(before)
  {
    run', ls', m := PublishNext(run, ls, n);
    run', ls' := Extend(run', ls', StartScan);
    run', ls' := Extend(run', ls', Look(0));
    before := Last(run');
    run', ls' := Extend(run', ls', Dispatch);
  }

  lemma ComeAndGo(run: seq<State>, ls: seq<Label>, m0: Message, n: nat) returns (run': seq<State>, ls': seq<Label>)
    requires IsRun(run, ls) && HoldsFirst(Last(run), m0, n) && 1 <= n < TAG_SPACE
    ensures IsRun(run', ls') && HoldsFirst(Last(run'), m0, n + 1)
  {
    var m, before;
    run', ls', m, before := DispatchNext(run, ls, m0, n);
    assert m.tag != 1;
    run', ls' := Extend(run', ls', WriteOk);
    run', ls' := Extend(run', ls', Ack(0, m.tag));
    MarkThenSettle(before.consumers[0], m);
  }

  /** A message marked under a new tag and then acked leaves the consumer as it was. */
  lemma MarkThenSettle(c: Consumer, m: Message)
    requires Booked(c) && m.tag !in c.pending
    ensures Settle(Mark(c, m), m.tag) == c
  {
    assert Settle(Mark(c, m), m.tag).pending == c.pending;
    assert Settle(Mark(c, m), m.tag).tags == c.tags;
  }

  /** While the consumer sits on the first message, any number of later ones can come and go. */
  lemma {:induction false} Churn(n: nat) returns (run: seq<State>, ls: seq<Label>, m0: Message)
    requires 1 <= n <= TAG_SPACE
    ensures IsRun(run, ls) && HoldsFirst(Last(run), m0, n)
  {
    if n == 1 {
      run, ls, m0 := HoldFirst();
    } else {
      run, ls, m0 := Churn(n - 1);
      run, ls := ComeAndGo(run, ls, m0, n - 1);
    }
  }

  /** The window is needed: there is a run, with no stray failure, that loses a copy when the tag
      counter comes round to a tag still pending at the only consumer. */
  lemma WrapLosesACopy() returns (run: seq<State>, ls: seq<Label>, m0: Message)
    ensures IsRun(run, ls) && NoStray(run, ls) && !NothingLost(Last(run))
    ensures m0 in Last(run).past.enqueued && m0 !in Live(Last(run))
    ensures m0 !in Last(run).past.acked && m0 !in Last(run).past.discarded
  {
    run, ls, m0 := Churn(TAG_SPACE);
    var m, before;
    run, ls, m, before := DispatchNext(run, ls, m0, TAG_SPACE);
    var s := Last(run);
    StrayIsRecorded(run, ls);
    RunKeepsInv(run, ls, |run| - 1);
    assert s.past.overwritten[m0] >= 1;
    assert Received(s)[m0] == Live(s)[m0] + Gone(s)[m0];
  }

  /** The consumer is unregistered while its delivery is being written ... */
  lemma CloseDuringWrite() returns (run: seq<State>, ls: seq<Label>, m: Message)
    ensures IsRun(run, ls) && m.tag == 1
    ensures Last(run).past == Initial().past.(enqueued := multiset{m}) && Last(run).messages == [m]
    ensures Last(run).dispatcher == Delivering(m, 0)
    ensures |Last(run).consumers| == 1 && Last(run).consumers[0].pending == map[]
  {
    run, ls, m := FirstDelivering();
    assert Last(run).consumers[0].pending[1] == m;
    assert Last(run).consumers[0].pending.Values == {m};
    run, ls := Extend(run, ls, Unregister(0, [m]));
  }

  /** ... and then the write fails. */
  lemma FailAfterClose() returns (run: seq<State>, ls: seq<Label>, m: Message)
    ensures IsRun(run, ls)
    ensures Last(run).past == Initial().past.(enqueued := multiset{m}, duplicated := multiset{m}, duplicatedAt := multiset{0})
    ensures Last(run).messages == [m, m]
  {
    run, ls, m := CloseDuringWrite();
    run, ls := Extend(run, ls, WriteFail);
  }

  /** A stray failure duplicates: one copy was enqueued and the queue holds two. */
  lemma StrayDuplicates() returns (run: seq<State>, ls: seq<Label>, m: Message)
    ensures IsRun(run, ls) && NoCollision(run, ls) && !NoStray(run, ls)
    ensures Last(run).past.enqueued == multiset{m} && Last(run).messages == [m, m]
  {
    run, ls, m := FailAfterClose();
    assert Last(run).past.duplicated[m] == 1;
    StrayIsRecorded(run, ls);
    CollisionIsRecorded(run, ls);
  }
}
