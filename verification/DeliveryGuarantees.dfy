/** Delivery guarantees of a queue over whole runs, and exactly when they hold. */
module DeliveryGuarantees {
  import opened Messages
  import opened ConsumerSpec
  import opened QueueProtocol
  import opened QueueInvariant

  // ---------------------------------------------------------------- the two races

  /** A failed write that no longer finds its message pending. */
  predicate Stray(s: State, l: Label) {
    && l.WriteFail? && s.dispatcher.Delivering? && s.dispatcher.to < |s.consumers|
    && s.dispatcher.msg.tag !in s.consumers[s.dispatcher.to].pending
  }

  /** A dispatch whose tag is still pending at the consumer it chose. */
  predicate Collides(s: State, l: Label) {
    && l.Dispatch? && s.dispatcher.Chosen? && s.messages != [] && s.dispatcher.consumer < |s.consumers|
    && s.messages[0].tag in s.consumers[s.dispatcher.consumer].pending
  }

  /** A collision with a different message. */
  predicate Clobbers(s: State, l: Label) {
    && Collides(s, l)
    && s.consumers[s.dispatcher.consumer].pending[s.messages[0].tag] != s.messages[0]
  }

  ghost predicate NoStray(run: seq<State>, ls: seq<Label>)
    requires IsRun(run, ls)
  {
    forall i :: 0 <= i < |ls| ==> !Stray(run[i], ls[i])
  }

  ghost predicate NoCollision(run: seq<State>, ls: seq<Label>)
    requires IsRun(run, ls)
  {
    forall i :: 0 <= i < |ls| ==> !Collides(run[i], ls[i])
  }

  ghost predicate NoClobber(run: seq<State>, ls: seq<Label>)
    requires IsRun(run, ls)
  {
    forall i :: 0 <= i < |ls| ==> !Clobbers(run[i], ls[i])
  }

  function Last(run: seq<State>): State
    requires run != []
  {
    run[|run| - 1]
  }

  // ---------------------------------------------------------------- history

  predicate Extends(h: History, h': History) {
    && h.enqueued <= h'.enqueued && h.acked <= h'.acked && h.discarded <= h'.discarded
    && h.overwritten <= h'.overwritten && h.duplicated <= h'.duplicated
    && h.overwrittenAt <= h'.overwrittenAt && h.duplicatedAt <= h'.duplicatedAt
  }

  lemma StepExtends(s: State, l: Label)
    requires Enabled(s, l)
    ensures Extends(s.past, Apply(s, l).past)
  {
    match l {
      case Enqueue(m) => Grows(s.past.enqueued, multiset{m});
      case Ack(c, t) =>
        Grows(s.past.acked, if t in s.consumers[c].pending then multiset{s.consumers[c].pending[t]} else multiset{});
      case TakeDiscard(c, t) => Grows(s.past.discarded, multiset{s.consumers[c].pending[t]});
      case Dispatch =>
        var c, t := s.dispatcher.consumer, s.messages[0].tag;
        if t in s.consumers[c].pending {
          Grows(s.past.overwritten, multiset{s.consumers[c].pending[t]});
          Grows(s.past.overwrittenAt, multiset{c});
        }
      case WriteFail =>
        Grows(s.past.duplicated, multiset{s.dispatcher.msg});
        Grows(s.past.duplicatedAt, multiset{s.dispatcher.to});
      case _ =>
    }
  }

  lemma Grows<T>(a: multiset<T>, b: multiset<T>)
    ensures a <= a + b
  {
  }

  /** A stray failure or a collision leaves a mark in the history, and nothing else leaves one. */
  lemma StepMarks(s: State, l: Label)
    requires Enabled(s, l)
    ensures Apply(s, l).past.duplicated == s.past.duplicated <==> !Stray(s, l)
    ensures Apply(s, l).past.overwritten == s.past.overwritten <==> !Collides(s, l)
    ensures !Stray(s, l) ==> Apply(s, l).past.duplicatedAt == s.past.duplicatedAt
    ensures !Collides(s, l) ==> Apply(s, l).past.overwrittenAt == s.past.overwrittenAt
  {
    var h, h' := s.past, Apply(s, l).past;
    if Stray(s, l) {
      assert h'.duplicated[s.dispatcher.msg] == h.duplicated[s.dispatcher.msg] + 1;
    }
    if Collides(s, l) {
      var m := s.consumers[s.dispatcher.consumer].pending[s.messages[0].tag];
      assert h'.overwritten[m] == h.overwritten[m] + 1;
    }
  }

  lemma {:induction false} HistoryGrows(run: seq<State>, ls: seq<Label>, i: nat, j: nat)
    requires IsRun(run, ls) && i <= j < |run|
    ensures Extends(run[i].past, run[j].past)
    decreases j - i
  {
    if i < j {
      HistoryStep(run, ls, i);
      HistoryGrows(run, ls, i + 1, j);
    }
  }

  lemma HistoryStep(run: seq<State>, ls: seq<Label>, i: nat)
    requires IsRun(run, ls) && i < |ls|
    ensures Extends(run[i].past, run[i + 1].past)
  {
    assert Enabled(run[i], ls[i]);
    StepExtends(run[i], ls[i]);
  }

  lemma {:induction false} StrayIsRecorded(run: seq<State>, ls: seq<Label>)
    requires IsRun(run, ls)
    ensures NoStray(run, ls) <==> Last(run).past.duplicated == multiset{}
    ensures NoStray(run, ls) ==> Last(run).past.duplicatedAt == multiset{}
    decreases |ls|
  {
    if ls != [] {
      var n := |ls| - 1;
      RunPrefix(run, ls, n);
      StrayIsRecorded(run[..n + 1], ls[..n]);
      assert Enabled(run[n], ls[n]);
      StepExtends(run[n], ls[n]);
      StepMarks(run[n], ls[n]);
      if NoStray(run[..n + 1], ls[..n]) {
        forall i | 0 <= i < n ensures !Stray(run[i], ls[i]) {
          assert !Stray(run[..n + 1][i], ls[..n][i]);
        }
      }
    }
  }

  lemma {:induction false} CollisionIsRecorded(run: seq<State>, ls: seq<Label>)
    requires IsRun(run, ls)
    ensures NoCollision(run, ls) <==> Last(run).past.overwritten == multiset{}
    ensures NoCollision(run, ls) ==> Last(run).past.overwrittenAt == multiset{}
    decreases |ls|
  {
    if ls != [] {
      var n := |ls| - 1;
      RunPrefix(run, ls, n);
      CollisionIsRecorded(run[..n + 1], ls[..n]);
      assert Enabled(run[n], ls[n]);
      StepExtends(run[n], ls[n]);
      StepMarks(run[n], ls[n]);
      if NoCollision(run[..n + 1], ls[..n]) {
        forall i | 0 <= i < n ensures !Collides(run[i], ls[i]) {
          assert !Collides(run[..n + 1][i], ls[..n][i]);
        }
      }
    }
  }

  // ---------------------------------------------------------------- conservation

  /** The copies still owed a settlement together with the settled ones. */
  ghost function Accounted(s: State): multiset<Message> {
    multiset(s.messages) + PendAll(s.consumers) + s.held + s.past.acked + s.past.discarded
  }

  /** In every state of every run: what was enqueued, plus what stray failures put back, is queued,
      pending, held, acked, discarded or overwritten; and the two races are the only slack. */
  lemma Conservation(run: seq<State>, ls: seq<Label>, i: nat)
    requires IsRun(run, ls) && i < |run|
    ensures run[i].past.enqueued + run[i].past.duplicated == Accounted(run[i]) + run[i].past.overwritten
    ensures run[i].past.enqueued == Accounted(run[i]) <==> run[i].past.duplicated == run[i].past.overwritten
  {
    RunKeepsInv(run, ls, i);
    var s := run[i];
    BalancedForm(s);
    Cancel(s.past.enqueued, s.past.duplicated, Accounted(s), s.past.overwritten);
  }

  lemma BalancedForm(s: State)
    requires Balanced(s)
    ensures s.past.enqueued + s.past.duplicated == Accounted(s) + s.past.overwritten
  {
    forall m ensures Received(s)[m] == (Accounted(s) + s.past.overwritten)[m] {
      assert Received(s)[m] == Live(s)[m] + Gone(s)[m];
    }
  }

  lemma Cancel(e: multiset<Message>, d: multiset<Message>, a: multiset<Message>, o: multiset<Message>)
    requires e + d == a + o
    ensures e == a <==> d == o
  {
    forall m ensures e[m] + d[m] == a[m] + o[m] {
      assert (e + d)[m] == (a + o)[m];
    }
  }

  /** With one of the two races excluded, the books are exact if and only if the other is too. */
  lemma ExactConservation(run: seq<State>, ls: seq<Label>)
    requires IsRun(run, ls)
    ensures NoCollision(run, ls) ==> (Last(run).past.enqueued == Accounted(Last(run)) <==> NoStray(run, ls))
    ensures NoStray(run, ls) ==> (Last(run).past.enqueued == Accounted(Last(run)) <==> NoCollision(run, ls))
  {
    Conservation(run, ls, |run| - 1);
    StrayIsRecorded(run, ls);
    CollisionIsRecorded(run, ls);
  }

  ghost function TotalInflight(cs: seq<Consumer>): int {
    if cs == [] then 0 else TotalInflight(cs[..|cs| - 1]) + cs[|cs| - 1].inflight
  }

  lemma {:induction false} InflightIsPending(cs: seq<Consumer>)
    requires forall i :: 0 <= i < |cs| ==> Booked(cs[i]) && cs[i].inflight == |cs[i].pending|
    ensures TotalInflight(cs) == |PendAll(cs)|
  {
    if cs != [] {
      InflightIsPending(cs[..|cs| - 1]);
      PendSize(cs[|cs| - 1]);
    }
  }

  /** The enqueued copies at rest, in a run without the two races, are as many as those queued, in flight,
      acked and discarded. */
  lemma HistoryAtRest(run: seq<State>, ls: seq<Label>)
    requires IsRun(run, ls) && NoStray(run, ls) && NoCollision(run, ls)
    requires Last(run).held == multiset{}
    ensures var s := Last(run);
            |s.past.enqueued|
            == |s.messages| + TotalInflight(s.consumers) + |s.past.acked| + |s.past.discarded|
  {
    var s := Last(run);
    ExactConservation(run, ls);
    forall i | 0 <= i < |s.consumers| ensures Booked(s.consumers[i]) && s.consumers[i].inflight == |s.consumers[i].pending| {
      ConsumerBooks(run, ls, |run| - 1, i);
    }
    InflightIsPending(s.consumers);
  }

  // ---------------------------------------------------------------- consumer bookkeeping

  /** Every consumer in every run: the tag set is the key set, entries are filed under their own
      tag, the counter never exceeds the prefetch, and it is off by exactly the two races, so that the
      messages held can exceed the prefetch by the stray failures suffered and no more. Without the
      races the counter counts the pending messages. */
  lemma ConsumerBooks(run: seq<State>, ls: seq<Label>, i: nat, c: nat)
    requires IsRun(run, ls) && i < |run| && c < |run[i].consumers|
    ensures var x := run[i].consumers[c];
            && Booked(x)
            && x.inflight <= x.prefetch == PREFETCH
            && x.inflight + run[i].past.duplicatedAt[c] == |x.pending| + run[i].past.overwrittenAt[c]
            && |x.pending| <= PREFETCH + run[i].past.duplicatedAt[c]
    ensures NoStray(run, ls) && NoCollision(run, ls) ==>
              0 <= run[i].consumers[c].inflight == |run[i].consumers[c].pending| <= PREFETCH
  {
    RunKeepsInv(run, ls, i);
    assert ConsumerOk(run[i], c);
    if NoStray(run, ls) && NoCollision(run, ls) {
      StrayIsRecorded(run, ls);
      CollisionIsRecorded(run, ls);
      HistoryGrows(run, ls, i, |run| - 1);
    }
  }

  // ---------------------------------------------------------------- at least once

  /** Every enqueued copy is settled or still live. */
  ghost predicate NothingLost(s: State) {
    forall m :: m in s.past.enqueued ==> m in s.past.acked || m in s.past.discarded || m in Live(s)
  }

  /** A step loses a copy only by clobbering it. */
  lemma StepLosesNothing(s: State, l: Label)
    requires Inv(s) && Enabled(s, l) && !Clobbers(s, l) && NothingLost(s)
    ensures NothingLost(Apply(s, l))
  {
    var s' := Apply(s, l);
    StepKeepsInv(s, l);
    StepExtends(s, l);
    forall m | m in s'.past.enqueued
      ensures m in s'.past.acked || m in s'.past.discarded || m in Live(s')
    {
      if l.Dispatch? {
        DispatchKeeps(s, m);
      } else {
        KeptUnlessCollision(s, l, m);
      }
    }
  }

  lemma KeptUnlessCollision(s: State, l: Label, m: Message)
    requires Inv(s) && Enabled(s, l) && Inv(Apply(s, l)) && !l.Dispatch? && NothingLost(s)
    requires m in Apply(s, l).past.enqueued
    ensures m in Apply(s, l).past.acked || m in Apply(s, l).past.discarded || m in Live(Apply(s, l))
  {
    StepExtends(s, l);
    StepMarks(s, l);
    Retained(s, Apply(s, l), m);
  }

  /** Between two balanced states with the same overwrites, a copy that is not settled stays live. */
  lemma Retained(s: State, s': State, m: Message)
    requires Balanced(s) && Balanced(s') && IdsOk(s) && NothingLost(s) && Extends(s.past, s'.past)
    requires s'.past.overwritten == s.past.overwritten && m in s'.past.enqueued
    ensures m in s'.past.acked || m in s'.past.discarded || m in Live(s')
  {
    assert Received(s)[m] == Live(s)[m] + Gone(s)[m];
    assert Received(s')[m] == Live(s')[m] + Gone(s')[m];
    assert s.past.acked[m] <= s'.past.acked[m] && s.past.discarded[m] <= s'.past.discarded[m];
    assert s.past.enqueued[m] <= s'.past.enqueued[m] && s.past.duplicated[m] <= s'.past.duplicated[m];
  }

  lemma DispatchKeeps(s: State, m: Message)
    requires Inv(s) && Enabled(s, Dispatch) && !Clobbers(s, Dispatch) && NothingLost(s)
    requires m in s.past.enqueued
    ensures m in s.past.acked || m in s.past.discarded || m in Live(DoDispatch(s))
  {
    if m in Live(s) {
      if m == s.messages[0] {
        DispatchedIsPending(s);
      } else {
        OthersStay(s, m);
      }
    }
  }

  lemma DispatchedIsPending(s: State)
    requires Inv(s) && Enabled(s, Dispatch)
    ensures s.messages[0] in Live(DoDispatch(s))
  {
    var s', h, c := DoDispatch(s), s.messages[0], s.dispatcher.consumer;
    assert s'.consumers[c].pending[h.tag] == h;
    assert h in Pend(s'.consumers[c]);
    PendAllHas(s'.consumers, c);
  }

  lemma OthersStay(s: State, m: Message)
    requires Inv(s) && Enabled(s, Dispatch) && !Clobbers(s, Dispatch)
    requires m in Live(s) && m != s.messages[0]
    ensures m in Live(DoDispatch(s))
  {
    var s' := DoDispatch(s);
    DispatchBalance(s);
    assert Received(s)[m] == Live(s)[m] + Gone(s)[m];
    assert Received(s')[m] == Live(s')[m] + Gone(s')[m];
    OverwritesOnlyIt(s, m);
  }

  lemma OverwritesOnlyIt(s: State, m: Message)
    requires Enabled(s, Dispatch) && !Clobbers(s, Dispatch) && m != s.messages[0]
    ensures DoDispatch(s).past == s.past.(overwritten := DoDispatch(s).past.overwritten, overwrittenAt := DoDispatch(s).past.overwrittenAt)
    ensures DoDispatch(s).past.overwritten[m] == s.past.overwritten[m]
  {
  }

  /** In the queue, in the hands of a requeueing nack, or pending at a registered consumer under its own tag. */
  ghost predicate Placed(s: State, m: Message) {
    || m in s.messages
    || m in s.held
    || exists c :: c in s.registered && c < |s.consumers| && m.tag in s.consumers[c].pending
                   && s.consumers[c].pending[m.tag] == m
  }

  lemma {:induction false} Holder(cs: seq<Consumer>, m: Message) returns (c: nat)
    requires m in PendAll(cs)
    ensures c < |cs| && m in Pend(cs[c])
  {
    var n := |cs| - 1;
    if m in Pend(cs[n]) {
      c := n;
    } else {
      c := Holder(cs[..n], m);
    }
  }

  lemma LiveIsPlaced(s: State, m: Message)
    requires ConsumersOk(s) && m in Live(s)
    ensures Placed(s, m)
  {
    if m !in s.messages && m !in s.held {
      var c := Holder(s.consumers, m);
      assert ConsumerOk(s, c);
      PendAt(s.consumers[c], m.tag);
    }
  }

  /** At-least-once over every run, stray failures included, provided no dispatch clobbers: every copy ever
      enqueued is settled or has its place. */
  lemma AtLeastOnce(run: seq<State>, ls: seq<Label>, m: Message)
    requires IsRun(run, ls) && NoClobber(run, ls) && m in Last(run).past.enqueued
    ensures m in Last(run).past.acked || m in Last(run).past.discarded || Placed(Last(run), m)
  {
    RunLosesNothing(run, ls);
    RunKeepsInv(run, ls, |run| - 1);
    if m in Live(Last(run)) {
      LiveIsPlaced(Last(run), m);
    }
  }

  lemma {:induction false} RunLosesNothing(run: seq<State>, ls: seq<Label>)
    requires IsRun(run, ls) && NoClobber(run, ls)
    ensures NothingLost(Last(run))
    decreases |ls|
  {
    if ls != [] {
      var n := |ls| - 1;
      RunPrefix(run, ls, n);
      forall i | 0 <= i < n ensures !Clobbers(run[..n + 1][i], ls[..n][i]) {
        assert !Clobbers(run[i], ls[i]);
      }
      RunLosesNothing(run[..n + 1], ls[..n]);
      RunKeepsInv(run, ls, n);
      assert Enabled(run[n], ls[n]) && !Clobbers(run[n], ls[n]);
      StepLosesNothing(run[n], ls[n]);
    }
  }

  /** Races or not, in every state of every run an enqueued copy is settled or has its place if and only if it was
      overwritten no more often than a stray failure put it back. */
  lemma LostIffOverwrittenMore(run: seq<State>, ls: seq<Label>, i: nat, m: Message)
    requires IsRun(run, ls) && i < |run| && m in run[i].past.enqueued
    ensures m in run[i].past.acked || m in run[i].past.discarded || Placed(run[i], m)
            <==> run[i].past.overwritten[m] <= run[i].past.duplicated[m]
  {
    var s := run[i];
    RunKeepsInv(run, ls, i);
    assert Received(s)[m] == Live(s)[m] + Gone(s)[m];
    assert m in s.past.enqueued + s.minted;
    if Placed(s, m) {
      PlacedIsLive(s, m);
    }
    if m in Live(s) {
      LiveIsPlaced(s, m);
    }
  }

  lemma PlacedIsLive(s: State, m: Message)
    requires Placed(s, m)
    ensures m in Live(s)
  {
    if m !in s.messages && m !in s.held {
      var c: nat :| c in s.registered && c < |s.consumers| && m.tag in s.consumers[c].pending && s.consumers[c].pending[m.tag] == m;
      PendAllHas(s.consumers, c);
      assert m in Pend(s.consumers[c]);
    }
  }

  /** Where no write fails astray the condition is exact: nothing is lost iff nothing collided. */
  lemma LostIffCollided(run: seq<State>, ls: seq<Label>)
    requires IsRun(run, ls) && NoStray(run, ls)
    ensures NothingLost(Last(run)) <==> NoCollision(run, ls)
  {
    RunKeepsInv(run, ls, |run| - 1);
    StrayIsRecorded(run, ls);
    CollisionIsRecorded(run, ls);
    LostIffOverwritten(Last(run));
  }

  /** Without stray failures every enqueued copy is in exactly one place. */
  lemma InOnePlace(s: State, m: Message)
    requires Inv(s) && s.past.duplicated == multiset{}
    ensures Live(s)[m] + s.past.acked[m] + s.past.discarded[m] + s.past.overwritten[m] == s.past.enqueued[m] <= 1
  {
    assert Received(s)[m] == Live(s)[m] + Gone(s)[m];
    assert m in s.past.enqueued ==> m in s.past.enqueued + s.minted;
  }

  lemma LostIffOverwritten(s: State)
    requires Inv(s) && s.past.duplicated == multiset{}
    ensures NothingLost(s) <==> s.past.overwritten == multiset{}
  {
    if m :| m in s.past.overwritten {
      InOnePlace(s, m);
    }
    if s.past.overwritten == multiset{} {
      forall m | m in s.past.enqueued ensures m in s.past.acked || m in s.past.discarded || m in Live(s) {
        InOnePlace(s, m);
      }
    }
  }

  /** Without stray failures a settled copy never comes back and is settled once only. */
  lemma SettledForGood(run: seq<State>, ls: seq<Label>, i: nat, j: nat, m: Message)
    requires IsRun(run, ls) && NoStray(run, ls) && i <= j < |run|
    requires m in run[i].past.acked + run[i].past.discarded
    ensures m !in Live(run[j])
    ensures (run[j].past.acked + run[j].past.discarded)[m] == 1
  {
    var s := run[j];
    RunKeepsInv(run, ls, j);
    HistoryGrows(run, ls, i, j);
    HistoryGrows(run, ls, j, |run| - 1);
    StrayIsRecorded(run, ls);
    assert s.past.duplicated == multiset{};
    assert Received(s)[m] == Live(s)[m] + Gone(s)[m];
    assert m in s.past.enqueued + s.minted;
  }

  // ---------------------------------------------------------------- closed consumers

  lemma StepKeepsUnregistered(s: State, l: Label, c: nat)
    requires Enabled(s, l) && c < |s.consumers| && c !in s.registered
    ensures c < |Apply(s, l).consumers| && c !in Apply(s, l).registered
  {
  }

  /** Once a consumer is unregistered it never holds a message again, and it is never registered again. */
  lemma {:induction false} UnregisteredForGood(run: seq<State>, ls: seq<Label>, i: nat, j: nat, c: nat)
    requires IsRun(run, ls) && i <= j < |run|
    requires c < |run[i].consumers| && c !in run[i].registered
    ensures c < |run[j].consumers| && c !in run[j].registered && run[j].consumers[c].pending == map[]
    decreases j
  {
    if i < j {
      UnregisteredForGood(run, ls, i, j - 1, c);
      assert Enabled(run[j - 1], ls[j - 1]);
      StepKeepsUnregistered(run[j - 1], ls[j - 1], c);
    }
    RunKeepsInv(run, ls, j);
    assert ConsumerOk(run[j], c);
  }
}
