/** What the history of a queue records, read off the steps of the run. */
module Settlements {
  import opened Messages
  import opened QueueProtocol
  import QI = QueueInvariant
  import opened DeliveryGuarantees

  /** The ways in which copies come and go. */
  datatype Ending = Enqueued | Acked | Discarded | Overwritten | Duplicated

  function Recorded(h: History, e: Ending): multiset<Message> {
    match e
    case Enqueued => h.enqueued
    case Acked => h.acked
    case Discarded => h.discarded
    case Overwritten => h.overwritten
    case Duplicated => h.duplicated
  }

  predicate HasPending(s: State, c: nat, t: Tag) {
    c < |s.consumers| && t in s.consumers[c].pending
  }

  /** The message that consumer `c` has pending under the tag. */
  function PendingAt(s: State, c: nat, t: Tag): multiset<Message> {
    if HasPending(s, c, t) then multiset{s.consumers[c].pending[t]} else multiset{}
  }

  /** The message that a step taken in `s` brings to that end. */
  function Ends(s: State, l: Label, e: Ending): multiset<Message> {
    match e
    case Enqueued => if l.Enqueue? then multiset{l.m} else multiset{}
    case Acked => if l.Ack? then PendingAt(s, l.c, l.tag) else multiset{}
    case Discarded => if l.TakeDiscard? then PendingAt(s, l.c, l.tag) else multiset{}
    case Overwritten =>
      if l.Dispatch? && s.dispatcher.Chosen? && s.messages != []
      then PendingAt(s, s.dispatcher.consumer, s.messages[0].tag) else multiset{}
    case Duplicated =>
      if l.WriteFail? && s.dispatcher.Delivering? && !HasPending(s, s.dispatcher.to, s.dispatcher.msg.tag)
      then multiset{s.dispatcher.msg} else multiset{}
  }

  /** All the messages that the first `n` steps brought to that end. */
  function Ended(run: seq<State>, ls: seq<Label>, n: nat, e: Ending): multiset<Message>
    requires n <= |run| && n <= |ls|
  {
    if n == 0 then multiset{} else Ended(run, ls, n - 1, e) + Ends(run[n - 1], ls[n - 1], e)
  }

  lemma EnqueuedStep(s: State, l: Label)
    requires Enabled(s, l)
    ensures Apply(s, l).past.enqueued == s.past.enqueued + Ends(s, l, Enqueued)
  {
  }

  lemma AckedStep(s: State, l: Label)
    requires Enabled(s, l)
    ensures Apply(s, l).past.acked == s.past.acked + Ends(s, l, Acked)
  {
  }

  lemma DiscardedStep(s: State, l: Label)
    requires Enabled(s, l)
    ensures Apply(s, l).past.discarded == s.past.discarded + Ends(s, l, Discarded)
  {
  }

  lemma OverwrittenStep(s: State, l: Label)
    requires Enabled(s, l)
    ensures Apply(s, l).past.overwritten == s.past.overwritten + Ends(s, l, Overwritten)
  {
  }

  lemma DuplicatedStep(s: State, l: Label)
    requires Enabled(s, l)
    ensures Apply(s, l).past.duplicated == s.past.duplicated + Ends(s, l, Duplicated)
  {
    if !l.WriteFail? {
      OthersDuplicateNothing(s, l);
    }
  }

  lemma OthersDuplicateNothing(s: State, l: Label)
    requires Enabled(s, l) && !l.WriteFail?
    ensures Apply(s, l).past.duplicated == s.past.duplicated
  {
  }

  lemma StepRecords(s: State, l: Label, e: Ending)
    requires Enabled(s, l)
    ensures Recorded(Apply(s, l).past, e) == Recorded(s.past, e) + Ends(s, l, e)
  {
    match e {
      case Enqueued => EnqueuedStep(s, l);
      case Acked => AckedStep(s, l);
      case Discarded => DiscardedStep(s, l);
      case Overwritten => OverwrittenStep(s, l);
      case Duplicated => DuplicatedStep(s, l);
    }
  }

  /** Over every run the history is exact: the acked messages are those that the acks found pending, the discarded
      ones those that the nacks without requeue took, and so on. */
  lemma {:induction false} HistoryIsExact(run: seq<State>, ls: seq<Label>, i: nat, e: Ending)
    requires IsRun(run, ls) && i < |run|
    ensures Recorded(run[i].past, e) == Ended(run, ls, i, e)
  {
    if i > 0 {
      HistoryIsExact(run, ls, i - 1, e);
      assert Enabled(run[i - 1], ls[i - 1]);
      StepRecords(run[i - 1], ls[i - 1], e);
    }
  }

  // ---------------------------------------------------------------- contents

  /** Step `j` asked for the copy `m`: the same body, exchange and key, and the id that was next. */
  ghost predicate AskedAt(run: seq<State>, ls: seq<Label>, j: nat, m: Message) {
    && j < |ls| && j < |run| && ls[j] == Allocate(m.body, m.exchange, m.routingKey)
    && m.id == run[j].nextId && m.tag == TagOf(m.id)
  }

  lemma {:induction false} MintedAsAsked(run: seq<State>, ls: seq<Label>, i: nat, m: Message) returns (j: nat)
    requires IsRun(run, ls) && i < |run| && m in run[i].past.enqueued + run[i].minted
    ensures j < i && AskedAt(run, ls, j, m)
  {
    assert i > 0 ==> Enabled(run[i - 1], ls[i - 1]) && run[i] == Apply(run[i - 1], ls[i - 1]);
    if m in run[i - 1].past.enqueued + run[i - 1].minted {
      j := MintedAsAsked(run, ls, i - 1, m);
    } else {
      MintStep(run[i - 1], ls[i - 1], m);
      j := i - 1;
    }
  }

  /** Only an allocation makes a copy known. */
  lemma MintStep(s: State, l: Label, m: Message)
    requires Enabled(s, l) && m !in s.past.enqueued + s.minted
    requires m in Apply(s, l).past.enqueued + Apply(s, l).minted
    ensures l == Allocate(m.body, m.exchange, m.routingKey) && m.id == s.nextId && m.tag == TagOf(m.id)
  {
    EnqueuedStep(s, l);
  }

  /** Whatever is queued, pending, held or being written is, byte for byte, what some publish asked for, under the
      id and the tag that publish was given. */
  lemma DeliveredAsPublished(run: seq<State>, ls: seq<Label>, i: nat, m: Message) returns (j: nat)
    requires IsRun(run, ls) && i < |run|
    requires m in Live(run[i]) || (run[i].dispatcher.Delivering? && run[i].dispatcher.msg == m)
    ensures j < i && AskedAt(run, ls, j, m)
  {
    QI.RunKeepsInv(run, ls, i);
    if m in Live(run[i]) {
      QI.LiveIsKnown(run[i], m);
    }
    j := MintedAsAsked(run, ls, i, m);
  }

  // ---------------------------------------------------------------- counters

  /** The step is an enqueue, an ack, or a nack without requeue: what the broker's counters count. */
  predicate Counts(l: Label, e: Ending) {
    match e
    case Enqueued => l.Enqueue?
    case Acked => l.Ack?
    case Discarded => l.TakeDiscard?
    case _ => false
  }

  function Count(ls: seq<Label>, e: Ending): nat {
    if ls == [] then 0 else Count(ls[..|ls| - 1], e) + if Counts(ls[|ls| - 1], e) then 1 else 0
  }

  lemma EndsOne(s: State, l: Label, e: Ending)
    requires QI.Inv(s) && Enabled(s, l) && (e.Enqueued? || e.Acked? || e.Discarded?)
    ensures |Ends(s, l, e)| == if Counts(l, e) then 1 else 0
  {
    if l.Ack? {
      assert QI.ConsumerOk(s, l.c);
    }
  }

  lemma SizeStep(s: State, l: Label, e: Ending)
    requires QI.Inv(s) && Enabled(s, l) && (e.Enqueued? || e.Acked? || e.Discarded?)
    ensures |Recorded(Apply(s, l).past, e)| == |Recorded(s.past, e)| + if Counts(l, e) then 1 else 0
  {
    StepRecords(s, l, e);
    EndsOne(s, l, e);
  }

  lemma RunSizeStep(run: seq<State>, ls: seq<Label>, i: nat, e: Ending)
    requires IsRun(run, ls) && i < |ls| && (e.Enqueued? || e.Acked? || e.Discarded?)
    ensures |Recorded(run[i + 1].past, e)| == |Recorded(run[i].past, e)| + if Counts(ls[i], e) then 1 else 0
  {
    QI.RunKeepsInv(run, ls, i);
    assert Enabled(run[i], ls[i]);
    SizeStep(run[i], ls[i], e);
  }

  lemma CountStep(ls: seq<Label>, n: nat, e: Ending)
    requires n < |ls|
    ensures Count(ls[..n + 1], e) == Count(ls[..n], e) + if Counts(ls[n], e) then 1 else 0
  {
    assert ls[..n + 1][..n] == ls[..n];
  }

  /** Every step that is counted settles one message. */
  lemma {:induction false} CounterIsSize(run: seq<State>, ls: seq<Label>, i: nat, e: Ending)
    requires IsRun(run, ls) && i < |run| && (e.Enqueued? || e.Acked? || e.Discarded?)
    ensures |Recorded(run[i].past, e)| == Count(ls[..i], e)
  {
    if i > 0 {
      CounterIsSize(run, ls, i - 1, e);
      RunSizeStep(run, ls, i - 1, e);
      CountStep(ls, i - 1, e);
    }
  }

  /** The broker's counters at rest, in a run without the two races: enqueues are depth plus inflight plus acks plus
      dead letters and drops. */
  lemma CountersAtRest(run: seq<State>, ls: seq<Label>)
    requires IsRun(run, ls) && NoStray(run, ls) && NoCollision(run, ls)
    requires Last(run).held == multiset{}
    ensures var s := Last(run);
            Count(ls, Enqueued) == |s.messages| + TotalInflight(s.consumers) + Count(ls, Acked) + Count(ls, Discarded)
  {
    assert ls[..|ls|] == ls;
    HistoryAtRest(run, ls);
    CounterIsSize(run, ls, |ls|, Enqueued);
    CounterIsSize(run, ls, |ls|, Acked);
    CounterIsSize(run, ls, |ls|, Discarded);
  }
}
