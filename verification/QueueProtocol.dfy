/** One broker queue as a labelled transition system.

    Each lock-protected section of the program is one step. The dispatcher goroutine has a program
    counter. It keeps the queue lock from the emptiness test to the choice of a consumer, while it
    reads one consumer after another, so no other step that needs the queue lock falls in between.
    Nacks take their message under the consumer's lock alone and do fall in between. Connection
    goroutines appear through what they have in flight: copies whose tag is allocated but which are
    not yet enqueued, messages taken by a requeueing nack and not yet put back, and signals still
    owed. Any number of each may be in flight at once. */
module QueueProtocol {
  import opened Messages
  import opened ConsumerSpec

  datatype Dispatcher =
    | Checking                              // about to lock the queue
    | Scanning(seen: set<nat>)              // queue lock held, `seen` were read and found full
    | Chosen(consumer: nat)                 // queue lock held, a free consumer was found
    | Waiting                               // asleep on the condition variable
    | Delivering(msg: Message, to: nat)     // no lock held, writing

  /** What has happened to copies so far. `overwritten` are pending entries lost to a dispatch that
      reused their tag; `duplicated` are copies put back by a failed write that no longer found
      them pending. */
  datatype History = History(
    enqueued: multiset<Message>,
    acked: multiset<Message>,
    discarded: multiset<Message>,
    overwritten: multiset<Message>,
    duplicated: multiset<Message>,
    overwrittenAt: multiset<nat>,
    duplicatedAt: multiset<nat>)

  /** Consumers are numbered in order of creation; an unregistered one keeps its number. */
  datatype State = State(
    messages: seq<Message>,
    consumers: seq<Consumer>,
    registered: set<nat>,
    nextId: nat,
    minted: multiset<Message>,
    held: multiset<Message>,
    owed: nat,
    dispatcher: Dispatcher,
    past: History)

  datatype Label =
    | Allocate(body: Bytes, exchange: string, routingKey: string)
    | Enqueue(m: Message)
    | Register
    | Unregister(c: nat, order: seq<Message>)
    | Ack(c: nat, tag: Tag)
    | TakeRequeue(c: nat, tag: Tag)
    | Put(m: Message)
    | TakeDiscard(c: nat, tag: Tag)
    | Signal
    | SleepEmpty
    | StartScan
    | Look(c: nat)
    | SleepFull
    | Dispatch
    | WriteOk
    | WriteFail

  function Initial(): State {
    State([], [], {}, 0, multiset{}, multiset{}, 0, Checking,
          History(multiset{}, multiset{}, multiset{}, multiset{}, multiset{}, multiset{}, multiset{}))
  }

  /** The dispatcher holds the queue lock. */
  predicate Locked(s: State) {
    s.dispatcher.Scanning? || s.dispatcher.Chosen?
  }

  ghost predicate Enabled(s: State, l: Label) {
    match l
    case Allocate(_, _, _) => !Locked(s)
    case Enqueue(m) => !Locked(s) && m in s.minted
    case Register => !Locked(s)
    case Unregister(c, order) =>
      !Locked(s) && c in s.registered && c < |s.consumers| && multiset(order) == Pend(s.consumers[c])
    case Ack(c, t) =>
      !Locked(s) && c in s.registered && c < |s.consumers| && t in s.consumers[c].tags
    case TakeRequeue(c, t) => c < |s.consumers| && t in s.consumers[c].pending
    case Put(m) => !Locked(s) && m in s.held
    case TakeDiscard(c, t) => c < |s.consumers| && t in s.consumers[c].pending
    case Signal => s.owed > 0
    case SleepEmpty => s.dispatcher.Checking? && s.messages == []
    case StartScan => s.dispatcher.Checking? && s.messages != []
    case Look(c) => s.dispatcher.Scanning? && c in s.registered - s.dispatcher.seen && c < |s.consumers|
    case SleepFull => s.dispatcher.Scanning? && s.dispatcher.seen == s.registered
    case Dispatch => s.dispatcher.Chosen? && s.messages != [] && s.dispatcher.consumer < |s.consumers|
    case WriteOk => s.dispatcher.Delivering?
    case WriteFail => s.dispatcher.Delivering? && s.dispatcher.to < |s.consumers|
  }

  function DoAllocate(s: State, body: Bytes, exchange: string, routingKey: string): State {
    s.(nextId := s.nextId + 1,
       minted := s.minted + multiset{Message(s.nextId, TagOf(s.nextId), body, exchange, routingKey)})
  }

  function DoEnqueue(s: State, m: Message): State {
    s.(messages := s.messages + [m],
       minted := s.minted - multiset{m},
       owed := s.owed + 1,
       past := s.past.(enqueued := s.past.enqueued + multiset{m}))
  }

  function DoRegister(s: State): State {
    s.(consumers := s.consumers + [Fresh()],
       registered := s.registered + {|s.consumers|},
       owed := s.owed + 1)
  }

  function DoUnregister(s: State, c: nat, order: seq<Message>): State
    requires c < |s.consumers|
  {
    s.(messages := order + s.messages,
       consumers := s.consumers[c := Drain(s.consumers[c])],
       registered := s.registered - {c},
       owed := s.owed + 1)
  }

  function DoSettle(s: State, c: nat, t: Tag): State
    requires c < |s.consumers|
  {
    s.(consumers := s.consumers[c := Settle(s.consumers[c], t)])
  }

  /** The ack looks the tag up in the tag set and deletes whatever message is filed under it. */
  function DoAck(s: State, c: nat, t: Tag): State
    requires c < |s.consumers|
  {
    var entry := if t in s.consumers[c].pending then multiset{s.consumers[c].pending[t]} else multiset{};
    DoSettle(s, c, t).(owed := s.owed + 1, past := s.past.(acked := s.past.acked + entry))
  }

  function DoTakeRequeue(s: State, c: nat, t: Tag): State
    requires c < |s.consumers| && t in s.consumers[c].pending
  {
    DoSettle(s, c, t).(held := s.held + multiset{s.consumers[c].pending[t]})
  }

  function DoPut(s: State, m: Message): State {
    s.(messages := [m] + s.messages, held := s.held - multiset{m}, owed := s.owed + 1)
  }

  function DoTakeDiscard(s: State, c: nat, t: Tag): State
    requires c < |s.consumers| && t in s.consumers[c].pending
  {
    DoSettle(s, c, t).(owed := s.owed + 1,
                       past := s.past.(discarded := s.past.discarded + multiset{s.consumers[c].pending[t]}))
  }

  function DoSignal(s: State): State
    requires s.owed > 0
  {
    s.(owed := s.owed - 1, dispatcher := if s.dispatcher.Waiting? then Checking else s.dispatcher)
  }

  function DoLook(s: State, c: nat): State
    requires c < |s.consumers| && s.dispatcher.Scanning?
  {
    s.(dispatcher := if Free(s.consumers[c]) then Chosen(c) else Scanning(s.dispatcher.seen + {c}))
  }

  function DoDispatch(s: State): State
    requires s.dispatcher.Chosen? && s.messages != [] && s.dispatcher.consumer < |s.consumers|
  {
    var m, c := s.messages[0], s.dispatcher.consumer;
    var past := if m.tag in s.consumers[c].pending
                then s.past.(overwritten := s.past.overwritten + multiset{s.consumers[c].pending[m.tag]},
                             overwrittenAt := s.past.overwrittenAt + multiset{c})
                else s.past;
    s.(messages := s.messages[1..],
       consumers := s.consumers[c := Mark(s.consumers[c], m)],
       dispatcher := Delivering(m, c),
       past := past)
  }

  /** The message goes back to the front whether or not its entry is still there. */
  function DoWriteFail(s: State): State
    requires s.dispatcher.Delivering? && s.dispatcher.to < |s.consumers|
  {
    var m, c := s.dispatcher.msg, s.dispatcher.to;
    var past := if m.tag in s.consumers[c].pending then s.past
                else s.past.(duplicated := s.past.duplicated + multiset{m},
                             duplicatedAt := s.past.duplicatedAt + multiset{c});
    DoSettle(s, c, m.tag).(messages := [m] + s.messages, dispatcher := Checking, past := past)
  }

  ghost function Apply(s: State, l: Label): State
    requires Enabled(s, l)
  {
    match l
    case Allocate(b, e, k) => DoAllocate(s, b, e, k)
    case Enqueue(m) => DoEnqueue(s, m)
    case Register => DoRegister(s)
    case Unregister(c, order) => DoUnregister(s, c, order)
    case Ack(c, t) => DoAck(s, c, t)
    case TakeRequeue(c, t) => DoTakeRequeue(s, c, t)
    case Put(m) => DoPut(s, m)
    case TakeDiscard(c, t) => DoTakeDiscard(s, c, t)
    case Signal => DoSignal(s)
    case SleepEmpty => s.(dispatcher := Waiting)
    case StartScan => s.(dispatcher := Scanning({}))
    case Look(c) => DoLook(s, c)
    case SleepFull => s.(dispatcher := Waiting)
    case Dispatch => DoDispatch(s)
    case WriteOk => s.(dispatcher := Checking)
    case WriteFail => DoWriteFail(s)
  }

  /** `run` are the states visited by taking the steps `ls` from the initial state. */
  ghost predicate IsRun(run: seq<State>, ls: seq<Label>) {
    && |run| == |ls| + 1
    && run[0] == Initial()
    && forall i :: 0 <= i < |ls| ==> Enabled(run[i], ls[i]) && run[i + 1] == Apply(run[i], ls[i])
  }

  lemma RunPrefix(run: seq<State>, ls: seq<Label>, n: nat)
    requires IsRun(run, ls) && n <= |ls|
    ensures IsRun(run[..n + 1], ls[..n])
  {
    var r, k := run[..n + 1], ls[..n];
    forall i | 0 <= i < |k| ensures Enabled(r[i], k[i]) && r[i + 1] == Apply(r[i], k[i]) {
      assert Enabled(run[i], ls[i]) && run[i + 1] == Apply(run[i], ls[i]);
    }
  }

  /** All messages pending at some consumer. */
  ghost function PendAll(cs: seq<Consumer>): multiset<Message> {
    if cs == [] then multiset{} else PendAll(cs[..|cs| - 1]) + Pend(cs[|cs| - 1])
  }

  lemma Swap(a: multiset<Message>, b: multiset<Message>, c: multiset<Message>)
    ensures a + b + c == a + c + b
  {
  }

  lemma {:induction false} PendAllUpdate(cs: seq<Consumer>, c: nat, x: Consumer)
    requires c < |cs|
    ensures PendAll(cs[c := x]) + Pend(cs[c]) == PendAll(cs) + Pend(x)
  {
    var n := |cs| - 1;
    if c == n {
      assert cs[c := x][..n] == cs[..n];
      Swap(PendAll(cs[..n]), Pend(x), Pend(cs[n]));
    } else {
      assert cs[c := x][..n] == cs[..n][c := x];
      PendAllUpdate(cs[..n], c, x);
      Swap(PendAll(cs[..n][c := x]), Pend(cs[n]), Pend(cs[c]));
      Swap(PendAll(cs[..n]), Pend(cs[n]), Pend(x));
    }
  }

  lemma PendAllAppend(cs: seq<Consumer>, x: Consumer)
    ensures PendAll(cs + [x]) == PendAll(cs) + Pend(x)
  {
    assert (cs + [x])[..|cs|] == cs;
  }

  lemma {:induction false} PendAllHas(cs: seq<Consumer>, c: nat)
    requires c < |cs|
    ensures Pend(cs[c]) <= PendAll(cs)
  {
    var n := |cs| - 1;
    if c < n {
      assert cs[..n][c] == cs[c];
      PendAllHas(cs[..n], c);
    }
  }

  /** Copies the broker still owes a settlement: queued, pending, or held by a nack. */
  ghost function Live(s: State): multiset<Message> {
    multiset(s.messages) + PendAll(s.consumers) + s.held
  }
}
