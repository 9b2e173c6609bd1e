/** First-in first-out: in which order copies leave a queue for the first time. */
module DeliveryOrder {
  import opened Messages
  import opened ConsumerSpec
  import opened QueueProtocol
  import opened QueueInvariant

  /** The copies enqueued, in order. */
  function Arrivals(ls: seq<Label>): seq<Message> {
    if ls == [] then [] else Arrivals(ls[..|ls| - 1]) + Arrival(ls[|ls| - 1])
  }

  function Arrival(l: Label): seq<Message> {
    if l.Enqueue? then [l.m] else []
  }

  /** Step `d` hands `m` to a consumer. */
  ghost predicate DispatchesAt(run: seq<State>, ls: seq<Label>, d: nat, m: Message) {
    d < |ls| && d < |run| && ls[d].Dispatch? && run[d].messages != [] && run[d].messages[0] == m
  }

  ghost predicate DispatchedBefore(run: seq<State>, ls: seq<Label>, i: nat, m: Message) {
    exists d :: 0 <= d < i && DispatchesAt(run, ls, d, m)
  }

  /** Every copy in anybody's hands has left the queue before. */
  ghost predicate OutIsTaken(s: State, taken: set<Message>) {
    && (forall c, t :: 0 <= c < |s.consumers| && t in s.consumers[c].pending ==> s.consumers[c].pending[t] in taken)
    && (forall m :: m in s.held ==> m in taken)
    && (s.dispatcher.Delivering? ==> s.dispatcher.msg in taken)
  }

  function First(a: seq<Message>, k: nat): set<Message>
    requires k <= |a|
  {
    set i | 0 <= i < k :: a[i]
  }

  lemma FirstGrows(a: seq<Message>, b: seq<Message>, k: nat)
    requires k <= |a|
    ensures First(a + b, k) == First(a, k)
  {
    forall i | 0 <= i < k ensures (a + b)[i] == a[i] {
    }
    forall m | m in First(a, k) ensures m in First(a + b, k) {
      var i :| 0 <= i < k && a[i] == m;
      assert (a + b)[i] == m;
    }
  }

  /** The queue is some returned copies followed by the arrivals that have not left yet, in order. */
  ghost predicate Lined(s: State, front: seq<Message>, a: seq<Message>, k: nat) {
    && k <= |a| && s.messages == front + a[k..]
    && (forall m :: m in front ==> m in First(a, k))
    && OutIsTaken(s, First(a, k))
  }

  lemma EnqueueLined(s: State, m: Message, front: seq<Message>, a: seq<Message>, k: nat)
    requires Lined(s, front, a, k)
    ensures Lined(DoEnqueue(s, m), front, a + [m], k)
  {
    FirstGrows(a, [m], k);
    assert (a + [m])[k..] == a[k..] + [m];
  }

  /** Copies that come back from somebody's hands go to the front. */
  lemma ReturnLined(s: State, s': State, back: seq<Message>, front: seq<Message>, a: seq<Message>, k: nat)
    requires Lined(s, front, a, k) && s'.messages == back + s.messages && OutIsTaken(s', First(a, k))
    requires forall m :: m in back ==> m in First(a, k)
    ensures Lined(s', back + front, a, k)
  {
    assert back + (front + a[k..]) == (back + front) + a[k..];
  }

  lemma SettleOut(s: State, c: nat, t: Tag, taken: set<Message>)
    requires OutIsTaken(s, taken) && c < |s.consumers|
    ensures OutIsTaken(DoSettle(s, c, t), taken)
  {
  }

  lemma UnregisterLined(s: State, c: nat, order: seq<Message>, front: seq<Message>, a: seq<Message>, k: nat)
    requires Lined(s, front, a, k) && Enabled(s, Unregister(c, order))
    ensures Lined(DoUnregister(s, c, order), order + front, a, k)
  {
    forall m | m in order ensures m in First(a, k) {
      assert m in multiset(order);
      assert m in s.consumers[c].pending.Values;
    }
    ReturnLined(s, DoUnregister(s, c, order), order, front, a, k);
  }

  lemma PutLined(s: State, m: Message, front: seq<Message>, a: seq<Message>, k: nat)
    requires Lined(s, front, a, k) && Enabled(s, Put(m))
    ensures Lined(DoPut(s, m), [m] + front, a, k)
  {
    ReturnLined(s, DoPut(s, m), [m], front, a, k);
  }

  lemma WriteFailLined(s: State, front: seq<Message>, a: seq<Message>, k: nat)
    requires Lined(s, front, a, k) && Enabled(s, WriteFail)
    ensures Lined(DoWriteFail(s), [s.dispatcher.msg] + front, a, k)
  {
    SettleOut(s, s.dispatcher.to, s.dispatcher.msg.tag, First(a, k));
    ReturnLined(s, DoWriteFail(s), [s.dispatcher.msg], front, a, k);
  }

  /** A dispatch takes a returned copy if there is one, else the next arrival. */
  lemma DispatchLined(s: State, front: seq<Message>, a: seq<Message>, k: nat) returns (front': seq<Message>, k': nat)
    requires Lined(s, front, a, k) && Enabled(s, Dispatch)
    ensures Lined(DoDispatch(s), front', a, k')
    ensures k' == k || (k' == k + 1 && k < |a| && s.messages[0] == a[k])
  {
    var m := s.messages[0];
    if front != [] {
      front', k' := front[1..], k;
      assert m == front[0];
      assert s.messages[1..] == front' + a[k..];
    } else {
      front', k' := [], k + 1;
      assert m == a[k] && s.messages[1..] == a[k'..];
      assert First(a, k') == First(a, k) + {m};
    }
    DispatchOut(s, First(a, k), First(a, k'));
  }

  lemma DispatchOut(s: State, taken: set<Message>, taken': set<Message>)
    requires OutIsTaken(s, taken) && Enabled(s, Dispatch) && taken <= taken' && s.messages[0] in taken'
    ensures OutIsTaken(DoDispatch(s), taken')
  {
  }

  lemma StepLined(s: State, l: Label, front: seq<Message>, a: seq<Message>, k: nat)
    returns (front': seq<Message>, k': nat)
    requires Enabled(s, l) && Lined(s, front, a, k)
    ensures Lined(Apply(s, l), front', a + Arrival(l), k')
    ensures k' == k || (k' == k + 1 && l.Dispatch? && k < |a| && s.messages[0] == a[k])
  {
    front', k' := front, k;
    assert l.Enqueue? || a + Arrival(l) == a;
    match l {
      case Enqueue(m) => EnqueueLined(s, m, front, a, k);
      case Unregister(c, order) =>
        UnregisterLined(s, c, order, front, a, k);
        front' := order + front;
      case Ack(c, t) => SettleOut(s, c, t, First(a, k));
      case TakeRequeue(c, t) => SettleOut(s, c, t, First(a, k));
      case TakeDiscard(c, t) => SettleOut(s, c, t, First(a, k));
      case Put(m) =>
        PutLined(s, m, front, a, k);
        front' := [m] + front;
      case Dispatch => front', k' := DispatchLined(s, front, a, k);
      case WriteFail =>
        WriteFailLined(s, front, a, k);
        front' := [s.dispatcher.msg] + front;
      case _ =>
    }
  }

  /** In every state of every run: the queue is returned copies followed by the arrivals from some point on, in
      order, and every arrival before that point has been dispatched. */
  lemma {:induction false} RunLined(run: seq<State>, ls: seq<Label>, i: nat) returns (front: seq<Message>, k: nat)
    requires IsRun(run, ls) && i < |run|
    ensures Lined(run[i], front, Arrivals(ls[..i]), k)
    ensures forall j :: 0 <= j < k ==> DispatchedBefore(run, ls, i, Arrivals(ls[..i])[j])
  {
    if i == 0 {
      front, k := [], 0;
    } else {
      var front0, k0 := RunLined(run, ls, i - 1);
      front, k := Onward(run, ls, i - 1, front0, k0);
      DispatchedOnward(run, ls, i - 1, i, k0, k);
    }
  }

  lemma ArrivalsStep(ls: seq<Label>, n: nat)
    requires n < |ls|
    ensures Arrivals(ls[..n + 1]) == Arrivals(ls[..n]) + Arrival(ls[n])
  {
    assert ls[..n + 1][..n] == ls[..n];
  }

  lemma Onward(run: seq<State>, ls: seq<Label>, n: nat, front: seq<Message>, k: nat)
    returns (front': seq<Message>, k': nat)
    requires IsRun(run, ls) && n < |ls| && Lined(run[n], front, Arrivals(ls[..n]), k)
    ensures Lined(run[n + 1], front', Arrivals(ls[..n + 1]), k')
    ensures k' == k || (k' == k + 1 && k < |Arrivals(ls[..n])| && DispatchesAt(run, ls, n, Arrivals(ls[..n])[k]))
  {
    ArrivalsStep(ls, n);
    assert Enabled(run[n], ls[n]);
    front', k' := StepLined(run[n], ls[n], front, Arrivals(ls[..n]), k);
  }

  lemma DispatchedOnward(run: seq<State>, ls: seq<Label>, n: nat, i: nat, k: nat, k': nat)
    requires n < |ls| && i == n + 1 && k <= |Arrivals(ls[..n])|
    requires forall j :: 0 <= j < k ==> DispatchedBefore(run, ls, n, Arrivals(ls[..n])[j])
    requires k' == k || (k' == k + 1 && k < |Arrivals(ls[..n])| && DispatchesAt(run, ls, n, Arrivals(ls[..n])[k]))
    ensures k' <= |Arrivals(ls[..i])|
    ensures forall j :: 0 <= j < k' ==> DispatchedBefore(run, ls, i, Arrivals(ls[..i])[j])
  {
    ArrivalsStep(ls, n);
    var a := Arrivals(ls[..n]);
    forall j | 0 <= j < k' ensures DispatchedBefore(run, ls, i, Arrivals(ls[..i])[j]) {
      assert Arrivals(ls[..i])[j] == a[j];
      if j < k {
        var d :| 0 <= d < n && DispatchesAt(run, ls, d, a[j]);
      }
    }
  }

  /** No copy is enqueued twice. */
  lemma {:induction false} ArrivalsAreHistory(run: seq<State>, ls: seq<Label>, i: nat)
    requires IsRun(run, ls) && i < |run|
    ensures multiset(Arrivals(ls[..i])) == run[i].past.enqueued
  {
    if i > 0 {
      ArrivalsAreHistory(run, ls, i - 1);
      assert Enabled(run[i - 1], ls[i - 1]);
      EnqueuedStep(run[i - 1], ls[i - 1]);
      ArrivalsStep(ls, i - 1);
    }
  }

  lemma EnqueuedStep(s: State, l: Label)
    requires Enabled(s, l)
    ensures Apply(s, l).past.enqueued == s.past.enqueued + multiset(Arrival(l))
  {
  }

  lemma CountTwice(a: seq<Message>, x: nat, y: nat)
    requires x < y < |a| && a[x] == a[y]
    ensures multiset(a)[a[x]] >= 2
  {
    assert a == a[..y] + [a[y]] + a[y + 1..];
    assert a[x] in a[..y];
  }

  lemma ArrivalsDistinct(run: seq<State>, ls: seq<Label>, i: nat, x: nat, y: nat)
    requires IsRun(run, ls) && i < |run| && x < y < |Arrivals(ls[..i])|
    ensures Arrivals(ls[..i])[x] != Arrivals(ls[..i])[y]
  {
    var a := Arrivals(ls[..i]);
    ArrivalsAreHistory(run, ls, i);
    RunKeepsInv(run, ls, i);
    assert a[x] in multiset(a);
    assert a[x] in run[i].past.enqueued + run[i].minted;
    if a[x] == a[y] {
      CountTwice(a, x, y);
    }
  }

  lemma SameArrival(run: seq<State>, ls: seq<Label>, i: nat, x: nat, y: nat)
    requires IsRun(run, ls) && i < |run| && x < |Arrivals(ls[..i])| && y < |Arrivals(ls[..i])|
    requires Arrivals(ls[..i])[x] == Arrivals(ls[..i])[y]
    ensures x == y
  {
    if x < y {
      ArrivalsDistinct(run, ls, i, x, y);
    } else if y < x {
      ArrivalsDistinct(run, ls, i, y, x);
    }
  }

  /** Nothing overtakes: over every run, with any failures, nacks and unregistrations, a copy is dispatched only
      after every copy enqueued before it has been dispatched at least once. */
  lemma NoOvertaking(run: seq<State>, ls: seq<Label>, d: nat, x: nat, y: nat)
    requires IsRun(run, ls) && d < |ls| && x < y < |Arrivals(ls[..d])|
    requires DispatchesAt(run, ls, d, Arrivals(ls[..d])[y])
    ensures DispatchedBefore(run, ls, d, Arrivals(ls[..d])[x])
  {
    var a := Arrivals(ls[..d]);
    var front, k := RunLined(run, ls, d);
    if front != [] {
      assert front[0] in First(a, k);
      var j :| 0 <= j < k && a[j] == front[0];
      SameArrival(run, ls, d, j, y);
    } else {
      SameArrival(run, ls, d, k, y);
    }
  }
}
