/** Nobody is stopped for good: the dispatcher moves on unless it sleeps, gives its lock up again, and then every
    other actor can do what it has set out to do. */
module Progress {
  import opened QueueProtocol
  import opened QueueInvariant

  predicate OfDispatcher(l: Label) {
    l.SleepEmpty? || l.StartScan? || l.Look? || l.SleepFull? || l.Dispatch? || l.WriteOk? || l.WriteFail?
  }

  /** A bound on the steps the dispatcher takes before it gives the queue lock up. */
  function Remaining(s: State): nat {
    match s.dispatcher
    case Scanning(seen) => 2 + |s.registered - seen|
    case Chosen(_) => 1
    case _ => 0
  }

  lemma LockIsReleased(s: State, l: Label)
    requires Enabled(s, l) && Locked(s) && OfDispatcher(l)
    ensures Remaining(Apply(s, l)) < Remaining(s)
    ensures Remaining(s) > 0 && (Remaining(Apply(s, l)) == 0 ==> !Locked(Apply(s, l)))
  {
    if l.Look? {
      var seen := s.dispatcher.seen;
      assert s.registered - (seen + {l.c}) == (s.registered - seen) - {l.c};
    }
  }

  /** In every reachable state the dispatcher is asleep or can step, and under the queue lock the step brings it
      closer to giving the lock up. */
  lemma DispatcherCanStep(run: seq<State>, ls: seq<Label>, i: nat) returns (l: Label)
    requires IsRun(run, ls) && i < |run| && !run[i].dispatcher.Waiting?
    ensures OfDispatcher(l) && Enabled(run[i], l)
    ensures Locked(run[i]) ==> Remaining(Apply(run[i], l)) < Remaining(run[i])
  {
    var s := run[i];
    RunKeepsInv(run, ls, i);
    match s.dispatcher {
      case Checking => l := if s.messages == [] then SleepEmpty else StartScan;
      case Scanning(seen) =>
        if c :| c in s.registered && c !in seen {
          l := Look(c);
        } else {
          assert DispatcherOk(s) && seen <= s.registered;
          l := SleepFull;
        }
      case Chosen(_) => l := Dispatch;
      case Delivering(_, _) => l := WriteOk;
    }
    if Locked(s) {
      LockIsReleased(s, l);
    }
  }

  /** With the queue lock free every publish can finish, every nack can put its message back, and every message
      pending at a registered consumer can be acked; nacks can take theirs at any time. */
  lemma ActorsCanStep(run: seq<State>, ls: seq<Label>, i: nat)
    requires IsRun(run, ls) && i < |run|
    ensures var s := run[i];
            && (!Locked(s) ==>
                 && (forall m :: m in s.minted ==> Enabled(s, Enqueue(m)))
                 && (forall m :: m in s.held ==> Enabled(s, Put(m)))
                 && (forall c, t :: c in s.registered && c < |s.consumers| && t in s.consumers[c].pending ==> Enabled(s, Ack(c, t))))
            && (forall c: nat, t :: c < |s.consumers| && t in s.consumers[c].pending ==>
                 c in s.registered && Enabled(s, TakeRequeue(c, t)) && Enabled(s, TakeDiscard(c, t)))
  {
    var s := run[i];
    RunKeepsInv(run, ls, i);
    forall c: nat, t | c < |s.consumers| && t in s.consumers[c].pending
      ensures c in s.registered && t in s.consumers[c].tags
    {
      assert ConsumerOk(s, c);
    }
  }
}
