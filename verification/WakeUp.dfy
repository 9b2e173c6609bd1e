/** Lost wake-ups: when a sleeping dispatcher can be relied on to be woken.

    The dispatcher is the only goroutine that waits on a queue's condition variable. Every other
    step that creates work takes the queue lock first and signals after releasing it; a nack
    without requeue lowers the inflight count under the consumer's lock alone, so it can fall
    between the dispatcher's look at that consumer and the dispatcher's going to sleep. */
module WakeUp {
  import opened Messages
  import opened ConsumerSpec
  import opened QueueProtocol
  import opened QueueInvariant
  import opened DeliveryGuarantees
  import TagWindow

  /** There is a message to deliver and a registered consumer to deliver it to. */
  ghost predicate Work(s: State) {
    && s.messages != []
    && exists c :: c in s.registered && c < |s.consumers| && Free(s.consumers[c])
  }

  /** Some goroutine still owes the queue a signal, now or after putting its message back. */
  predicate SignalOwed(s: State) {
    s.owed > 0 || s.held != multiset{}
  }

  /** Asleep, with work to do, and nobody going to say so. */
  ghost predicate Stuck(s: State) {
    s.dispatcher.Waiting? && Work(s) && !SignalOwed(s)
  }

  /** A nack without requeue at a consumer the running scan has already found full, while no
      requeueing nack is on its way. */
  predicate Slips(s: State, l: Label) {
    l.TakeDiscard? && s.dispatcher.Scanning? && l.c in s.dispatcher.seen && s.held == multiset{}
  }

  ghost predicate NoSlip(run: seq<State>, ls: seq<Label>)
    requires IsRun(run, ls)
  {
    forall i :: 0 <= i < |ls| ==> !Slips(run[i], ls[i])
  }

  /** The inductive form: a consumer found full and free again has a nack about to put its message back,
      and that nack cannot finish before the scan gives up the queue lock. */
  ghost predicate Watched(s: State) {
    !Stuck(s) && ScanCovered(s)
  }

  /** Passed consumers that are free again are covered by a nack about to put its message back. */
  ghost predicate ScanCovered(s: State) {
    s.dispatcher.Scanning? ==>
      forall c :: c in s.dispatcher.seen && c < |s.consumers| && Free(s.consumers[c]) ==> s.held != multiset{}
  }

  lemma ScanCoveredKept(s: State, l: Label)
    requires Inv(s) && Enabled(s, l) && ScanCovered(s) && !Slips(s, l)
    ensures ScanCovered(Apply(s, l))
  {
    if l.TakeRequeue? {
      assert s.consumers[l.c].pending[l.tag] in Apply(s, l).held;
    }
  }

  lemma StuckOnlyBySleeping(s: State, l: Label)
    requires Inv(s) && Enabled(s, l) && Watched(s)
    ensures !Stuck(Apply(s, l))
  {
    OnlySleepFull(s, l);
  }

  lemma SlipBreaksWatch(s: State, l: Label)
    requires Inv(s) && Enabled(s, l) && Slips(s, l)
    ensures !ScanCovered(Apply(s, l))
  {
    assert ConsumerOk(s, l.c);
    assert Free(Apply(s, l).consumers[l.c]);
  }

  /** A step keeps the dispatcher watched if and only if it is not a slip. */
  lemma WatchedIffNoSlip(s: State, l: Label)
    requires Inv(s) && Enabled(s, l) && Watched(s)
    ensures Watched(Apply(s, l)) <==> !Slips(s, l)
  {
    StuckOnlyBySleeping(s, l);
    if Slips(s, l) {
      SlipBreaksWatch(s, l);
    } else {
      ScanCoveredKept(s, l);
    }
  }

  /** In every run without a slip, a sleeping dispatcher with work to do is still owed a signal. */
  lemma {:induction false} NoLostWakeUp(run: seq<State>, ls: seq<Label>, i: nat)
    requires IsRun(run, ls) && NoSlip(run, ls) && i < |run|
    ensures !Stuck(run[i])
    ensures Watched(run[i])
  {
    if i > 0 {
      NoLostWakeUp(run, ls, i - 1);
      RunKeepsInv(run, ls, i - 1);
      assert Enabled(run[i - 1], ls[i - 1]) && !Slips(run[i - 1], ls[i - 1]);
      WatchedIffNoSlip(run[i - 1], ls[i - 1]);
    }
  }

  // ---------------------------------------------------------------- exactly when a wake-up is lost

  /** A slip at step `j`, and the scan it fell into is still going on in state `i`. */
  ghost predicate SlippedAt(run: seq<State>, ls: seq<Label>, j: nat, i: nat)
    requires IsRun(run, ls) && i < |run|
  {
    j < i && Slips(run[j], ls[j]) && forall n :: j < n <= i ==> run[n].dispatcher.Scanning?
  }

  /** Step `i` goes to sleep at the end of a scan that a nack slipped into, when the signal of that nack and all
      others have been spent and no nack is about to put a message back. */
  ghost predicate FatalSleep(run: seq<State>, ls: seq<Label>, i: nat)
    requires IsRun(run, ls) && i < |ls|
  {
    && ls[i] == SleepFull && run[i].owed == 0 && run[i].held == multiset{}
    && exists j: nat :: SlippedAt(run, ls, j, i)
  }

  /** While a scan goes on, registrations stand, a free consumer stays free, and nacks in flight stay in flight. */
  lemma ScanStep(s: State, l: Label, c: nat)
    requires Inv(s) && Enabled(s, l) && s.dispatcher.Scanning? && Apply(s, l).dispatcher.Scanning? && c < |s.consumers|
    ensures var s' := Apply(s, l);
            && s'.registered == s.registered && s.dispatcher.seen <= s'.dispatcher.seen && c < |s'.consumers|
            && (Free(s.consumers[c]) ==> Free(s'.consumers[c]))
            && (s'.held == multiset{} ==> s.held == multiset{})
            && (c in s'.dispatcher.seen && Free(s'.consumers[c]) && s'.held == multiset{} ==>
                  c in s.dispatcher.seen && (Free(s.consumers[c]) || Slips(s, l)))
  {
    if l.TakeRequeue? {
      assert s.consumers[l.c].pending[l.tag] in Apply(s, l).held;
    }
  }

  /** A consumer passed by the scan and free now was freed by a slip into this scan. */
  lemma {:induction false} FreeMeansSlip(run: seq<State>, ls: seq<Label>, i: nat, c: nat) returns (j: nat)
    requires IsRun(run, ls) && i < |run| && run[i].dispatcher.Scanning? && run[i].held == multiset{}
    requires c in run[i].dispatcher.seen && c < |run[i].consumers| && Free(run[i].consumers[c])
    ensures SlippedAt(run, ls, j, i)
  {
    var n := i - 1;
    assert Enabled(run[n], ls[n]) && run[i] == Apply(run[n], ls[n]);
    RunKeepsInv(run, ls, n);
    assert run[n].dispatcher.Scanning? && c < |run[n].consumers| by {
      ScanBegan(run[n], ls[n], c);
    }
    ScanStep(run[n], ls[n], c);
    if Free(run[n].consumers[c]) {
      j := FreeMeansSlip(run, ls, n, c);
    } else {
      j := n;
    }
  }

  /** A scan that has passed somebody did not begin with this step. */
  lemma ScanBegan(s: State, l: Label, c: nat)
    requires Inv(s) && Enabled(s, l) && Apply(s, l).dispatcher.Scanning? && c in Apply(s, l).dispatcher.seen
    ensures s.dispatcher.Scanning? && c < |s.consumers|
  {
  }

  /** A consumer freed by a slip is registered and free until the scan ends. */
  lemma {:induction false} SlipStaysFree(run: seq<State>, ls: seq<Label>, j: nat, i: nat)
    requires IsRun(run, ls) && i < |run| && SlippedAt(run, ls, j, i)
    ensures var c := ls[j].c; c in run[i].registered && c < |run[i].consumers| && Free(run[i].consumers[c])
    decreases i
  {
    var n, c := i - 1, ls[j].c;
    assert Enabled(run[n], ls[n]) && run[i] == Apply(run[n], ls[n]);
    RunKeepsInv(run, ls, n);
    if j == n {
      assert ConsumerOk(run[n], c);
    } else {
      SlipStaysFree(run, ls, j, n);
    }
    ScanStep(run[n], ls[n], c);
  }

  /** Only going to sleep at the end of a scan can leave the dispatcher stuck. */
  lemma OnlySleepFull(s: State, l: Label)
    requires Inv(s) && Enabled(s, l) && !Stuck(s)
    ensures Stuck(Apply(s, l)) ==> l == SleepFull && s.owed == 0 && s.held == multiset{}
  {
    if l.TakeRequeue? {
      assert s.consumers[l.c].pending[l.tag] in Apply(s, l).held;
    }
  }

  /** A step leaves the dispatcher stuck, in any run, if and only if it is a fatal sleep. */
  lemma StuckIffFatalSleep(run: seq<State>, ls: seq<Label>, i: nat)
    requires IsRun(run, ls) && i < |ls| && !Stuck(run[i])
    ensures Stuck(run[i + 1]) <==> FatalSleep(run, ls, i)
  {
    var s := run[i];
    RunKeepsInv(run, ls, i);
    assert Enabled(s, ls[i]) && run[i + 1] == Apply(s, ls[i]);
    if Stuck(run[i + 1]) {
      OnlySleepFull(s, ls[i]);
      var c :| c in run[i + 1].registered && c < |run[i + 1].consumers| && Free(run[i + 1].consumers[c]);
      var j := FreeMeansSlip(run, ls, i, c);
    }
    if FatalSleep(run, ls, i) {
      var j: nat :| SlippedAt(run, ls, j, i);
      SlipStaysFree(run, ls, j, i);
      assert ls[j].c in run[i + 1].registered && Free(run[i + 1].consumers[ls[j].c]);
    }
  }

  /** A run loses no wake-up if and only if it has no fatal sleep. */
  lemma {:induction false} NeverStuckIff(run: seq<State>, ls: seq<Label>, k: nat)
    requires IsRun(run, ls) && k < |run|
    ensures (forall i :: 0 <= i <= k ==> !Stuck(run[i])) <==> (forall i :: 0 <= i < k ==> !FatalSleep(run, ls, i))
  {
    if k > 0 {
      NeverStuckIff(run, ls, k - 1);
      if !Stuck(run[k - 1]) {
        StuckIffFatalSleep(run, ls, k - 1);
      }
    }
  }

  /** So a nack that slips into a scan that has found everybody full, with no other nack in flight, is fatal if its
      signal comes before the dispatcher sleeps, and harmless if it comes after. */
  lemma SlipLosesItsSignal(s: State, c: nat, t: Tag)
    requires Inv(s) && s.dispatcher == Scanning(s.registered) && s.owed == 0 && s.held == multiset{}
    requires c in s.registered && c < |s.consumers| && t in s.consumers[c].pending
    ensures Enabled(s, TakeDiscard(c, t)) && Slips(s, TakeDiscard(c, t))
    ensures var s1 := Apply(s, TakeDiscard(c, t));
            && Enabled(s1, Signal) && Enabled(s1, SleepFull)
            && Enabled(Apply(s1, Signal), SleepFull) && Stuck(Apply(Apply(s1, Signal), SleepFull))
            && !Stuck(Apply(s1, SleepFull)) && Enabled(Apply(s1, SleepFull), Signal)
            && Apply(Apply(s1, SleepFull), Signal).dispatcher == Checking
  {
    assert ConsumerOk(s, c);
    var s1 := Apply(s, TakeDiscard(c, t));
    var s3 := Apply(Apply(s1, Signal), SleepFull);
    assert c in s3.registered && Free(s3.consumers[c]);
  }

  // ---------------------------------------------------------------- such a state is reached

  /** One consumer with `k` deliveries pending, nothing queued, no signal owed. */
  ghost predicate Loaded(s: State, k: nat) {
    && s.messages == [] && |s.consumers| == 1 && s.registered == {0} && s.dispatcher == Checking
    && s.consumers[0].inflight == k && s.consumers[0].prefetch == PREFETCH
    && s.nextId == k && s.minted == multiset{} && s.held == multiset{} && s.owed == 0
    && (k > 0 ==> 1 in s.consumers[0].pending)
  }

  /** Publish one message: it is queued, its signal finds the dispatcher awake. */
  lemma PublishOne(run: seq<State>, ls: seq<Label>, k: nat) returns (run': seq<State>, ls': seq<Label>)
    requires IsRun(run, ls) && Loaded(Last(run), k)
    ensures IsRun(run', ls')
    ensures Last(run') == Last(run).(nextId := k + 1, messages := [Message(k, TagOf(k), [], "", "")], past := Last(run').past)
  {
    var m;
    run', ls', m := TagWindow.PublishNext(run, ls, k);
    run', ls' := TagWindow.Extend(run', ls', Signal);
  }

  /** The dispatcher hands the only message to the only consumer. */
  lemma DispatchOne(run: seq<State>, ls: seq<Label>, k: nat) returns (run': seq<State>, ls': seq<Label>)
    requires IsRun(run, ls) && k < PREFETCH && Last(run).messages == [Message(k, TagOf(k), [], "", "")]
    requires Loaded(Last(run).(messages := [], nextId := k), k) && Last(run).nextId == k + 1
    ensures IsRun(run', ls') && Loaded(Last(run'), k + 1)
  {
    run', ls' := TagWindow.Extend(run, ls, StartScan);
    run', ls' := TagWindow.Extend(run', ls', Look(0));
    run', ls' := TagWindow.Extend(run', ls', Dispatch);
    run', ls' := TagWindow.Extend(run', ls', WriteOk);
  }

  lemma {:induction false} Load(k: nat) returns (run: seq<State>, ls: seq<Label>)
    requires k <= PREFETCH
    ensures IsRun(run, ls) && Loaded(Last(run), k)
  {
    if k == 0 {
      run, ls := [Initial()], [];
      run, ls := TagWindow.Extend(run, ls, Register);
      run, ls := TagWindow.Extend(run, ls, Signal);
    } else {
      run, ls := Load(k - 1);
      run, ls := PublishOne(run, ls, k - 1);
      run, ls := DispatchOne(run, ls, k - 1);
    }
  }

  /** One consumer with ten deliveries pending and an eleventh message: the scan has found it full. */
  lemma FullScan() returns (run: seq<State>, ls: seq<Label>)
    ensures IsRun(run, ls) && Inv(Last(run)) && Last(run).dispatcher == Scanning(Last(run).registered)
    ensures Last(run).owed == 0 && Last(run).held == multiset{} && Last(run).registered == {0}
    ensures |Last(run).consumers| == 1 && 1 in Last(run).consumers[0].pending
  {
    run, ls := Load(PREFETCH);
    run, ls := PublishOne(run, ls, PREFETCH);
    run, ls := TagWindow.Extend(run, ls, StartScan);
    run, ls := TagWindow.Extend(run, ls, Look(0));
    RunKeepsInv(run, ls, |run| - 1);
  }

  /** The program does lose a wake-up: eleven messages, one consumer, one nack without requeue. */
  lemma WakeUpLost() returns (run: seq<State>, ls: seq<Label>)
    ensures IsRun(run, ls) && ls != [] && Stuck(Last(run)) && FatalSleep(run, ls, |ls| - 1)
  {
    run, ls := FullScan();
    SlipLosesItsSignal(Last(run), 0, 1);
    run, ls := TagWindow.Extend(run, ls, TakeDiscard(0, 1));
    run, ls := TagWindow.Extend(run, ls, Signal);
    run, ls := TagWindow.Extend(run, ls, SleepFull);
    StuckIffFatalSleep(run, ls, |ls| - 1);
  }
}
