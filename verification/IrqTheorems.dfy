/**
 What holds in every reachable state: any number of threads and CPUs, any interleaving, signals
 and re-arming included unless a statement says otherwise.
 */
module IrqTheorems {
  import opened Options
  import opened StatusWord
  import opened IrqHistory
  import opened IrqMachine
  import opened IrqSteps
  import opened IrqInvariant
  import opened IrqCalls

  // ---------- refinement ----------

  lemma ReachableLegal(s: State)
    requires Reachable(s)
    ensures Replay(s.log).Some? && s.waiting == Bit(Replay(s.log).value.armed)
  {
    ReachableInv(s);
  }

  /**
   The small steps refine the one-shot machine: the history is one that indivisible operations
   could produce, its committed events alternate, and the flags in memory are what it left behind.
   */
  lemma RefinesOneShot(s: State)
    requires Reachable(s)
    ensures Replay(s.log).Some?
    ensures Alternates(CommittedOf(s.log))
    ensures s.waiting == (if LastIs(CommittedOf(s.log), IsArm) then 1 else 0)
    ensures s.lock == None ==>
              s.cancelled == (if LastIs(CommittedOf(s.log), IsCancel) then 1 else 0)
  {
    ReachableInv(s);
    LegalHistoryAlternates(s.log);
  }

  /** Every step stutters, or is exactly one operation of the one-shot machine or a mark. */
  lemma StepRefines(s: State, a: Action)
    requires Reachable(s) && Enabled(s, a)
    ensures var s' := Exec(s, a);
            && Replay(s.log).Some?
            && (s'.log == s.log
                || (AppendsOne(s.log, s'.log)
                    && Replay(s'.log) == Apply(Replay(s.log).value, s'.log[|s.log|])
                    && Replay(s'.log).Some?))
  {
    var s' := Exec(s, a);
    ReachableLegal(s);
    ReachableStep(s, a, s');
    ReachableLegal(s');
    LogStep(s, a);
    AppendedEvent(s.log, s'.log);
  }

  lemma AppendedEvent(before: seq<Event>, after: seq<Event>)
    requires Replay(before).Some?
    ensures AppendsOne(before, after) ==>
              Replay(after) == Apply(Replay(before).value, after[|before|])
  {
    if AppendsOne(before, after) {
      assert after == before + [after[|before|]];
      ReplayAppend(before, after[|before|]);
    }
  }

  /** No request is completed twice and none is lost: arms are completions plus the open one. */
  lemma Conservation(s: State)
    requires Reachable(s)
    ensures Count(s.log, IsArm) == Count(s.log, IsNotify) + Count(s.log, IsCancel) + s.waiting
  {
    ReachableLegal(s);
    LegalHistoryConserves(s.log);
  }

  /** At most one context is in a critical section. */
  lemma MutualExclusion(s: State, x: Ctx, y: Ctx)
    requires Reachable(s) && InCritical(s, x) && InCritical(s, y)
    ensures x == y
  {
    ReachableInv(s);
  }

  predicate InCritical(s: State, x: Ctx) {
    match x
    case InThread(t) => t < |s.threads| && Holds(s.threads[t].pc)
    case InHandler(c) => c < |s.handlers| && HandlerHolds(s.handlers[c])
  }

  // ---------- wake-ups ----------

  /**
   No lost wake-up.  A thread asleep, or committed to sleep after its last look, while
   waiting_for_irq is clear, is in the queue and some handler or CANCEL still has its wake-up to
   perform, which will reach it.
   */
  lemma NoLostWakeup(s: State, t: Tid)
    requires Reachable(s) && CommittedToSleep(s, t) && s.waiting == 0
    ensures t in s.queue
    ensures exists x :: OwesWake(s, x)
  {
    ReachableInv(s);
  }

  lemma WakeupReaches(s: State, a: Action, t: Tid)
    requires Reachable(s) && Enabled(s, a) && Wakes(s, a) && CommittedToSleep(s, t)
    ensures var s' := Exec(s, a);
            && !CommittedToSleep(s', t) && !Asleep(s', t)
            && t < |s'.threads| && s'.threads[t] == s.threads[t]
    ensures Exec(s, a).interruptible == {}
    ensures forall u: Tid :: u in Exec(s, a).queue <==> u in s.queue && u !in s.interruptible
  {
    ReachableInv(s);
    WakeEmpties(s, a);
    if a.StepThread? {
      ThreadEffects(s, a.t);
    } else {
      HandlerFrame(s, a.c);
    }
  }

  /**
   The same for one request, whatever else is armed or not: a waiter committed to sleep whose own
   request was completed is owed a wake-up, unless somebody has armed again since.
   */
  lemma OwnWakeup(s: State, t: Tid)
    requires Reachable(s) && CommittedToSleep(s, t)
    requires CompletedAfter(s.log, s.threads[t].at) && NoArmAfter(s.log, s.threads[t].at)
    ensures t in s.queue
    ensures exists x :: OwesWake(s, x)
  {
    assert Armed(s.threads[t].pc);
    UnlockedLook(s, t);
    assert s.waiting == 0;
    NoLostWakeup(s, t);
  }

  // ---------- outcomes ----------

  /** A WAIT that armed a request and returned. */
  ghost predicate Waited(s: State, r: Result) {
    r in s.results && r.op == OpWait && r.code != EAlready
  }

  /** The result names what completed the request. */
  ghost predicate NamesOutcome(log: seq<Event>, r: Result) {
    && (r.code == Zero <==> NotifiedIn(log, r.at))
    && (r.code == ECanceled <==> CancelledIn(log, r.at))
  }

  /**
   With no other arm before it returns, WAIT returns 0 exactly when a handler completed its request
   and -ECANCELED exactly when a CANCEL did, if and only if the request was completed at all when
   irq_cancelled was read; and without a signal it always was.
   */
  lemma ExactOutcome(s: State, r: Result)
    requires Reachable(s) && Waited(s, r)
    requires r.end <= |s.log| && NoArmAfter(s.log[..r.end], r.at)
    ensures NamesOutcome(s.log[..r.end], r) <==> CompletedAfter(s.log[..r.end], r.at)
    ensures !r.signalled ==> CompletedAfter(s.log[..r.end], r.at)
  {
    ReachableInv(s);
    var log := s.log[..r.end];
    assert ResultOk(log, r);
    if NotifiedIn(log, r.at) {
      var j :| r.at < j < |log| && log[j].Notify?;
      assert Completes(log[j]);
    }
    if CancelledIn(log, r.at) {
      var j :| r.at < j < |log| && log[j].Cancel?;
      assert Completes(log[j]);
    }
  }

  /**
   The outcome in every run, signals and any number of other arms included: the code of a WAIT
   names the event that completed its request if and only if the last store of irq_cancelled since
   then, if there was one, agrees with it.  A later WAIT's store hides a CANCEL, and a later
   CANCEL's store makes a notified WAIT look cancelled.
   */
  lemma OutcomeExactly(s: State, r: Result, c: nat)
    requires Reachable(s) && Waited(s, r)
    requires r.end <= |s.log| && FirstCompletion(s.log[..r.end], r.at, c)
    ensures NoArmAfter(s.log[..c + 1], r.at)
    ensures r.code == ECanceled <==> StoredFlag(s.log[..r.end]) == 1
    ensures Names(r.code, s.log[c]) <==> !LastStoreIs(s.log[..r.end], c + 1, s.log[c].Notify?)
    ensures NoArmAfter(s.log[..r.end], r.at) ==> Names(r.code, s.log[c])
  {
    assert ResultInHistory(s.log, r) by {
      ReachableInv(s);
    }
    OutcomeInHistory(s.log, r, c);
  }

  /** Without a signal every WAIT has such a completion, so its outcome is settled by it. */
  lemma UnsignalledOutcome(s: State, r: Result) returns (c: nat)
    requires Reachable(s) && Waited(s, r) && !r.signalled
    ensures r.end <= |s.log| && FirstCompletion(s.log[..r.end], r.at, c)
    ensures Names(r.code, s.log[c]) <==> !LastStoreIs(s.log[..r.end], c + 1, s.log[c].Notify?)
  {
    Causality(s, r);
    FirstCompletionExists(s.log[..r.end], r.at);
    c :| FirstCompletion(s.log[..r.end], r.at, c);
    OutcomeExactly(s, r, c);
  }

  /**
   The look at waiting_for_irq without the lock is exact for the waiter that armed last: it sees
   the flag clear exactly when its own request was completed.
   */
  lemma UnlockedLook(s: State, t: Tid)
    requires Reachable(s) && t < |s.threads| && Armed(s.threads[t].pc)
    ensures s.threads[t].at < |s.log|
    ensures s.waiting == 0 ==> CompletedAfter(s.log, s.threads[t].at)
    ensures NoArmAfter(s.log, s.threads[t].at) ==>
              (s.waiting == 0 <==> CompletedAfter(s.log, s.threads[t].at))
  {
    ReachableInv(s);
    assert CallOk(s.log, t, s.threads[t]);
    LookInHistory(s.log, s.threads[t].at);
  }

  lemma LookInHistory(log: seq<Event>, k: nat)
    requires Replay(log).Some? && k < |log| && log[k].Arm?
    ensures !Replay(log).value.armed ==> CompletedAfter(log, k)
    ensures NoArmAfter(log, k) && CompletedAfter(log, k) ==> !Replay(log).value.armed
  {
    if !Replay(log).value.armed {
      DisarmedMeansCompleted(log, k);
    }
    if NoArmAfter(log, k) {
      RequestWindow(log, k);
    }
  }

  /** Between an Arm and the next there is at most one completion, whoever made it. */
  lemma OneCompletion(s: State, k: nat, i: nat, j: nat)
    requires Reachable(s) && k < i <= j < |s.log|
    requires s.log[k].Arm? && NoArmAfter(s.log[..j + 1], k)
    requires Completes(s.log[i]) && Completes(s.log[j])
    ensures i == j
  {
    ReachableLegal(s);
    AtMostOneCompletion(s.log, k, i, j);
  }

  /**
   What the lock-free read of irq_cancelled sees, in every run: the outcome of the last completed
   request, except inside two critical sections.  A CANCEL between its two stores shows its flag
   early; a WAIT between its two stores still shows the flag from before its own request.
   */
  lemma UnlockedRead(s: State)
    requires Reachable(s)
    ensures s.cancelled == 1 <==>
            match HolderPc(s)
            case Cancelling(CancelStoreDone) => true
            case Waiting(WaitClearCancel) =>
              LastIs(CommittedOf(s.log[..HolderAt(s)]), IsCancel)
            case _ => LastIs(CommittedOf(s.log), IsCancel)
  {
    assert FlagsOk(s) by {
      ReachableInv(s);
    }
    LegalHistoryAlternates(s.log);
    if HolderPc(s) == Waiting(WaitClearCancel) {
      LegalHistoryAlternates(s.log[..HolderAt(s)]);
    }
  }

  /** The holding thread's place in the code, and User when no thread holds the lock. */
  function HolderPc(s: State): Pc {
    if s.lock.Some? && s.lock.value.InThread? && s.lock.value.t < |s.threads|
    then s.threads[s.lock.value.t].pc else User
  }

  function HolderAt(s: State): (at: nat)
    ensures at <= |s.log|
  {
    if s.lock.Some? && s.lock.value.InThread? && s.lock.value.t < |s.threads|
       && s.threads[s.lock.value.t].at <= |s.log|
    then s.threads[s.lock.value.t].at else 0
  }

  /**
   Any number of waiters: -ECANCELED means a CANCEL passed its check after that waiter's own arm,
   and without a signal any return means some request was completed after that arm.
   */
  lemma Causality(s: State, r: Result)
    requires Reachable(s) && Waited(s, r)
    ensures r.at < r.end <= |s.log| && s.log[r.at] == Arm(r.t)
    ensures r.code == ECanceled ==> CancelPassedAfter(s.log[..r.end], r.at)
    ensures !r.signalled ==> CompletedAfter(s.log[..r.end], r.at)
  {
    ReachableInv(s);
  }

  /** Even before it returns: a waiter past its loop with no signal has seen a completion. */
  lemma LeavingLoop(s: State, t: Tid)
    requires Reachable(s) && t < |s.threads|
    requires s.threads[t].pc == Waiting(WaitRead) && !s.threads[t].signalled
    ensures s.threads[t].at < |s.log| && s.log[s.threads[t].at] == Arm(t)
    ensures CompletedAfter(s.log, s.threads[t].at)
  {
    ReachableInv(s);
    assert CallOk(s.log, t, s.threads[t]);
  }

  // ---------- a request left behind ----------

  /** The thread is still in the WAIT whose arm is at k. */
  predicate StillWaits(s: State, t: Tid, k: nat) {
    t < |s.threads| && Armed(s.threads[t].pc) && s.threads[t].at == k
  }

  /** The WAIT whose arm is at k has returned, after a signal. */
  ghost predicate LeftBySignal(s: State, r: Result, k: nat) {
    Waited(s, r) && r.at == k && r.signalled
  }

  /**
   Whose request it is that is armed: a thread is still in the WAIT that made it, or that WAIT
   returned because of a signal and left it behind.
   */
  lemma ArmedBySomebody(s: State, k: nat)
    requires Reachable(s) && s.waiting == 1
    requires k < |s.log| && s.log[k].Arm? && NoArmAfter(s.log, k)
    ensures || (exists t: Tid :: StillWaits(s, t, k))
            || (exists r :: LeftBySignal(s, r, k))
  {
    EveryEventHasItsCall(s, k);
    if i :| 0 <= i < |s.results| && s.results[i].at == k {
      ArmedResult(s, s.results[i], k);
    } else {
      var t: Tid :| ClaimedByThread(s, k, t);
      assert CallOk(s.log, t, s.threads[t]) by {
        ReachableInv(s);
      }
      assert StillWaits(s, t, k);
    }
  }

  lemma CompletedEarlier(log: seq<Event>, end: nat, k: nat)
    requires end <= |log|
    ensures CompletedAfter(log[..end], k) ==> CompletedAfter(log, k)
  {
    AfterGrows(log[..end], log[end..], k);
    assert log[..end] + log[end..] == log;
  }

  lemma ArmedResult(s: State, r: Result, k: nat)
    requires Reachable(s) && s.waiting == 1 && r in s.results && r.at == k
    requires k < |s.log| && s.log[k].Arm? && NoArmAfter(s.log, k)
    ensures LeftBySignal(s, r, k)
  {
    ReachableLegal(s);
    ReachableResult(s, r);
    assert Waited(s, r);
    Causality(s, r);
    CompletedEarlier(s.log, r.end, k);
    RequestWindow(s.log, k);
  }

  /**
   A WAIT that returned has left its request armed exactly when nothing has completed it; it then
   returned because of a signal.
   */
  lemma LeftArmedExactly(s: State, r: Result)
    requires Reachable(s) && Waited(s, r)
    ensures s.waiting == 1 && NoArmAfter(s.log, r.at) <==> !CompletedAfter(s.log, r.at)
    ensures !CompletedAfter(s.log, r.at) ==> r.signalled
  {
    ReachableLegal(s);
    Causality(s, r);
    LookInHistory(s.log, r.at);
    if !CompletedAfter(s.log, r.at) {
      ArmedUntilCompleted(s.log, r.at, |s.log|);
      assert s.log[..|s.log|] == s.log;
    }
    CompletedEarlier(s.log, r.end, r.at);
  }

  // ---------- refusals ----------

  /**
   WAIT is refused exactly when, at its own event, the last committed event is an Arm, and CANCEL
   exactly when it is not.
   */
  lemma RefusalExact(s: State, r: Result)
    requires Reachable(s) && r in s.results
    ensures r.at < |s.log|
    ensures var before := CommittedOf(s.log[..r.at]);
            match r.op
            case OpWait => r.code == EAlready <==> LastIs(before, IsArm)
            case OpCancel => r.code == EAlready <==> !LastIs(before, IsArm)
  {
    ReachableResult(s, r);
    EventFindsObject(s.log, r.at);
  }

  lemma ReachableResult(s: State, r: Result)
    requires Reachable(s) && r in s.results
    ensures Replay(s.log).Some? && r.at < r.end <= |s.log|
    ensures match r.op
            case OpCancel =>
              && (r.code == EAlready ==> s.log[r.at].CancelRefused?)
              && (r.code != EAlready ==> s.log[r.at].Cancel?)
            case OpWait =>
              && (r.code == EAlready ==> s.log[r.at].WaitRefused?)
              && (r.code != EAlready ==> s.log[r.at].Arm?)
  {
    ReachableInv(s);
    assert ResultOk(s.log[..r.end], r);
  }

  /** Between the check under the lock and the event it leads to, nobody commits anything. */
  lemma CheckIsSettled(s: State, t: Tid)
    requires Reachable(s) && t < |s.threads|
    ensures s.threads[t].pc == Waiting(WaitStoreArm) ==> !LastIs(CommittedOf(s.log), IsArm)
    ensures s.threads[t].pc == Cancelling(CancelStoreFlag) ==> LastIs(CommittedOf(s.log), IsArm)
    ensures s.threads[t].pc == Cancelling(CancelStoreDone) ==> LastIs(CommittedOf(s.log), IsArm)
  {
    ReachableInv(s);
    LegalHistoryAlternates(s.log);
    assert CheckHolds(s.threads[t].pc, Replay(s.log).value);
  }

  /** The steps a refused call makes. */
  predicate RefusedStep(s: State, t: Tid)
    requires t < |s.threads|
  {
    match s.threads[t].pc
    case User => false
    case Waiting(w) =>
      || w.WaitSpin? || w.WaitRefuseUnlock? || w.WaitRefuseRestore?
      || (w.WaitCheck? && s.waiting == 1)
    case Cancelling(x) =>
      || x.CancelSpin? || x.CancelRefuseUnlock? || x.CancelRefuseRestore?
      || (x.CancelCheck? && s.waiting == 0)
  }

  /** A refusal in a legal place changes neither the object nor the committed events. */
  lemma RefusalInHistory(log: seq<Event>, e: Event)
    requires Replay(log).Some? && (e.WaitRefused? || e.CancelRefused?)
    requires e.WaitRefused? <==> Replay(log).value.armed
    ensures CommittedOf(log + [e]) == CommittedOf(log) && Replay(log + [e]) == Replay(log)
  {
    ReplayAppend(log, e);
    assert (log + [e])[..|log|] == log;
  }

  /** A refused call leaves the flags, the queue and the committed events as they were. */
  lemma RefusedChangesNothing(s: State, t: Tid)
    requires Reachable(s) && t < |s.threads| && RefusedStep(s, t) && Enabled(s, StepThread(t))
    ensures var s' := Exec(s, StepThread(t));
            && s'.waiting == s.waiting && s'.cancelled == s.cancelled
            && s'.queue == s.queue && s'.interruptible == s.interruptible
            && s'.status == s.status && s'.handlers == s.handlers
            && CommittedOf(s'.log) == CommittedOf(s.log)
            && Replay(s'.log) == Replay(s.log)
  {
    ReachableLegal(s);
    if s.threads[t].pc == Waiting(WaitCheck) {
      RefusalInHistory(s.log, WaitRefused(t));
    } else if s.threads[t].pc == Cancelling(CancelCheck) {
      RefusalInHistory(s.log, CancelRefused(t));
    }
  }

  // ---------- each decision belongs to one call ----------

  /** No event is the outcome of two calls, whoever made them. */
  lemma OneCallPerEvent(s: State, k: nat, l: nat)
    requires Reachable(s) && k < l < |s.results|
    ensures s.results[k].at != s.results[l].at
  {
    ReachableInv(s);
    var r, q := s.results[k], s.results[l];
    assert ResultOk(s.log[..r.end], r) && ResultOk(s.log[..q.end], q);
    assert s.log[..r.end][r.at] == s.log[r.at];
    assert s.log[..q.end][q.at] == s.log[q.at];
  }

  /** Every arm, cancel and refusal in the history is the outcome of a call made by its thread. */
  lemma EveryEventHasItsCall(s: State, i: nat)
    requires Reachable(s) && i < |s.log| && Settles(s.log[i])
    ensures || (exists k :: 0 <= k < |s.results| && s.results[k].at == i)
            || (exists t: Tid :: ClaimedByThread(s, i, t))
  {
    ReachableInv(s);
    assert Claimed(s, i);
  }

  // ---------- interrupts ----------

  /**
   No interrupt is forgotten: every interrupt bit the hardware ever raised is still latched, or is
   in the hands of a handler that has its notify attempt to make, or was followed by one.
   */
  lemma NoInterruptForgotten(s: State, i: nat)
    requires Reachable(s) && i < |s.log| && s.log[i].Raise? && s.log[i].bit in INTERRUPT_BITS
    ensures BitKept(s, i, s.log[i].bit)
  {
    ReachableInv(s);
  }

  /** A step clears only interrupt bits that its handler read before. */
  lemma OnlySeenBitsCleared(s: State, a: Action, bit: nat)
    requires Enabled(s, a) && bit in s.status && bit !in Exec(s, a).status
    ensures a.StepHandler? && s.handlers[a.c].Acknowledge?
    ensures bit in s.handlers[a.c].seen && bit in INTERRUPT_BITS
  {
    if a.StepThread? {
      ThreadEffects(s, a.t);
    }
  }

  /**
   End to end: while a request is armed, every interrupt bit raised since its arm is still latched
   or in the hands of a handler that has yet to notify.  An armed request on an idle card has had
   no interrupt.
   */
  lemma ArmedMissesNothing(s: State, k: nat, i: nat)
    requires Reachable(s) && s.waiting == 1
    requires k < i < |s.log| && s.log[k].Arm? && NoArmAfter(s.log, k)
    requires s.log[i].Raise? && s.log[i].bit in INTERRUPT_BITS
    ensures s.log[i].bit in s.status || exists c: Cpu :: OwesNotify(s, c, s.log[i].bit)
  {
    ReachableInv(s);
    var bit := s.log[i].bit;
    assert BitKept(s, i, bit);
    RequestWindow(s.log, k);
    assert forall j :: i < j < |s.log| ==> !NotifiesFor(s.log[j], bit);
  }
}
