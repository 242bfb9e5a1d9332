/**
 Runs that show why the exact outcome of WAIT needs its conditions: the driver ignores that a
 signal ended the wait, and it reads irq_cancelled after other threads may have stored it again.
 */
module IrqCounterexamples {
  import opened Options
  import opened StatusWord
  import opened IrqHistory
  import opened IrqMachine
  import opened IrqInvariant
  import opened IrqCalls

  // ---------- calls that nobody interferes with ----------

  function At(s: State, t: Tid, pc: Pc, at: nat): seq<Thread>
    requires t < |s.threads|
  {
    s.threads[t := s.threads[t].(pc := pc, at := at)]
  }

  /** A WAIT alone in the driver takes the lock. */
  lemma WaitEnters(s: State, t: Tid)
    requires Reachable(s) && Running(s, t) && s.threads[t].pc == User && s.lock == None
    ensures Reachable(s.(lock := Some(InThread(t)),
                         threads := At(s, t, Waiting(WaitCheck), s.threads[t].at)))
  {
    var at := s.threads[t].at;
    var s1 := s.(threads := At(s, t, Waiting(WaitSpin), at));
    assert Reachable(s1) by { ReachableStep(s, CallWait(t), s1); }
    ReachableStep(s1, StepThread(t),
                  s.(lock := Some(InThread(t)), threads := At(s, t, Waiting(WaitCheck), at)));
  }

  lemma WaitStores(s: State, t: Tid)
    requires Reachable(s) && Running(s, t) && s.threads[t].pc == Waiting(WaitCheck)
    requires s.waiting == 0
    ensures Reachable(s.(waiting := 1, cancelled := 0, log := s.log + [Arm(t), ClearFlag(t)],
                         threads := At(s, t, Waiting(WaitUnlock), |s.log|)))
  {
    var s1 := s.(threads := At(s, t, Waiting(WaitStoreArm), s.threads[t].at));
    var s2 := s.(waiting := 1, log := s.log + [Arm(t)],
                 threads := At(s, t, Waiting(WaitClearCancel), |s.log|));
    assert s2.log + [ClearFlag(t)] == s.log + [Arm(t), ClearFlag(t)];
    assert Reachable(s1) by { ReachableStep(s, StepThread(t), s1); }
    assert Reachable(s2) by { ReachableStep(s1, StepThread(t), s2); }
    ReachableStep(s2, StepThread(t),
                  s2.(cancelled := 0, log := s2.log + [ClearFlag(t)],
                      threads := At(s, t, Waiting(WaitUnlock), |s.log|)));
  }

  lemma WaitUnlocks(s: State, t: Tid)
    requires Reachable(s) && Running(s, t) && s.threads[t].pc == Waiting(WaitUnlock)
    ensures Reachable(s.(lock := None,
                         threads := At(s, t, Waiting(WaitFirstCheck), s.threads[t].at)))
  {
    var at := s.threads[t].at;
    var s1 := s.(lock := None, threads := At(s, t, Waiting(WaitRestore), at));
    assert Reachable(s1) by { ReachableStep(s, StepThread(t), s1); }
    ReachableStep(s1, StepThread(t), s1.(threads := At(s, t, Waiting(WaitFirstCheck), at)));
  }

  /** What the locked part of WAIT does when nobody interferes. */
  function AfterArm(s: State, t: Tid): State
    requires t < |s.threads|
  {
    s.(waiting := 1, cancelled := 0, log := s.log + [Arm(t), ClearFlag(t)],
       threads := At(s, t, Waiting(WaitFirstCheck), |s.log|))
  }

  lemma ArmsAlone(s: State, t: Tid)
    requires Reachable(s) && Running(s, t) && s.threads[t].pc == User
    requires s.lock == None && s.waiting == 0
    ensures Reachable(AfterArm(s, t))
  {
    var s1 := s.(lock := Some(InThread(t)),
                 threads := At(s, t, Waiting(WaitCheck), s.threads[t].at));
    var s2 := s1.(waiting := 1, cancelled := 0, log := s.log + [Arm(t), ClearFlag(t)],
                  threads := At(s1, t, Waiting(WaitUnlock), |s.log|));
    assert Reachable(s1) by { WaitEnters(s, t); }
    assert Reachable(s2) by { WaitStores(s1, t); }
    assert AfterArm(s, t) == s2.(lock := None,
                                 threads := At(s2, t, Waiting(WaitFirstCheck), |s.log|));
    WaitUnlocks(s2, t);
  }

  /** What WAIT does when a request is outstanding and nobody interferes. */
  function AfterRefusal(s: State, t: Tid): State
    requires t < |s.threads|
  {
    var at := |s.log|;
    s.(log := s.log + [WaitRefused(t)],
       threads := s.threads[t := s.threads[t].(pc := User, at := at, signalled := false)],
       results := s.results + [Result(t, OpWait, at, at + 1, s.threads[t].signalled, EAlready)])
  }

  lemma RefusedAlone(s: State, t: Tid)
    requires Reachable(s) && Running(s, t) && s.threads[t].pc == User
    requires s.lock == None && s.waiting == 1
    ensures Reachable(AfterRefusal(s, t))
  {
    var at := |s.log|;
    var s1 := s.(lock := Some(InThread(t)),
                 threads := At(s, t, Waiting(WaitCheck), s.threads[t].at));
    var s2 := s1.(log := s.log + [WaitRefused(t)],
                  threads := At(s, t, Waiting(WaitRefuseUnlock), at));
    var s3 := s2.(lock := None, threads := At(s, t, Waiting(WaitRefuseRestore), at));
    assert Reachable(s1) by { WaitEnters(s, t); }
    assert Reachable(s2) by { ReachableStep(s1, StepThread(t), s2); }
    assert Reachable(s3) by { ReachableStep(s2, StepThread(t), s3); }
    ReachableStep(s3, StepThread(t), AfterRefusal(s, t));
  }

  lemma CancelEnters(s: State, t: Tid)
    requires Reachable(s) && Running(s, t) && s.threads[t].pc == User
    requires s.lock == None && s.waiting == 1
    ensures Reachable(s.(lock := Some(InThread(t)), log := s.log + [CancelPassed(t)],
                         threads := At(s, t, Cancelling(CancelStoreFlag), |s.log|)))
  {
    var at := s.threads[t].at;
    var s1 := s.(threads := At(s, t, Cancelling(CancelSpin), at));
    var s2 := s.(lock := Some(InThread(t)), threads := At(s, t, Cancelling(CancelCheck), at));
    assert Reachable(s1) by { ReachableStep(s, CallCancel(t), s1); }
    assert Reachable(s2) by { ReachableStep(s1, StepThread(t), s2); }
    ReachableStep(s2, StepThread(t), s2.(log := s.log + [CancelPassed(t)],
                              threads := At(s, t, Cancelling(CancelStoreFlag), |s.log|)));
  }

  lemma CancelStores(s: State, t: Tid)
    requires Reachable(s) && Running(s, t) && s.threads[t].pc == Cancelling(CancelStoreFlag)
    ensures Reachable(s.(waiting := 0, cancelled := 1, log := s.log + [SetFlag(t), Cancel(t)],
                         threads := At(s, t, Cancelling(CancelUnlock), |s.log| + 1)))
  {
    var s1 := s.(cancelled := 1, log := s.log + [SetFlag(t)],
                 threads := At(s, t, Cancelling(CancelStoreDone), s.threads[t].at));
    assert s1.log + [Cancel(t)] == s.log + [SetFlag(t), Cancel(t)];
    assert Reachable(s1) by { ReachableStep(s, StepThread(t), s1); }
    ReachableStep(s1, StepThread(t), s1.(waiting := 0, log := s1.log + [Cancel(t)],
                              threads := At(s, t, Cancelling(CancelUnlock), |s.log| + 1)));
  }

  /** The rest of a CANCEL: unlock, wake whoever sleeps, and return. */
  function AfterWake(s: State, t: Tid): State
    requires t < |s.threads|
  {
    var th := s.threads[t];
    WakeUp(s).(lock := None, threads := s.threads[t := th.(pc := User, signalled := false)],
               results := s.results + [Result(t, OpCancel, th.at, |s.log|, th.signalled, Zero)])
  }

  lemma CancelReturns(s: State, t: Tid)
    requires Reachable(s) && Running(s, t) && s.threads[t].pc == Cancelling(CancelUnlock)
    ensures Reachable(AfterWake(s, t))
  {
    var at := s.threads[t].at;
    var s1 := s.(lock := None, threads := At(s, t, Cancelling(CancelRestore), at));
    var s2 := s.(lock := None, threads := At(s, t, Cancelling(CancelWake), at));
    assert Reachable(s1) by { ReachableStep(s, StepThread(t), s1); }
    assert Reachable(s2) by { ReachableStep(s1, StepThread(t), s2); }
    ReachableStep(s2, StepThread(t), AfterWake(s, t));
  }

  /** What CANCEL does to an outstanding request when nobody interferes. */
  function AfterCancel(s: State, t: Tid): State
    requires t < |s.threads|
  {
    var at, th := |s.log| + 2, s.threads[t];
    WakeUp(s).(waiting := 0, cancelled := 1,
               log := s.log + [CancelPassed(t), SetFlag(t), Cancel(t)],
               threads := s.threads[t := th.(pc := User, at := at, signalled := false)],
               results := s.results + [Result(t, OpCancel, at, at + 1, th.signalled, Zero)])
  }

  lemma CancelsAlone(s: State, t: Tid)
    requires Reachable(s) && Running(s, t) && s.threads[t].pc == User
    requires s.lock == None && s.waiting == 1
    ensures Reachable(AfterCancel(s, t))
  {
    var at := |s.log| + 2;
    var log1 := s.log + [CancelPassed(t)];
    var s1 := s.(lock := Some(InThread(t)), log := log1,
                 threads := At(s, t, Cancelling(CancelStoreFlag), |s.log|));
    var s2 := s1.(waiting := 0, cancelled := 1, log := log1 + [SetFlag(t), Cancel(t)],
                  threads := At(s, t, Cancelling(CancelUnlock), at));
    assert s2.log == s.log + [CancelPassed(t), SetFlag(t), Cancel(t)];
    assert Reachable(s1) by { CancelEnters(s, t); }
    assert Reachable(s2) by { CancelStores(s1, t); }
    assert AfterCancel(s, t) == AfterWake(s2, t);
    CancelReturns(s2, t);
  }

  // ---------- a handler that nobody interferes with ----------

  function HandlerAt(s: State, c: Cpu, h: HandlerPc): seq<HandlerPc>
    requires c < |s.handlers|
  {
    s.handlers[c := h]
  }

  /** An interrupt on a CPU where interrupts are enabled gets as far as the lock. */
  lemma HandlerEnters(s: State, c: Cpu)
    requires Reachable(s) && Enabled(s, Interrupt(c)) && s.status * INTERRUPT_BITS != {}
    ensures Reachable(s.(status := s.status - s.status * INTERRUPT_BITS,
                         handlers := HandlerAt(s, c, NotifySpin(s.status))))
  {
    var s1 := s.(handlers := HandlerAt(s, c, ReadStatus));
    var s2 := s.(handlers := HandlerAt(s, c, Acknowledge(s.status)));
    assert Reachable(s1) by { ReachableStep(s, Interrupt(c), s1); }
    assert Reachable(s2) by { ReachableStep(s1, StepHandler(c), s2); }
    ReachableStep(s2, StepHandler(c),
                  s.(status := s.status - s.status * INTERRUPT_BITS,
                     handlers := HandlerAt(s, c, NotifySpin(s.status))));
  }

  lemma HandlerNotifies(s: State, c: Cpu, seen: Word)
    requires Reachable(s) && c < |s.handlers| && s.handlers[c] == NotifySpin(seen)
    requires s.lock == None && s.waiting == 1
    ensures Reachable(s.(lock := Some(InHandler(c)), waiting := 0,
                         log := s.log + [Notify(c, seen)],
                         handlers := HandlerAt(s, c, NotifyUnlock)))
  {
    var s1 := s.(lock := Some(InHandler(c)), handlers := HandlerAt(s, c, NotifyCheck(seen)));
    var s2 := s1.(handlers := HandlerAt(s, c, NotifyStore(seen)));
    assert Reachable(s1) by { ReachableStep(s, StepHandler(c), s1); }
    assert Reachable(s2) by { ReachableStep(s1, StepHandler(c), s2); }
    ReachableStep(s2, StepHandler(c),
                  s2.(waiting := 0, log := s.log + [Notify(c, seen)],
                      handlers := HandlerAt(s, c, NotifyUnlock)));
  }

  lemma HandlerReturns(s: State, c: Cpu)
    requires Reachable(s) && c < |s.handlers| && s.handlers[c] == NotifyUnlock
    ensures Reachable(WakeUp(s).(lock := None, handlers := HandlerAt(s, c, Idle)))
  {
    var s1 := s.(lock := None, handlers := HandlerAt(s, c, NotifyWake));
    assert Reachable(s1) by { ReachableStep(s, StepHandler(c), s1); }
    ReachableStep(s1, StepHandler(c), WakeUp(s).(lock := None, handlers := HandlerAt(s, c, Idle)));
  }

  /** What an interrupt does to an outstanding request when nobody interferes. */
  function AfterNotify(s: State, c: Cpu): State {
    WakeUp(s).(waiting := 0, status := s.status - s.status * INTERRUPT_BITS,
               log := s.log + [Notify(c, s.status)])
  }

  lemma NotifiesAlone(s: State, c: Cpu)
    requires Reachable(s) && Enabled(s, Interrupt(c)) && s.status * INTERRUPT_BITS != {}
    requires s.lock == None && s.waiting == 1
    ensures Reachable(AfterNotify(s, c))
  {
    var s1 := s.(status := s.status - s.status * INTERRUPT_BITS,
                 handlers := HandlerAt(s, c, NotifySpin(s.status)));
    var s2 := s1.(lock := Some(InHandler(c)), waiting := 0,
                  log := s.log + [Notify(c, s.status)], handlers := HandlerAt(s, c, NotifyUnlock));
    assert Reachable(s1) by { HandlerEnters(s, c); }
    assert Reachable(s2) by { HandlerNotifies(s1, c, s.status); }
    assert s2.handlers[c := Idle] == s.handlers;
    assert AfterNotify(s, c) == WakeUp(s2).(lock := None, handlers := HandlerAt(s2, c, Idle));
    HandlerReturns(s2, c);
  }

  // ---------- a signal ----------

  /** A thread that has armed and checked once, with a signal pending, leaves the wait. */
  lemma SignalLeaves(s: State, t: Tid)
    requires Reachable(s) && Running(s, t) && s.threads[t].pc == Waiting(WaitFirstCheck)
    requires s.waiting == 1 && t !in s.queue && t !in s.interruptible
    ensures Reachable(s.(threads := s.threads[t := s.threads[t].(pc := Waiting(WaitRead),
                                                                 signalled := true)]))
  {
    var th := s.threads[t];
    var s1 := s.(threads := s.threads[t := th.(pc := Waiting(WaitPrepare))]);
    var s2 := s.(threads := s.threads[t := th.(pc := Waiting(WaitPrepare), signalled := true)]);
    var s3 := s.(threads := s.threads[t := th.(pc := Waiting(WaitRecheck(true)), signalled := true)]);
    assert Reachable(s1) by { ReachableStep(s, StepThread(t), s1); }
    assert Reachable(s2) by { ReachableStep(s1, Signal(t), s2); }
    assert Reachable(s3) by { ReachableStep(s2, StepThread(t), s3); }
    ReachableStep(s3, StepThread(t),
       s.(threads := s.threads[t := th.(pc := Waiting(WaitRead), signalled := true)]));
  }

  const HERE := Thread(User, false, Some(0), 0)

  /** Thread 0 on CPU 0, and no other. */
  const ONE := State(0, 0, None, {}, {}, [HERE], [Idle], {}, [], [])

  lemma OneThread()
    ensures Reachable(ONE)
  {
    var s0 := ONE.(threads := [HERE.(cpu := None)]);
    InitReachable(s0);
    ReachableStep(s0, Dispatch(0, 0), ONE);
  }

  /** A signal ends the wait of thread 0. */
  lemma SignalReturnsZero()
    ensures Reachable(ONE.(waiting := 1, log := [Arm(0), ClearFlag(0)],
                           results := [Result(0, OpWait, 0, 2, true, Zero)]))
  {
    var s1 := AfterArm(ONE, 0);
    var s2 := s1.(threads := [Thread(Waiting(WaitRead), true, Some(0), 0)]);
    OneThread();
    assert Reachable(s1) by { ArmsAlone(ONE, 0); }
    assert Reachable(s2) by { SignalLeaves(s1, 0); }
    ReachableStep(s2, StepThread(0), WaitNext(s2, 0));
  }

  /**
   A signal ends the wait: WAIT returns 0 although nothing completed its request, and leaves it
   armed, so that the next WAIT is refused.
   */
  lemma SignalBlocksNextWait() returns (s: State)
    ensures Reachable(s) && s.waiting == 1
    ensures s.results == [Result(0, OpWait, 0, 2, true, Zero), Result(0, OpWait, 2, 3, false, EAlready)]
    ensures s.log == [Arm(0), ClearFlag(0), WaitRefused(0)] && !CompletedAfter(s.log, 0)
  {
    var s1 := ONE.(waiting := 1, log := [Arm(0), ClearFlag(0)],
                   results := [Result(0, OpWait, 0, 2, true, Zero)]);
    assert Reachable(s1) by { SignalReturnsZero(); }
    s := AfterRefusal(s1, 0);
    RefusedAlone(s1, 0);
  }

  // ---------- arming again ----------

  function OnCpu(c: Cpu): Thread {
    Thread(User, false, Some(c), 0)
  }

  /** Three threads, each on its own CPU, and a status bit of the card's interrupts latched. */
  const THREE := State(0, 0, None, {}, {}, [OnCpu(0), OnCpu(1), OnCpu(2)], [Idle, Idle, Idle],
                       {16}, [], [])

  lemma ThreeThreads()
    ensures Reachable(THREE)
  {
    var off := Thread(User, false, None, 0);
    var s0 := THREE.(threads := [off, off, off]);
    var s1 := THREE.(threads := [OnCpu(0), off, off]);
    var s2 := THREE.(threads := [OnCpu(0), OnCpu(1), off]);
    InitReachable(s0);
    assert Reachable(s1) by { ReachableStep(s0, Dispatch(0, 0), s1); }
    assert Reachable(s2) by { ReachableStep(s1, Dispatch(1, 1), s2); }
    ReachableStep(s2, Dispatch(2, 2), THREE);
  }

  /** A thread that finds waiting_for_irq clear at its first check goes on to read irq_cancelled. */
  lemma LeavesAtOnce(s: State, t: Tid)
    requires Reachable(s) && Running(s, t) && s.threads[t].pc == Waiting(WaitFirstCheck)
    requires s.waiting == 0
    ensures Reachable(s.(threads := At(s, t, Waiting(WaitRead), s.threads[t].at)))
  {
    ReachableStep(s, StepThread(t), s.(threads := At(s, t, Waiting(WaitRead), s.threads[t].at)));
  }

  lemma ReadsFlag(s: State, t: Tid) returns (s': State)
    requires Reachable(s) && Running(s, t) && s.threads[t].pc == Waiting(WaitRead)
    ensures Reachable(s') && s'.log == s.log
    ensures var th := s.threads[t];
            s'.results == s.results + [Result(t, OpWait, th.at, |s.log|, th.signalled,
                                              if s.cancelled == 1 then ECanceled else Zero)]
  {
    s' := WaitNext(s, t);
    ReachableStep(s, StepThread(t), s');
  }

  /**
   Thread 1 cancels the request of thread 0 and then arms its own before thread 0 has read
   irq_cancelled: thread 0's WAIT returns 0 although a CANCEL, and no handler, completed it, and
   no signal came.
   */
  lemma RearmHidesCancel() returns (s: State)
    ensures Reachable(s)
    ensures s.log == [Arm(0), ClearFlag(0), CancelPassed(1), SetFlag(1), Cancel(1), Arm(1), ClearFlag(1)]
    ensures |s.results| == 2 && s.results[1] == Result(0, OpWait, 0, 7, false, Zero)
    ensures FirstCompletion(s.log, 0, 4) && !Names(Zero, s.log[4])
  {
    var s1 := AfterArm(THREE, 0);
    var s2 := AfterCancel(s1, 1);
    var s3 := s2.(threads := At(s2, 0, Waiting(WaitRead), 0));
    var s4 := AfterArm(s3, 1);
    ThreeThreads();
    assert Reachable(s1) by { ArmsAlone(THREE, 0); }
    assert Reachable(s2) by { CancelsAlone(s1, 1); }
    assert Reachable(s3) by { LeavesAtOnce(s2, 0); }
    assert Reachable(s4) by { ArmsAlone(s3, 1); }
    s := ReadsFlag(s4, 0);
  }

  /** A handler has completed the request of thread 0, which has yet to read irq_cancelled. */
  const NOTIFIED :=
    THREE.(threads := [OnCpu(0).(pc := Waiting(WaitRead)), OnCpu(1), OnCpu(2)], status := {},
           log := [Arm(0), ClearFlag(0), Notify(0, {16})])

  /** The bit that is latched at the start is one of the card's interrupt bits. */
  lemma BitCounts()
    ensures {16} * INTERRUPT_BITS == {16}
  {
    MaskBits();
  }

  lemma NotifiedBeforeRead()
    ensures Reachable(NOTIFIED)
  {
    var s1 := AfterArm(THREE, 0);
    var s2 := NOTIFIED.(threads := At(s1, 0, Waiting(WaitFirstCheck), 0));
    BitCounts();
    assert Reachable(s1) by { ThreeThreads(); ArmsAlone(THREE, 0); }
    assert Reachable(s2) by { NotifiesAlone(s1, 0); }
    LeavesAtOnce(s2, 0);
  }

  /**
   A handler completes the request of thread 0; then thread 1 arms and thread 2 cancels that, all
   before thread 0 has read irq_cancelled: thread 0's WAIT returns -ECANCELED although no CANCEL
   touched its request, and no signal came.
   */
  lemma RearmFakesCancel() returns (s: State)
    ensures Reachable(s)
    ensures s.log == [Arm(0), ClearFlag(0), Notify(0, {16}), Arm(1), ClearFlag(1),
                      CancelPassed(2), SetFlag(2), Cancel(2)]
    ensures |s.results| == 2 && s.results[1] == Result(0, OpWait, 0, 8, false, ECanceled)
    ensures FirstCompletion(s.log, 0, 2) && !Names(ECanceled, s.log[2])
  {
    var s1 := AfterArm(NOTIFIED, 1);
    var s2 := AfterCancel(s1, 2);
    NotifiedBeforeRead();
    assert Reachable(s1) by { ArmsAlone(NOTIFIED, 1); }
    assert Reachable(s2) by { CancelsAlone(s1, 2); }
    s := ReadsFlag(s2, 0);
  }

  /** A waiter that finds a request outstanding at both of its looks goes to sleep. */
  function AfterSleep(s: State, t: Tid): State
    requires t < |s.threads|
  {
    s.(queue := s.queue + {t}, interruptible := s.interruptible + {t},
       threads := s.threads[t := s.threads[t].(pc := Waiting(WaitAsleep), cpu := None)])
  }

  /** The two looks, up to the call of schedule(). */
  lemma CommitsAlone(s: State, t: Tid)
    requires Reachable(s) && Running(s, t) && s.threads[t].pc == Waiting(WaitFirstCheck)
    requires s.waiting == 1 && !s.threads[t].signalled
    ensures Reachable(s.(queue := s.queue + {t}, interruptible := s.interruptible + {t},
                         threads := At(s, t, Waiting(WaitSchedule), s.threads[t].at)))
  {
    var at := s.threads[t].at;
    var s1 := s.(threads := At(s, t, Waiting(WaitPrepare), at));
    var s2 := s.(queue := s.queue + {t}, interruptible := s.interruptible + {t},
                 threads := At(s, t, Waiting(WaitRecheck(false)), at));
    assert Reachable(s1) by { ReachableStep(s, StepThread(t), s1); }
    assert Reachable(s2) by { ReachableStep(s1, StepThread(t), s2); }
    ReachableStep(s2, StepThread(t), s2.(threads := At(s, t, Waiting(WaitSchedule), at)));
  }

  lemma SleepsAlone(s: State, t: Tid)
    requires Reachable(s) && Running(s, t) && s.threads[t].pc == Waiting(WaitFirstCheck)
    requires s.waiting == 1 && !s.threads[t].signalled
    ensures Reachable(AfterSleep(s, t))
  {
    var s1 := s.(queue := s.queue + {t}, interruptible := s.interruptible + {t},
                 threads := At(s, t, Waiting(WaitSchedule), s.threads[t].at));
    assert Reachable(s1) by { CommitsAlone(s, t); }
    ReachableStep(s1, StepThread(t), AfterSleep(s, t));
  }

  /** A handler has completed the request of thread 0, which has yet to look, and thread 1 armed. */
  const OVERTAKEN :=
    THREE.(waiting := 1, status := {},
           threads := [OnCpu(0).(pc := Waiting(WaitFirstCheck)),
                       OnCpu(1).(pc := Waiting(WaitFirstCheck), at := 3), OnCpu(2)],
           log := [Arm(0), ClearFlag(0), Notify(0, {16}), Arm(1), ClearFlag(1)])

  lemma OvertakenBeforeLook()
    ensures Reachable(OVERTAKEN)
  {
    var s1 := AfterArm(THREE, 0);
    var s2 := s1.(waiting := 0, status := {}, log := [Arm(0), ClearFlag(0), Notify(0, {16})]);
    BitCounts();
    assert Reachable(s1) by { ThreeThreads(); ArmsAlone(THREE, 0); }
    assert Reachable(s2) by { NotifiesAlone(s1, 0); }
    ArmsAlone(s2, 1);
  }

  /**
   A handler completes the request of thread 0, and thread 1 arms before thread 0 has looked:
   thread 0 then goes to sleep on the request of thread 1, although its own was completed, no
   signal came, and nobody owes it a wake-up.
   */
  lemma RearmStrandsWaiter() returns (s: State)
    ensures Reachable(s)
    ensures s.log == [Arm(0), ClearFlag(0), Notify(0, {16}), Arm(1), ClearFlag(1)]
    ensures Asleep(s, 0) && !s.threads[0].signalled && s.threads[0].at == 0
    ensures CompletedAfter(s.log, 0) && s.lock == None && forall x :: !OwesWake(s, x)
  {
    s := AfterSleep(OVERTAKEN, 0);
    assert Reachable(s) by {
      OvertakenBeforeLook();
      SleepsAlone(OVERTAKEN, 0);
    }
    assert Completes(s.log[2]);
  }
}
