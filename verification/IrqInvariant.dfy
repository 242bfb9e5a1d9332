/** The lock, the CPUs, the wait queue, the flags and the wake-ups: what every step keeps. */
module IrqInvariant {
  import opened Options
  import opened IrqHistory
  import opened IrqMachine
  import opened IrqSteps

  // ---------- the lock and the CPUs ----------

  /** Exactly the context inside a critical section is the recorded holder. */
  ghost predicate LockOk(s: State) {
    && (forall t: Tid :: t < |s.threads| ==>
          (Holds(s.threads[t].pc) <==> s.lock == Some(InThread(t))))
    && (forall c: Cpu :: c < |s.handlers| ==>
          (HandlerHolds(s.handlers[c]) <==> s.lock == Some(InHandler(c))))
    && (s.lock.Some? ==>
          match s.lock.value
          case InThread(t) => t < |s.threads|
          case InHandler(c) => c < |s.handlers|)
  }

  /** A thread with interrupts masked keeps its CPU to itself; a sleeping one has none. */
  ghost predicate CpuOk(s: State) {
    && (forall t: Tid :: t < |s.threads| && Masked(s.threads[t].pc) ==> Running(s, t))
    && (forall t: Tid :: Asleep(s, t) ==> s.threads[t].cpu == None)
    && (forall t: Tid, u: Tid |
          t < |s.threads| && u < |s.threads| && t != u && s.threads[t].cpu.Some? ::
          s.threads[t].cpu != s.threads[u].cpu)
  }

  // ---------- the wait queue ----------

  predicate InWaitLoop(pc: Pc) {
    && pc.Waiting?
    && (pc.w == WaitRecheck(false) || pc.w.WaitSchedule? || pc.w.WaitAsleep? || pc.w.WaitFinish?)
  }

  /** A thread marked interruptible is in the queue, so that a wake-up reaches it. */
  ghost predicate QueueOk(s: State) {
    && s.interruptible <= s.queue
    && (forall t: Tid :: t in s.queue ==> t < |s.threads|)
    && (forall t: Tid :: t in s.interruptible ==>
          t < |s.threads| && !s.threads[t].signalled && InWaitLoop(s.threads[t].pc))
  }

  // ---------- handlers ----------

  lemma HandlerFrame(s: State, c: Cpu)
    requires Enabled(s, StepHandler(c))
    ensures HandlerNext(s, c).threads == s.threads
    ensures |HandlerNext(s, c).handlers| == |s.handlers|
    ensures forall d: Cpu :: d < |s.handlers| && d != c ==>
              HandlerNext(s, c).handlers[d] == s.handlers[d]
  {
  }

  lemma HandlerLock(s: State, c: Cpu)
    requires Enabled(s, StepHandler(c))
    requires HandlerHolds(s.handlers[c]) <==> s.lock == Some(InHandler(c))
    ensures var s' := HandlerNext(s, c);
            && |s'.handlers| == |s.handlers|
            && (HandlerHolds(s'.handlers[c]) <==> s'.lock == Some(InHandler(c)))
            && (s'.lock == s.lock || (s.lock == None && s'.lock == Some(InHandler(c)))
                || (s.lock == Some(InHandler(c)) && s'.lock == None))
  {
  }

  // ---------- the lock ----------

  lemma ThreadLock(s: State, t: Tid)
    requires LockOk(s) && Enabled(s, StepThread(t))
    ensures LockOk(Exec(s, StepThread(t)))
  {
    ThreadEffects(s, t);
  }

  lemma LockStep(s: State, a: Action)
    requires LockOk(s) && Enabled(s, a)
    ensures LockOk(Exec(s, a))
  {
    if a.StepThread? {
      ThreadLock(s, a.t);
    } else if a.StepHandler? {
      HandlerFrame(s, a.c);
      HandlerLock(s, a.c);
    }
  }

  // ---------- the CPUs ----------

  lemma ThreadCpu(s: State, t: Tid)
    requires CpuOk(s) && Enabled(s, StepThread(t))
    ensures CpuOk(Exec(s, StepThread(t)))
  {
    ThreadEffects(s, t);
  }

  lemma HandlerCpu(s: State, c: Cpu)
    requires CpuOk(s) && Enabled(s, StepHandler(c))
    ensures CpuOk(Exec(s, StepHandler(c)))
  {
    HandlerFrame(s, c);
  }

  lemma CpuStep(s: State, a: Action)
    requires CpuOk(s) && Enabled(s, a)
    ensures CpuOk(Exec(s, a))
  {
    match a {
      case StepThread(t) => ThreadCpu(s, t);
      case StepHandler(c) => HandlerCpu(s, c);
      case _ =>
    }
  }

  // ---------- the wait queue ----------

  lemma WaitQueue(s: State, t: Tid)
    requires t < |s.threads| && s.threads[t].pc.Waiting? && QueueOk(s) && !Asleep(s, t)
    ensures QueueOk(WaitNext(s, t))
  {
    match s.threads[t].pc.w {
      case WaitSpin => case WaitCheck => case WaitRefuseUnlock => case WaitRefuseRestore =>
      case WaitStoreArm => case WaitClearCancel => case WaitUnlock => case WaitRestore =>
      case WaitFirstCheck => case WaitPrepare => case WaitRecheck(_) => case WaitSchedule =>
      case WaitAsleep => case WaitFinish => case WaitRead =>
    }
  }

  lemma CancelQueue(s: State, t: Tid)
    requires t < |s.threads| && s.threads[t].pc.Cancelling? && QueueOk(s)
    ensures QueueOk(CancelNext(s, t))
  {
  }

  lemma QueueStep(s: State, a: Action)
    requires QueueOk(s) && Enabled(s, a)
    ensures QueueOk(Exec(s, a))
  {
    if a.StepThread? {
      if s.threads[a.t].pc.Waiting? {
        WaitQueue(s, a.t);
      } else {
        CancelQueue(s, a.t);
      }
    }
  }

  // ---------- the flags ----------

  function Bit(b: bool): int {
    if b then 1 else 0
  }

  /** What irq_cancelled must hold, given where the holder of the lock is. */
  ghost predicate CancelledOk(s: State, o: OneShot) {
    if s.lock.Some? && s.lock.value.InThread? && s.lock.value.t < |s.threads| then
      var th := s.threads[s.lock.value.t];
      if th.pc == Cancelling(CancelStoreDone) then s.cancelled == 1
      else if th.pc == Waiting(WaitClearCancel) then
        && th.at < |s.log| && Replay(s.log[..th.at]).Some?
        && s.cancelled == Bit(Replay(s.log[..th.at]).value.cancelled)
      else s.cancelled == Bit(o.cancelled)
    else s.cancelled == Bit(o.cancelled)
  }

  /** What a thread that passed its check under the lock may still rely on. */
  predicate CheckHolds(pc: Pc, o: OneShot) {
    match pc
    case User => true
    case Waiting(w) => (w.WaitStoreArm? ==> !o.armed) && (w.WaitClearCancel? ==> o.armed)
    case Cancelling(x) => x.CancelStoreFlag? || x.CancelStoreDone? ==> o.armed
  }

  /** The history is legal, and the two flags are what it left behind. */
  ghost predicate FlagsOk(s: State) {
    && Replay(s.log).Some?
    && var o := Replay(s.log).value;
       && s.waiting == Bit(o.armed)
       && CancelledOk(s, o)
       && (forall t: Tid :: t < |s.threads| ==> CheckHolds(s.threads[t].pc, o))
       && (forall c: Cpu :: c < |s.handlers| && s.handlers[c].NotifyStore? ==> o.armed)
  }

  lemma ArmFlags(s: State, t: Tid)
    requires Enabled(s, StepThread(t)) && s.threads[t].pc == Waiting(WaitStoreArm)
    requires LockOk(s) && FlagsOk(s)
    ensures FlagsOk(WaitNext(s, t))
  {
    WaitPlace(s, t);
    ReplayAppend(s.log, Arm(t));
    assert WaitNext(s, t).log[..|s.log|] == s.log;
  }

  lemma ClearFlags(s: State, t: Tid)
    requires Enabled(s, StepThread(t)) && s.threads[t].pc == Waiting(WaitClearCancel)
    requires LockOk(s) && FlagsOk(s)
    ensures FlagsOk(WaitNext(s, t))
  {
    WaitPlace(s, t);
    ReplayAppend(s.log, ClearFlag(t));
  }

  lemma WaitFlagsKept(s: State, t: Tid)
    requires Enabled(s, StepThread(t)) && s.threads[t].pc.Waiting? && Holds(s.threads[t].pc)
    requires LockOk(s) && FlagsOk(s)
    ensures FlagsOk(WaitNext(s, t))
  {
    WaitPlace(s, t);
    match s.threads[t].pc.w {
      case WaitCheck => ReplayAppend(s.log, WaitRefused(t));
      case WaitRefuseUnlock =>
      case WaitStoreArm => ArmFlags(s, t);
      case WaitClearCancel => ClearFlags(s, t);
      case WaitUnlock =>
    }
  }

  lemma CancelRefusedFlags(s: State, t: Tid)
    requires Enabled(s, StepThread(t)) && s.threads[t].pc == Cancelling(CancelCheck)
    requires LockOk(s) && FlagsOk(s) && s.waiting == 0
    ensures FlagsOk(CancelNext(s, t))
  {
    CancelPlace(s, t);
    ReplayAppend(s.log, CancelRefused(t));
  }

  lemma CancelPassedFlags(s: State, t: Tid)
    requires Enabled(s, StepThread(t)) && s.threads[t].pc == Cancelling(CancelCheck)
    requires LockOk(s) && FlagsOk(s) && s.waiting != 0
    ensures FlagsOk(CancelNext(s, t))
  {
    CancelPlace(s, t);
    ReplayAppend(s.log, CancelPassed(t));
  }

  lemma CancelCheckFlags(s: State, t: Tid)
    requires Enabled(s, StepThread(t)) && s.threads[t].pc == Cancelling(CancelCheck)
    requires LockOk(s) && FlagsOk(s)
    ensures FlagsOk(CancelNext(s, t))
  {
    if s.waiting == 0 {
      CancelRefusedFlags(s, t);
    } else {
      CancelPassedFlags(s, t);
    }
  }

  lemma SetFlags(s: State, t: Tid)
    requires Enabled(s, StepThread(t)) && s.threads[t].pc == Cancelling(CancelStoreFlag)
    requires LockOk(s) && FlagsOk(s)
    ensures FlagsOk(CancelNext(s, t))
  {
    CancelPlace(s, t);
    ReplayAppend(s.log, SetFlag(t));
  }

  lemma CompleteFlags(s: State, t: Tid)
    requires Enabled(s, StepThread(t)) && s.threads[t].pc == Cancelling(CancelStoreDone)
    requires LockOk(s) && FlagsOk(s)
    ensures FlagsOk(CancelNext(s, t))
  {
    CancelPlace(s, t);
    ReplayAppend(s.log, Cancel(t));
  }

  lemma CancelFlagsKept(s: State, t: Tid)
    requires Enabled(s, StepThread(t)) && s.threads[t].pc.Cancelling? && Holds(s.threads[t].pc)
    requires LockOk(s) && FlagsOk(s)
    ensures FlagsOk(CancelNext(s, t))
  {
    CancelPlace(s, t);
    match s.threads[t].pc.x {
      case CancelCheck => CancelCheckFlags(s, t);
      case CancelRefuseUnlock =>
      case CancelStoreFlag => SetFlags(s, t);
      case CancelStoreDone => CompleteFlags(s, t);
      case CancelUnlock =>
    }
  }

  lemma OutsideFlags(s: State, t: Tid)
    requires Enabled(s, StepThread(t)) && !Holds(s.threads[t].pc)
    requires LockOk(s) && FlagsOk(s)
    ensures FlagsOk(Exec(s, StepThread(t)))
  {
    ThreadEffects(s, t);
  }

  lemma NotifyFlags(s: State, c: Cpu)
    requires Enabled(s, StepHandler(c)) && s.handlers[c].NotifyStore?
    requires LockOk(s) && FlagsOk(s)
    ensures FlagsOk(HandlerNext(s, c))
  {
    HandlerFrame(s, c);
    ReplayAppend(s.log, Notify(c, s.handlers[c].seen));
  }

  lemma NotifyCheckFlags(s: State, c: Cpu)
    requires Enabled(s, StepHandler(c)) && s.handlers[c].NotifyCheck?
    requires LockOk(s) && FlagsOk(s)
    ensures FlagsOk(HandlerNext(s, c))
  {
    HandlerFrame(s, c);
    ReplayAppend(s.log, NotifyMiss(c, s.handlers[c].seen));
  }

  lemma HandlerFlags(s: State, c: Cpu)
    requires Enabled(s, StepHandler(c))
    requires LockOk(s) && FlagsOk(s)
    ensures FlagsOk(HandlerNext(s, c))
  {
    HandlerFrame(s, c);
    match s.handlers[c] {
      case NotifyCheck(_) => NotifyCheckFlags(s, c);
      case NotifyStore(_) => NotifyFlags(s, c);
      case _ =>
    }
  }

  lemma RaiseFlags(s: State, bit: nat)
    requires FlagsOk(s) && bit < 32
    ensures FlagsOk(Exec(s, RaiseBit(bit)))
  {
    ReplayAppend(s.log, Raise(bit));
    var s' := Exec(s, RaiseBit(bit));
    if s.lock.Some? && s.lock.value.InThread? && s.lock.value.t < |s.threads| {
      var th := s.threads[s.lock.value.t];
      if th.at < |s.log| {
        assert s'.log[..th.at] == s.log[..th.at];
      }
    }
  }

  lemma FlagsStep(s: State, a: Action)
    requires LockOk(s) && FlagsOk(s) && Enabled(s, a)
    ensures FlagsOk(Exec(s, a))
  {
    match a {
      case StepThread(t) =>
        if !Holds(s.threads[t].pc) {
          OutsideFlags(s, t);
        } else if s.threads[t].pc.Waiting? {
          WaitFlagsKept(s, t);
        } else {
          CancelFlagsKept(s, t);
        }
      case StepHandler(c) => HandlerFlags(s, c);
      case RaiseBit(bit) => RaiseFlags(s, bit);
      case CallWait(_) =>
      case CallCancel(_) =>
      case Dispatch(_, _) =>
      case Preempt(_) =>
      case Signal(_) =>
      case Interrupt(_) =>
    }
  }

  // ---------- the stores of irq_cancelled ----------

  /**
   irq_cancelled is what its last store left, and every completion found it saying its own kind.
   */
  ghost predicate StoresOk(s: State) {
    && s.cancelled == StoredFlag(s.log)
    && CompletionsMatch(s.log)
  }

  ghost predicate CompletionsMatch(log: seq<Event>) {
    forall j :: 0 <= j < |log| && Completes(log[j]) ==>
      StoredFlag(log[..j + 1]) == Bit(log[j].Cancel?)
  }

  /** A step that appends e stores what e says, and a completion finds the flag saying its kind. */
  predicate StoresAs(before: int, after: int, e: Event) {
    && after == (match e case ClearFlag(_) => 0 case SetFlag(_) => 1 case _ => before)
    && (Completes(e) ==> before == Bit(e.Cancel?))
  }

  ghost predicate StoreEffect(s: State, s': State) {
    || (s'.log == s.log && s'.cancelled == s.cancelled)
    || (AppendsOne(s.log, s'.log) && StoresAs(s.cancelled, s'.cancelled, s'.log[|s.log|]))
  }

  lemma ThreadStores(s: State, t: Tid)
    requires LockOk(s) && FlagsOk(s) && Enabled(s, StepThread(t))
    ensures StoreEffect(s, Exec(s, StepThread(t)))
  {
    if s.threads[t].pc.Waiting? {
      match s.threads[t].pc.w {
        case WaitSpin => case WaitCheck => case WaitRefuseUnlock => case WaitRefuseRestore =>
        case WaitStoreArm => case WaitClearCancel => case WaitUnlock => case WaitRestore =>
        case WaitFirstCheck => case WaitPrepare => case WaitRecheck(_) => case WaitSchedule =>
        case WaitAsleep => case WaitFinish => case WaitRead =>
      }
    } else {
      match s.threads[t].pc.x {
        case CancelSpin => case CancelCheck => case CancelRefuseUnlock =>
        case CancelRefuseRestore => case CancelStoreFlag => case CancelStoreDone =>
        case CancelUnlock => case CancelRestore => case CancelWake =>
      }
    }
  }

  lemma HandlerStores(s: State, c: Cpu)
    requires LockOk(s) && FlagsOk(s) && Enabled(s, StepHandler(c))
    ensures StoreEffect(s, Exec(s, StepHandler(c)))
  {
    match s.handlers[c] {
      case NotifyStore(_) => assert s.lock == Some(InHandler(c));
      case _ =>
    }
  }

  lemma CompletionsGrow(log: seq<Event>, log': seq<Event>)
    requires CompletionsMatch(log) && AppendsOne(log, log')
    requires StoresAs(StoredFlag(log), StoredFlag(log'), log'[|log|])
    ensures CompletionsMatch(log')
  {
    forall j | 0 <= j < |log'| && Completes(log'[j])
      ensures StoredFlag(log'[..j + 1]) == Bit(log'[j].Cancel?)
    {
      if j < |log| {
        assert log'[j] == log[j] && log'[..j + 1] == log[..j + 1];
      } else {
        assert log'[..j + 1] == log';
      }
    }
  }

  lemma StoresStep(s: State, a: Action)
    requires LockOk(s) && FlagsOk(s) && StoresOk(s) && Enabled(s, a)
    ensures StoresOk(Exec(s, a))
  {
    var s' := Exec(s, a);
    assert StoreEffect(s, s') by {
      match a {
        case StepThread(t) => ThreadStores(s, t);
        case StepHandler(c) => HandlerStores(s, c);
        case _ =>
      }
    }
    if s'.log != s.log {
      CompletionsGrow(s.log, s'.log);
    }
  }

  // ---------- wake-ups ----------

  /** Asleep, or committed to it after its last look at waiting_for_irq. */
  predicate CommittedToSleep(s: State, t: Tid) {
    && t < |s.threads| && t in s.interruptible
    && (s.threads[t].pc == Waiting(WaitSchedule) || s.threads[t].pc == Waiting(WaitAsleep))
  }

  /** A context that completed a request and has its wake-up still to perform. */
  predicate OwesWake(s: State, x: Ctx) {
    match x
    case InThread(t) =>
      && t < |s.threads| && s.threads[t].pc.Cancelling?
      && (s.threads[t].pc.x.CancelUnlock? || s.threads[t].pc.x.CancelRestore?
          || s.threads[t].pc.x.CancelWake?)
    case InHandler(c) =>
      c < |s.handlers| && (s.handlers[c].NotifyUnlock? || s.handlers[c].NotifyWake?)
  }

  ghost predicate WakeOk(s: State) {
    s.waiting == 0 ==> forall t: Tid :: CommittedToSleep(s, t) ==> exists x :: OwesWake(s, x)
  }

  /** The action is the wake-up itself. */
  predicate Wakes(s: State, a: Action) {
    match a
    case StepThread(t) => t < |s.threads| && s.threads[t].pc == Cancelling(CancelWake)
    case StepHandler(c) => c < |s.handlers| && s.handlers[c] == NotifyWake
    case _ => false
  }

  lemma WakeEmpties(s: State, a: Action)
    requires QueueOk(s) && Enabled(s, a) && Wakes(s, a)
    ensures Exec(s, a).interruptible == {}
  {
  }

  lemma OwedUntilWoken(s: State, a: Action, x: Ctx)
    requires Enabled(s, a) && !Wakes(s, a) && OwesWake(s, x)
    ensures OwesWake(Exec(s, a), x)
  {
    match a {
      case StepThread(t) => ThreadEffects(s, t);
      case StepHandler(c) => HandlerFrame(s, c);
      case CallWait(_) =>
      case CallCancel(_) =>
      case RaiseBit(_) =>
      case Dispatch(_, _) =>
      case Preempt(_) =>
      case Signal(_) =>
      case Interrupt(_) =>
    }
  }

  /** Clearing waiting_for_irq leaves its doer owing a wake-up. */
  lemma CompletionOwes(s: State, a: Action)
    requires Enabled(s, a) && s.waiting != 0 && Exec(s, a).waiting == 0
    ensures exists x :: OwesWake(Exec(s, a), x)
  {
    match a {
      case StepThread(t) =>
        ThreadEffects(s, t);
        assert OwesWake(Exec(s, a), InThread(t));
      case StepHandler(c) => assert OwesWake(Exec(s, a), InHandler(c));
      case _ =>
    }
  }

  /** Nobody commits to sleep while it sees waiting_for_irq clear. */
  lemma NoNewSleeper(s: State, a: Action, t: Tid)
    requires Enabled(s, a) && s.waiting == 0 && CommittedToSleep(Exec(s, a), t)
    ensures CommittedToSleep(s, t)
  {
    match a {
      case StepThread(u) =>
        ThreadEffects(s, u);
        if u == t && s.threads[u].pc.Waiting? {
          match s.threads[u].pc.w {
            case WaitSpin => case WaitCheck => case WaitRefuseUnlock => case WaitRefuseRestore =>
            case WaitStoreArm => case WaitClearCancel => case WaitUnlock => case WaitRestore =>
            case WaitFirstCheck => case WaitPrepare => case WaitRecheck(_) => case WaitSchedule =>
            case WaitAsleep => case WaitFinish => case WaitRead =>
          }
        }
      case StepHandler(c) => HandlerFrame(s, c);
      case CallWait(_) =>
      case CallCancel(_) =>
      case RaiseBit(_) =>
      case Dispatch(_, _) =>
      case Preempt(_) =>
      case Signal(_) =>
      case Interrupt(_) =>
    }
  }

  lemma WakeStep(s: State, a: Action)
    requires QueueOk(s) && WakeOk(s) && Enabled(s, a)
    ensures WakeOk(Exec(s, a))
  {
    var s' := Exec(s, a);
    if s'.waiting == 0 {
      forall t: Tid | CommittedToSleep(s', t) ensures exists x :: OwesWake(s', x) {
        if s.waiting != 0 {
          CompletionOwes(s, a);
        } else {
          NoNewSleeper(s, a, t);
          if Wakes(s, a) {
            WakeEmpties(s, a);
          } else {
            var x :| OwesWake(s, x);
            OwedUntilWoken(s, a, x);
          }
        }
      }
    }
  }
}
