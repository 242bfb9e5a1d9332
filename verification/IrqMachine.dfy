/**
 The wait / notify / cancel protocol of one card as a state machine of small steps.

 Any number of user threads run WAIT and CANCEL, and any number of CPUs take interrupts.  One step
 is one lock acquisition, flag read, flag store, unlock, interrupt restore, wake-up, enqueue,
 condition check or sleep; every interleaving of the steps is a run.  Memory is sequentially
 consistent.
 */
module IrqMachine {
  import opened Options
  import opened StatusWord
  import opened IrqHistory

  /** ioctl_ACCESIO_PCI_IRQ_WAIT, with wait_event_interruptible expanded. */
  datatype WaitPc =
    | WaitSpin                          // interrupts masked, waiting for irq_lock
    | WaitCheck                         // about to read waiting_for_irq
    | WaitRefuseUnlock
    | WaitRefuseRestore
    | WaitStoreArm                      // about to store waiting_for_irq = 1
    | WaitClearCancel                   // about to store irq_cancelled = 0
    | WaitUnlock
    | WaitRestore
    | WaitFirstCheck                    // the check before queueing
    | WaitPrepare                       // queue and mark interruptible
    | WaitRecheck(interrupted: bool)    // the check after queueing
    | WaitSchedule                      // committed to schedule()
    | WaitAsleep                        // inside schedule()
    | WaitFinish                        // leave the queue
    | WaitRead                          // about to read irq_cancelled

  /** ioctl_ACCESIO_PCI_IRQ_WAIT_CANCEL. */
  datatype CancelPc =
    | CancelSpin
    | CancelCheck
    | CancelRefuseUnlock
    | CancelRefuseRestore
    | CancelStoreFlag                   // about to store irq_cancelled = 1
    | CancelStoreDone                   // about to store waiting_for_irq = 0
    | CancelUnlock
    | CancelRestore
    | CancelWake

  /** Where a thread is. */
  datatype Pc = User | Waiting(w: WaitPc) | Cancelling(x: CancelPc)

  /** Where the handler of a CPU is; seen is the status word it read. */
  datatype HandlerPc =
    | Idle
    | ReadStatus
    | Acknowledge(seen: Word)           // about to write the masked status back
    | NotifySpin(seen: Word)            // waiting for irq_lock
    | NotifyCheck(seen: Word)
    | NotifyStore(seen: Word)           // about to store waiting_for_irq = 0
    | NotifyUnlock
    | NotifyWake
    | NotifyUnlockMiss

  /**
   A thread: signalled is a pending signal, cpu the CPU it runs on, and at the place in the history
   of this call's own outcome.
   */
  datatype Thread = Thread(pc: Pc, signalled: bool, cpu: Option<Cpu>, at: nat)

  datatype Ctx = InThread(t: Tid) | InHandler(c: Cpu)

  datatype Op = OpWait | OpCancel

  datatype Code = Zero | EAlready | ECanceled

  /**
   A call that returned: its own event is log[at], and its result was settled when the history was
   log[..end].
   */
  datatype Result = Result(t: Tid, op: Op, at: nat, end: nat, signalled: bool, code: Code)

  datatype State = State(
    waiting: int,                       // waiting_for_irq
    cancelled: int,                     // irq_cancelled
    lock: Option<Ctx>,                  // irq_lock and its holder
    queue: set<Tid>,                    // wait_queue
    interruptible: set<Tid>,            // threads marked TASK_INTERRUPTIBLE
    threads: seq<Thread>,
    handlers: seq<HandlerPc>,           // one per CPU
    status: Word,                       // the card's latched status bits
    log: seq<Event>,
    results: seq<Result>)

  datatype Action =
    | CallWait(t: Tid)
    | CallCancel(t: Tid)
    | StepThread(t: Tid)
    | Dispatch(t: Tid, on: Cpu)
    | Preempt(t: Tid)
    | Signal(t: Tid)
    | RaiseBit(bit: nat)
    | Interrupt(c: Cpu)
    | StepHandler(c: Cpu)

  predicate Init(s: State) {
    && s.waiting == 0 && s.cancelled == 0 && s.lock == None && s.queue == {}
    && s.interruptible == {} && s.log == [] && s.results == []
    && (forall t: Tid :: t < |s.threads| ==> s.threads[t] == Thread(User, false, None, 0))
    && (forall c: Cpu :: c < |s.handlers| ==> s.handlers[c] == Idle)
  }

  // ---------- regions of the code ----------

  /** Between spin_lock_irqsave and spin_unlock_irqrestore: this CPU takes no interrupt. */
  predicate Masked(pc: Pc) {
    match pc
    case User => false
    case Waiting(w) =>
      || w.WaitSpin? || w.WaitCheck? || w.WaitRefuseUnlock? || w.WaitRefuseRestore?
      || w.WaitStoreArm? || w.WaitClearCancel? || w.WaitUnlock? || w.WaitRestore?
    case Cancelling(x) => !x.CancelWake?
  }

  predicate Spins(pc: Pc) {
    pc == Waiting(WaitSpin) || pc == Cancelling(CancelSpin)
  }

  predicate Holds(pc: Pc) {
    match pc
    case User => false
    case Waiting(w) =>
      || w.WaitCheck? || w.WaitRefuseUnlock? || w.WaitStoreArm? || w.WaitClearCancel?
      || w.WaitUnlock?
    case Cancelling(x) =>
      || x.CancelCheck? || x.CancelRefuseUnlock? || x.CancelStoreFlag? || x.CancelStoreDone?
      || x.CancelUnlock?
  }

  predicate HandlerHolds(h: HandlerPc) {
    h.NotifyCheck? || h.NotifyStore? || h.NotifyUnlock? || h.NotifyUnlockMiss?
  }

  // ---------- which actions can happen ----------

  /** A thread executes when it is on a CPU that is not running a handler. */
  predicate Running(s: State, t: Tid) {
    && t < |s.threads| && s.threads[t].cpu.Some?
    && s.threads[t].cpu.value < |s.handlers| && s.handlers[s.threads[t].cpu.value] == Idle
  }

  predicate Asleep(s: State, t: Tid) {
    t < |s.threads| && s.threads[t].pc == Waiting(WaitAsleep) && t in s.interruptible
  }

  predicate Enabled(s: State, a: Action) {
    match a
    case CallWait(t) => Running(s, t) && s.threads[t].pc == User
    case CallCancel(t) => Running(s, t) && s.threads[t].pc == User
    case StepThread(t) =>
      && Running(s, t) && s.threads[t].pc != User && !Asleep(s, t)
      && (Spins(s.threads[t].pc) ==> s.lock == None)
    case Dispatch(t, c) =>
      && t < |s.threads| && s.threads[t].cpu == None && !Asleep(s, t)
      && c < |s.handlers| && s.handlers[c] == Idle
      && forall u: Tid :: u < |s.threads| ==> s.threads[u].cpu != Some(c)
    case Preempt(t) => Running(s, t) && !Masked(s.threads[t].pc)
    case Signal(t) => t < |s.threads| && s.threads[t].pc != User
    case RaiseBit(bit) => bit < 32
    case Interrupt(c) =>
      && c < |s.handlers| && s.handlers[c] == Idle
      && forall u: Tid :: u < |s.threads| && s.threads[u].cpu == Some(c) ==>
           !Masked(s.threads[u].pc)
    case StepHandler(c) =>
      && c < |s.handlers| && s.handlers[c] != Idle
      && (s.handlers[c].NotifySpin? ==> s.lock == None)
  }

  // ---------- what they do ----------

  function SetThread(s: State, t: Tid, th: Thread): State
    requires t < |s.threads|
  {
    s.(threads := s.threads[t := th])
  }

  function Move(s: State, t: Tid, pc: Pc): State
    requires t < |s.threads|
  {
    SetThread(s, t, s.threads[t].(pc := pc))
  }

  /** Move on and append this call's own event to the history. */
  function Settle(s: State, t: Tid, pc: Pc, e: Event): State
    requires t < |s.threads|
  {
    SetThread(s, t, s.threads[t].(pc := pc, at := |s.log|)).(log := s.log + [e])
  }

  /** Leave the driver with a result; a pending signal is delivered on the way out. */
  function Leave(s: State, t: Tid, op: Op, code: Code): State
    requires t < |s.threads|
  {
    var th := s.threads[t];
    SetThread(s, t, th.(pc := User, signalled := false))
      .(results := s.results + [Result(t, op, th.at, |s.log|, th.signalled, code)])
  }

  /** wake_up_interruptible: every queued thread that is marked becomes runnable and is unqueued. */
  function WakeUp(s: State): State {
    s.(interruptible := s.interruptible - s.queue, queue := s.queue - s.interruptible)
  }

  function WaitNext(s: State, t: Tid): State
    requires t < |s.threads| && s.threads[t].pc.Waiting?
  {
    var th := s.threads[t];
    match th.pc.w
    case WaitSpin => Move(s, t, Waiting(WaitCheck)).(lock := Some(InThread(t)))
    case WaitCheck =>
      if s.waiting == 1 then Settle(s, t, Waiting(WaitRefuseUnlock), WaitRefused(t))
      else Move(s, t, Waiting(WaitStoreArm))
    case WaitRefuseUnlock => Move(s, t, Waiting(WaitRefuseRestore)).(lock := None)
    case WaitRefuseRestore => Leave(s, t, OpWait, EAlready)
    case WaitStoreArm => Settle(s, t, Waiting(WaitClearCancel), Arm(t)).(waiting := 1)
    case WaitClearCancel =>
      Move(s, t, Waiting(WaitUnlock)).(cancelled := 0, log := s.log + [ClearFlag(t)])
    case WaitUnlock => Move(s, t, Waiting(WaitRestore)).(lock := None)
    case WaitRestore => Move(s, t, Waiting(WaitFirstCheck))
    case WaitFirstCheck => Move(s, t, Waiting(if s.waiting == 0 then WaitRead else WaitPrepare))
    case WaitPrepare =>
      if th.signalled then Move(s, t, Waiting(WaitRecheck(true))).(queue := s.queue - {t})
      else Move(s, t, Waiting(WaitRecheck(false)))
             .(queue := s.queue + {t}, interruptible := s.interruptible + {t})
    case WaitRecheck(interrupted) =>
      Move(s, t, Waiting(if s.waiting == 0 then WaitFinish else if interrupted then WaitRead
                         else WaitSchedule))
    case WaitSchedule =>
      if t in s.interruptible && !th.signalled then
        SetThread(s, t, th.(pc := Waiting(WaitAsleep), cpu := None))
      else Move(s, t, Waiting(WaitPrepare)).(interruptible := s.interruptible - {t})
    case WaitAsleep => Move(s, t, Waiting(WaitPrepare))
    case WaitFinish =>
      Move(s, t, Waiting(WaitRead))
        .(queue := s.queue - {t}, interruptible := s.interruptible - {t})
    case WaitRead => Leave(s, t, OpWait, if s.cancelled == 1 then ECanceled else Zero)
  }

  function CancelNext(s: State, t: Tid): State
    requires t < |s.threads| && s.threads[t].pc.Cancelling?
  {
    match s.threads[t].pc.x
    case CancelSpin => Move(s, t, Cancelling(CancelCheck)).(lock := Some(InThread(t)))
    case CancelCheck =>
      if s.waiting == 0 then Settle(s, t, Cancelling(CancelRefuseUnlock), CancelRefused(t))
      else Settle(s, t, Cancelling(CancelStoreFlag), CancelPassed(t))
    case CancelRefuseUnlock => Move(s, t, Cancelling(CancelRefuseRestore)).(lock := None)
    case CancelRefuseRestore => Leave(s, t, OpCancel, EAlready)
    case CancelStoreFlag =>
      Move(s, t, Cancelling(CancelStoreDone)).(cancelled := 1, log := s.log + [SetFlag(t)])
    case CancelStoreDone => Settle(s, t, Cancelling(CancelUnlock), Cancel(t)).(waiting := 0)
    case CancelUnlock => Move(s, t, Cancelling(CancelRestore)).(lock := None)
    case CancelRestore => Move(s, t, Cancelling(CancelWake))
    case CancelWake => Leave(WakeUp(s), t, OpCancel, Zero)
  }

  function SetHandler(s: State, c: Cpu, h: HandlerPc): State
    requires c < |s.handlers|
  {
    s.(handlers := s.handlers[c := h])
  }

  /** interrupt_adio16f_style with accesio_notify_user expanded in it. */
  function HandlerNext(s: State, c: Cpu): State
    requires c < |s.handlers|
  {
    match s.handlers[c]
    case Idle => s
    case ReadStatus =>
      SetHandler(s, c, if s.status * INTERRUPT_BITS == {} then Idle else Acknowledge(s.status))
    case Acknowledge(seen) =>
      SetHandler(s, c, NotifySpin(seen)).(status := s.status - seen * INTERRUPT_BITS)
    case NotifySpin(seen) => SetHandler(s, c, NotifyCheck(seen)).(lock := Some(InHandler(c)))
    case NotifyCheck(seen) =>
      if s.waiting != 0 then SetHandler(s, c, NotifyStore(seen))
      else SetHandler(s, c, NotifyUnlockMiss).(log := s.log + [NotifyMiss(c, seen)])
    case NotifyStore(seen) =>
      SetHandler(s, c, NotifyUnlock).(waiting := 0, log := s.log + [Notify(c, seen)])
    case NotifyUnlock => SetHandler(s, c, NotifyWake).(lock := None)
    case NotifyWake => SetHandler(WakeUp(s), c, Idle)
    case NotifyUnlockMiss => SetHandler(s, c, Idle).(lock := None)
  }

  function Exec(s: State, a: Action): State
    requires Enabled(s, a)
  {
    match a
    case CallWait(t) => Move(s, t, Waiting(WaitSpin))
    case CallCancel(t) => Move(s, t, Cancelling(CancelSpin))
    case StepThread(t) => if s.threads[t].pc.Waiting? then WaitNext(s, t) else CancelNext(s, t)
    case Dispatch(t, c) => SetThread(s, t, s.threads[t].(cpu := Some(c)))
    case Preempt(t) => SetThread(s, t, s.threads[t].(cpu := None))
    case Signal(t) =>
      SetThread(s, t, s.threads[t].(signalled := true))
        .(interruptible := s.interruptible - {t})
    case RaiseBit(bit) => s.(status := s.status + {bit}, log := s.log + [Raise(bit)])
    case Interrupt(c) => SetHandler(s, c, ReadStatus)
    case StepHandler(c) => HandlerNext(s, c)
  }

  // ---------- runs ----------

  ghost predicate Run(ss: seq<State>, acts: seq<Action>) {
    && |ss| == |acts| + 1
    && Init(ss[0])
    && forall i :: 0 <= i < |acts| ==> Enabled(ss[i], acts[i]) && ss[i + 1] == Exec(ss[i], acts[i])
  }

  ghost predicate Reachable(s: State) {
    exists ss, acts :: Run(ss, acts) && ss[|ss| - 1] == s
  }
}
