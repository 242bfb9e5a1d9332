/**
 The shared context of one card, updated in place as the driver does.  WAIT, CANCEL and the handler
 are written statement by statement in the order of their source; after each statement the other
 threads, the other handlers, the scheduler and the hardware take any number of steps.
 */
module IrqContext {
  import opened Options
  import opened StatusWord
  import opened IrqHistory
  import opened IrqMachine
  import opened IrqSteps
  import opened IrqInvariant
  import opened IrqCalls
  import opened IrqTraces

  /** The run goes on with the next statement of this context, or what we watch of it ends here. */
  datatype Turn = Goes | Cut {
    predicate IsFailure() { Cut? }

    function PropagateFailure(): Turn
      requires Cut?
    {
      this
    }
  }

  // ---------- what a returned call says ----------

  /** The answer that thread t's call has just been given, as the history so far justifies it. */
  ghost predicate JustReturned(s: State, t: Tid, op: Op, code: Code, since: nat) {
    && s.results != []
    && var r := s.results[|s.results| - 1];
       && r.t == t && r.op == op && r.code == code
       && since <= r.at < |s.log| && r.end == |s.log|
       && match op
          case OpWait => WaitAnswer(s.log, r)
          case OpCancel => CancelAnswer(s.log, r)
  }

  /**
   -EALREADY exactly when the last committed event was an Arm; otherwise the answer is the last
   store of irq_cancelled, which names what completed this request unless it is a later one that
   disagrees; without a signal the request was completed.
   */
  ghost predicate WaitAnswer(log: seq<Event>, r: Result)
    requires r.at < |log|
  {
    && (r.code == EAlready <==> LastIs(CommittedOf(log[..r.at]), IsArm))
    && (r.code == EAlready ==> log[r.at] == WaitRefused(r.t))
    && (r.code != EAlready ==>
          && log[r.at] == Arm(r.t)
          && (r.code == ECanceled <==> StoredFlag(log) == 1)
          && (!r.signalled ==> CompletedAfter(log, r.at))
          && (r.code == ECanceled ==> CancelPassedAfter(log, r.at))
          && forall c: nat :: FirstCompletion(log, r.at, c) ==>
               (Names(r.code, log[c]) <==> !LastStoreIs(log, c + 1, log[c].Notify?)))
  }

  ghost predicate CancelAnswer(log: seq<Event>, r: Result)
    requires r.at < |log|
  {
    && (r.code == EAlready <==> !LastIs(CommittedOf(log[..r.at]), IsArm))
    && log[r.at] == (if r.code == EAlready then CancelRefused(r.t) else Cancel(r.t))
  }

  lemma WaitAnswerHolds(log: seq<Event>, r: Result)
    requires ResultInHistory(log, r) && r.end == |log| && r.op == OpWait
    ensures r.at < |log| && WaitAnswer(log, r)
  {
    assert log[..r.end] == log;
    EventFindsObject(log, r.at);
    if r.code != EAlready {
      forall c: nat | FirstCompletion(log, r.at, c)
        ensures Names(r.code, log[c]) <==> !LastStoreIs(log, c + 1, log[c].Notify?)
      {
        OutcomeInHistory(log, r, c);
      }
    }
  }

  lemma CancelAnswerHolds(log: seq<Event>, r: Result)
    requires ResultInHistory(log, r) && r.end == |log| && r.op == OpCancel
    ensures r.at < |log| && CancelAnswer(log, r)
  {
    assert log[..r.end] == log;
    EventFindsObject(log, r.at);
  }

  lemma AnswerHolds(s: State)
    requires Reachable(s) && s.results != [] && s.results[|s.results| - 1].end == |s.log|
    ensures var r := s.results[|s.results| - 1];
            && r.at < |s.log|
            && match r.op
               case OpWait => WaitAnswer(s.log, r)
               case OpCancel => CancelAnswer(s.log, r)
  {
    var r := s.results[|s.results| - 1];
    assert ResultInHistory(s.log, r) by {
      ReachableInv(s);
    }
    if r.op == OpWait {
      WaitAnswerHolds(s.log, r);
    } else {
      CancelAnswerHolds(s.log, r);
    }
  }

  /**
   The call of thread t that began in one state has just returned in another: it left one result,
   these events and no others, and is out of the driver.
   */
  ghost predicate Answered(before: State, s: State, t: Tid, op: Op, code: Code) {
    && before.log <= s.log && JustReturned(s, t, op, code, |before.log|)
    && ResultsOf(s.results, InThread(t))
       == ResultsOf(before.results, InThread(t)) + [s.results[|s.results| - 1]]
    && EventsOf(s.log, InThread(t))
       == EventsOf(before.log, InThread(t))
          + (match op
             case OpWait => if code == EAlready then [WaitRefused(t)] else [Arm(t), ClearFlag(t)]
             case OpCancel =>
               if code == EAlready then [CancelRefused(t)]
               else [CancelPassed(t), SetFlag(t), Cancel(t)])
    && !InDriver(s, InThread(t))
  }

  /** It has not returned yet: no result, and the beginning of the events of one of its answers. */
  ghost predicate CutOff(before: State, s: State, t: Tid, op: Op) {
    && before.log <= s.log && InDriver(s, InThread(t))
    && ResultsOf(s.results, InThread(t)) == ResultsOf(before.results, InThread(t))
    && var were, are := EventsOf(before.log, InThread(t)), EventsOf(s.log, InThread(t));
       && were <= are
       && match op
          case OpWait => are <= were + [WaitRefused(t)] || are <= were + [Arm(t), ClearFlag(t)]
          case OpCancel =>
            are <= were + [CancelRefused(t)]
            || are <= were + [CancelPassed(t), SetFlag(t), Cancel(t)]
  }

  lemma PlaceIsPrefix(t: Tid, op: Op, pc: Pc)
    requires pc != User && (pc.Waiting? <==> op == OpWait)
    ensures match op
            case OpWait =>
              EventsAt(t, pc) <= [WaitRefused(t)] || EventsAt(t, pc) <= [Arm(t), ClearFlag(t)]
            case OpCancel =>
              EventsAt(t, pc) <= [CancelRefused(t)]
              || EventsAt(t, pc) <= [CancelPassed(t), SetFlag(t), Cancel(t)]
  {
  }

  class DeviceContext {
    var waitingForIrq: int
    var irqCancelled: int
    var irqLock: Option<Ctx>
    var waitQueue: set<Tid>
    var interruptible: set<Tid>
    var threads: seq<Thread>
    var handlers: seq<HandlerPc>
    var status: Word
    var history: seq<Event>
    var results: seq<Result>
    var horizon: nat                  // how many statements are still watched
    var script: seq<Action>           // what the others will try to do
    ghost var taken: nat              // the actions of the call that is followed
    ghost var others: nat             // those of the others meanwhile

    function Now(): State
      reads this`waitingForIrq, this`irqCancelled, this`irqLock, this`waitQueue, this`interruptible
      reads this`threads, this`handlers, this`status, this`history, this`results
    {
      State(waitingForIrq, irqCancelled, irqLock, waitQueue, interruptible, threads, handlers,
            status, history, results)
    }

    ghost predicate Valid()
      reads this
    {
      Reachable(Now())
    }

    /** kzalloc and the initialisation of the lock and the queue. */
    constructor (threadCount: nat, cpuCount: nat, latched: Word, horizon: nat, script: seq<Action>)
      ensures Init(Now()) && Valid()
      ensures |threads| == threadCount && |handlers| == cpuCount && status == latched
      ensures this.horizon == horizon && this.script == script
    {
      waitingForIrq, irqCancelled, irqLock := 0, 0, None;
      waitQueue, interruptible := {}, {};
      threads := seq(threadCount, _ => Thread(User, false, None, 0));
      handlers := seq(cpuCount, _ => Idle);
      status, history, results := latched, [], [];
      this.horizon, this.script, taken, others := horizon, script, 0, 0;
      new;
      InitReachable(Now());
    }

    // ---------- a call under way ----------

    /** What stands before a call of this context. */
    function Begin(x: Ctx, entry: Action): Start
      reads this
    {
      Start(x, entry, Now(), horizon, |script|)
    }

    /**
     Every statement that is no longer watched was executed, but for the last few, and the others
     have done no more than their script says.
     */
    ghost predicate Accounts(p: Start, last: nat)
      reads this
    {
      horizon + taken == p.horizon + last && others + |script| <= p.others
    }

    /** The call that began at p can execute its next statement. */
    ghost predicate Going(p: Start)
      reads this
    {
      && Path(p, taken, others, Now()) && taken > 0 && Accounts(p, 0)
      && Enabled(Now(), StepOf(p.who))
    }

    /** The call that began at p waits for something, or is watched no further. */
    ghost predicate Stopped(p: Start)
      reads this
    {
      && Path(p, taken, others, Now()) && taken > 0 && Accounts(p, 1) && InDriver(Now(), p.who)
      && (horizon == 0 || !Enabled(Now(), StepOf(p.who)))
    }

    /** The call that began at p is over. */
    ghost predicate Over(p: Start)
      reads this
    {
      && Path(p, taken, others, Now()) && taken > 0 && Accounts(p, 1) && !InDriver(Now(), p.who)
    }

    // ---------- what the others do ----------

    method Become(s: State)
      modifies this
      ensures Now() == s
      ensures horizon == old(horizon) && script == old(script)
      ensures taken == old(taken) && others == old(others)
    {
      waitingForIrq, irqCancelled, irqLock := s.waiting, s.cancelled, s.lock;
      waitQueue, interruptible, threads, handlers := s.queue, s.interruptible, s.threads, s.handlers;
      status, history, results := s.status, s.log, s.results;
    }

    /** The next action of the script, if it is somebody else's and can happen now. */
    method OtherStep(p: Start)
      requires Path(p, taken, others, Now()) && taken > 0 && script != []
      requires SamePlace(Now(), Now(), p.who)
      modifies this
      ensures Path(p, taken, others, Now())
      ensures horizon == old(horizon) && taken == old(taken)
      ensures script == old(script)[1..] && others <= old(others) + 1
      ensures Untouched(old(Now()), Now(), p.who)
    {
      var a := script[0];
      if Enabled(Now(), a) && !OwnAction(a, p.who) {
        var s := Exec(Now(), a);
        OthersStayOut(Now(), a, p.who);
        PathOther(p, taken, others, Now(), a, s);
        Become(s);
        others := others + 1;
      }
      script := script[1..];
    }

    /** Any number of actions of the script. */
    method RunOthers(p: Start)
      requires Path(p, taken, others, Now()) && taken > 0
      requires SamePlace(Now(), Now(), p.who)
      modifies this
      ensures Path(p, taken, others, Now())
      ensures horizon == old(horizon) && taken == old(taken)
      ensures others + |script| <= old(others + |script|)
      ensures Untouched(old(Now()), Now(), p.who)
    {
      var steps: nat :| steps <= |script|;
      for n := 0 to steps
        invariant Path(p, taken, others, Now())
        invariant horizon == old(horizon) && taken == old(taken)
        invariant |script| == old(|script|) - n && others <= old(others) + n
        invariant Untouched(old(Now()), Now(), p.who)
      {
        OtherStep(p);
      }
    }

    /** The statement just executed was the machine's step that this call had to make. */
    ghost predicate Made(p: Start, before: State, a: Action)
      reads this
    {
      && Path(p, taken, others, before) && Enabled(before, a) && Now() == Exec(before, a)
      && Accounts(p, 0)
      && a == (if taken == 0 then p.entry else StepOf(p.who)) && (taken == 0 ==> others == 0)
    }

    /** Add it to the path of the call. */
    ghost method Take(p: Start, before: State, a: Action)
      requires Made(p, before, a)
      modifies this`taken
      ensures Path(p, taken, others, Now()) && Accounts(p, 1) && taken == old(taken) + 1
    {
      PathOwn(p, taken, others, before, a, Now());
      taken := taken + 1;
    }

    /**
     Between two statements: the others run until this context can execute its next one, or it is
     watched no further.
     */
    method Others(p: Start, ghost before: State, ghost a: Action) returns (turn: Turn)
      requires Made(p, before, a) && InDriver(Now(), p.who)
      modifies this
      ensures SamePlace(old(Now()), Now(), p.who) && old(history) <= history
      ensures taken == old(taken) + 1
      ensures turn.Goes? ==> horizon < old(horizon) && Going(p)
      ensures turn.Cut? ==> Stopped(p)
    {
      Take(p, before, a);
      RunOthers(p);
      if horizon == 0 || !Enabled(Now(), StepOf(p.who)) {
        return Cut;
      }
      horizon := horizon - 1;
      turn := Goes;
    }

    // ---------- what the kernel provides ----------

    /** The thread's next statement. */
    method GoTo(t: Tid, pc: Pc)
      requires t < |threads|
      modifies this`threads
      ensures threads == old(threads)[t := old(threads)[t].(pc := pc)]
    {
      threads := threads[t := threads[t].(pc := pc)];
    }

    /** Append the call's own event to the history. */
    method Record(t: Tid, e: Event)
      requires t < |threads|
      modifies this`threads, this`history
      ensures threads == old(threads)[t := old(threads)[t].(at := |old(history)|)]
      ensures history == old(history) + [e]
    {
      threads := threads[t := threads[t].(at := |history|)];
      history := history + [e];
    }

    /** The return from the ioctl. */
    method ReturnFrom(t: Tid, op: Op, code: Code)
      requires t < |threads|
      modifies this`threads, this`results
      ensures Now() == Leave(old(Now()), t, op, code)
    {
      var th := threads[t];
      results := results + [Result(t, op, th.at, |history|, th.signalled, code)];
      threads := threads[t := th.(pc := User, signalled := false)];
    }

    /** Walk the queue: the marked entries are woken and unqueued, the others stay as they are. */
    method WakeUpInterruptible()
      modifies this`waitQueue, this`interruptible
      ensures waitQueue == old(waitQueue) - old(interruptible)
      ensures interruptible == old(interruptible) - old(waitQueue)
    {
      var rest := waitQueue;
      while rest != {}
        invariant rest <= old(waitQueue)
        invariant forall u: Tid :: u in interruptible <==>
                    u in old(interruptible) && (u in rest || u !in old(waitQueue))
        invariant forall u: Tid :: u in waitQueue <==>
                    u in old(waitQueue) && (u in rest || u !in old(interruptible))
        decreases |rest|
      {
        var u :| u in rest;
        if u in interruptible {
          interruptible := interruptible - {u};
          waitQueue := waitQueue - {u};
        }
        rest := rest - {u};
      }
    }

    /** In the call that began at p, thread t can execute its statement at pc. */
    ghost predicate Ready(t: Tid, pc: Pc, p: Start)
      reads this
    {
      p.who == InThread(t) && Going(p) && threads[t].pc == pc
    }

    /** From the ioctl's entry to the check under the lock. */
    method SpinLockIrqsave(t: Tid, call: Action, p: Start) returns (turn: Turn)
      requires call == CallWait(t) || call == CallCancel(t)
      requires Enabled(Now(), call) && p == Begin(InThread(t), call) && taken == others == 0
      modifies this
      ensures old(history) <= history
      ensures turn.Cut? ==> Stopped(p)
      ensures turn.Goes? ==>
                Ready(t, if call.CallWait? then Waiting(WaitCheck) else Cancelling(CancelCheck), p)
    {
      turn := EnterDriver(t, call, p);
      if turn.Goes? {
        ghost var s := Now();
        irqLock := Some(InThread(t));
        GoTo(t, if call.CallWait? then Waiting(WaitCheck) else Cancelling(CancelCheck));
        turn := Others(p, s, StepThread(t));
      }
    }

    method EnterDriver(t: Tid, call: Action, p: Start) returns (turn: Turn)
      requires call == CallWait(t) || call == CallCancel(t)
      requires Enabled(Now(), call) && p == Begin(InThread(t), call) && taken == others == 0
      modifies this
      ensures old(history) <= history
      ensures turn.Cut? ==> Stopped(p)
      ensures turn.Goes? ==>
                Ready(t, if call.CallWait? then Waiting(WaitSpin) else Cancelling(CancelSpin), p)
    {
      ghost var s := Now();
      PathStarts(p);
      GoTo(t, if call.CallWait? then Waiting(WaitSpin) else Cancelling(CancelSpin));
      turn := Others(p, s, call);
    }

    /** The first half of spin_unlock_irqrestore. */
    method SpinUnlock(t: Tid, pc: Pc, p: Start) returns (turn: Turn)
      requires Ready(t, pc, p) && Restoring(pc) != pc
      modifies this
      ensures old(history) <= history
      ensures turn.Cut? ==> Stopped(p)
      ensures turn.Goes? ==> Ready(t, Restoring(pc), p)
    {
      ghost var s := Now();
      irqLock := None;
      GoTo(t, Restoring(pc));
      turn := Others(p, s, StepThread(t));
    }

    /** spin_unlock_irqrestore: unlock, then take interrupts again. */
    method SpinUnlockIrqrestore(t: Tid, pc: Pc, p: Start) returns (turn: Turn)
      requires Ready(t, pc, p) && (pc == Waiting(WaitUnlock) || pc == Cancelling(CancelUnlock))
      modifies this
      ensures old(history) <= history
      ensures turn.Cut? ==> Stopped(p)
      ensures turn.Goes? ==>
                Ready(t, if pc.Waiting? then Waiting(WaitFirstCheck) else Cancelling(CancelWake), p)
    {
      turn := SpinUnlock(t, pc, p);
      if turn.Goes? {
        ghost var s := Now();
        GoTo(t, if pc.Waiting? then Waiting(WaitFirstCheck) else Cancelling(CancelWake));
        turn := Others(p, s, StepThread(t));
      }
    }

    // ---------- wait_event_interruptible ----------

    /** prepare_to_wait_event; tells whether a signal is pending. */
    method PrepareToWait(t: Tid, p: Start) returns (turn: Turn, interrupted: bool)
      requires Ready(t, Waiting(WaitPrepare), p)
      modifies this
      ensures old(history) <= history
      ensures turn.Cut? ==> Stopped(p)
      ensures turn.Goes? ==>
                horizon < old(horizon) && Ready(t, Waiting(WaitRecheck(interrupted)), p)
    {
      ghost var s := Now();
      interrupted := threads[t].signalled;
      if interrupted {
        waitQueue := waitQueue - {t};
      } else {
        waitQueue := waitQueue + {t};
        interruptible := interruptible + {t};
      }
      GoTo(t, Waiting(WaitRecheck(interrupted)));
      turn := Others(p, s, StepThread(t));
    }

    /** Sleep until somebody wakes the thread. */
    method Sleep(t: Tid, p: Start) returns (turn: Turn)
      requires Ready(t, Waiting(WaitSchedule), p) && t in interruptible && !threads[t].signalled
      modifies this
      ensures old(history) <= history
      ensures turn.Cut? ==> Stopped(p)
      ensures turn.Goes? ==> horizon < old(horizon) && Ready(t, Waiting(WaitAsleep), p)
    {
      ghost var s := Now();
      threads := threads[t := threads[t].(pc := Waiting(WaitAsleep), cpu := None)];
      turn := Others(p, s, StepThread(t));
    }

    method WakeAndLoop(t: Tid, p: Start) returns (turn: Turn)
      requires Ready(t, Waiting(WaitAsleep), p)
      modifies this
      ensures old(history) <= history
      ensures turn.Cut? ==> Stopped(p)
      ensures turn.Goes? ==> horizon < old(horizon) && Ready(t, Waiting(WaitPrepare), p)
    {
      ghost var s := Now();
      GoTo(t, Waiting(WaitPrepare));
      turn := Others(p, s, StepThread(t));
    }

    /** schedule(): sleep, unless the thread is runnable already. */
    method Schedule(t: Tid, p: Start) returns (turn: Turn)
      requires Ready(t, Waiting(WaitSchedule), p)
      modifies this
      ensures old(history) <= history
      ensures turn.Cut? ==> Stopped(p)
      ensures turn.Goes? ==> horizon < old(horizon) && Ready(t, Waiting(WaitPrepare), p)
    {
      if t in interruptible && !threads[t].signalled {
        turn := Sleep(t, p);
        if turn.Goes? {
          turn := WakeAndLoop(t, p);
        }
      } else {
        ghost var s := Now();
        interruptible := interruptible - {t};
        GoTo(t, Waiting(WaitPrepare));
        turn := Others(p, s, StepThread(t));
      }
    }

    /** finish_wait. */
    method FinishWait(t: Tid, p: Start) returns (turn: Turn)
      requires Ready(t, Waiting(WaitFinish), p)
      modifies this
      ensures old(history) <= history
      ensures turn.Cut? ==> Stopped(p)
      ensures turn.Goes? ==> horizon < old(horizon) && Ready(t, Waiting(WaitRead), p)
    {
      ghost var s := Now();
      waitQueue := waitQueue - {t};
      interruptible := interruptible - {t};
      GoTo(t, Waiting(WaitRead));
      turn := Others(p, s, StepThread(t));
    }

    /** Look at the condition, and go to the statement that its value asks for. */
    method TestCondition(t: Tid, pc: Pc, ifDone: Pc, ifNot: Pc, p: Start)
      returns (turn: Turn, done: bool)
      requires Ready(t, pc, p) && Branches(pc, ifDone, ifNot)
      modifies this
      ensures old(history) <= history
      ensures turn.Cut? ==> Stopped(p)
      ensures turn.Goes? ==>
                horizon < old(horizon) && Ready(t, if done then ifDone else ifNot, p)
    {
      ghost var s := Now();
      done := waitingForIrq == 0;
      GoTo(t, if done then ifDone else ifNot);
      turn := Others(p, s, StepThread(t));
    }

    /** One turn of the loop in wait_event_interruptible. */
    method WaitOnce(t: Tid, p: Start) returns (turn: Turn, over: bool)
      requires Ready(t, Waiting(WaitPrepare), p)
      modifies this
      ensures old(history) <= history
      ensures turn.Cut? ==> Stopped(p)
      ensures turn.Goes? ==>
                && horizon < old(horizon)
                && Ready(t, Waiting(if over then WaitRead else WaitPrepare), p)
    {
      over := true;
      var done, interrupted;
      turn, interrupted := PrepareToWait(t, p);
      if turn.Cut? {
        return;
      }
      turn, done := TestCondition(t, Waiting(WaitRecheck(interrupted)), Waiting(WaitFinish),
                                  Waiting(if interrupted then WaitRead else WaitSchedule), p);
      if turn.Cut? {
        return;
      }
      if done {
        turn := FinishWait(t, p);
      } else if !interrupted {
        over := false;
        turn := Schedule(t, p);
      }
    }

    /** wait_event_interruptible(wait_queue, waiting_for_irq == 0), whose result WAIT drops. */
    method WaitEventInterruptible(t: Tid, p: Start) returns (turn: Turn)
      requires Ready(t, Waiting(WaitFirstCheck), p)
      modifies this
      ensures old(history) <= history
      ensures turn.Cut? ==> Stopped(p)
      ensures turn.Goes? ==> Ready(t, Waiting(WaitRead), p)
    {
      var over;
      turn, over := TestCondition(t, Waiting(WaitFirstCheck), Waiting(WaitRead),
                                  Waiting(WaitPrepare), p);
      while turn.Goes? && !over
        invariant old(history) <= history
        invariant turn.Cut? ==> Stopped(p)
        invariant turn.Goes? ==> Ready(t, Waiting(if over then WaitRead else WaitPrepare), p)
        decreases turn.Goes?, horizon
      {
        turn, over := WaitOnce(t, p);
      }
    }

    // ---------- the shared fields ----------

    /** WAIT stores waiting_for_irq = 1. */
    method ArmWaiting(t: Tid, p: Start) returns (turn: Turn)
      requires Ready(t, Waiting(WaitStoreArm), p)
      modifies this
      ensures old(history) <= history
      ensures turn.Cut? ==> Stopped(p)
      ensures turn.Goes? ==> Ready(t, Waiting(WaitClearCancel), p)
    {
      ghost var s := Now();
      waitingForIrq := 1;
      Record(t, Arm(t));
      GoTo(t, Waiting(WaitClearCancel));
      turn := Others(p, s, StepThread(t));
    }

    /** WAIT stores irq_cancelled = 0. */
    method ClearCancelled(t: Tid, p: Start) returns (turn: Turn)
      requires Ready(t, Waiting(WaitClearCancel), p)
      modifies this
      ensures old(history) <= history
      ensures turn.Cut? ==> Stopped(p)
      ensures turn.Goes? ==> Ready(t, Waiting(WaitUnlock), p)
    {
      ghost var s := Now();
      irqCancelled := 0;
      history := history + [ClearFlag(t)];
      GoTo(t, Waiting(WaitUnlock));
      turn := Others(p, s, StepThread(t));
    }

    /** CANCEL stores irq_cancelled = 1. */
    method SetCancelled(t: Tid, p: Start) returns (turn: Turn)
      requires Ready(t, Cancelling(CancelStoreFlag), p)
      modifies this
      ensures old(history) <= history
      ensures turn.Cut? ==> Stopped(p)
      ensures turn.Goes? ==> Ready(t, Cancelling(CancelStoreDone), p)
    {
      ghost var s := Now();
      irqCancelled := 1;
      history := history + [SetFlag(t)];
      GoTo(t, Cancelling(CancelStoreDone));
      turn := Others(p, s, StepThread(t));
    }

    /** CANCEL stores waiting_for_irq = 0. */
    method CancelWaiting(t: Tid, p: Start) returns (turn: Turn)
      requires Ready(t, Cancelling(CancelStoreDone), p)
      modifies this
      ensures old(history) <= history
      ensures turn.Cut? ==> Stopped(p)
      ensures turn.Goes? ==> Ready(t, Cancelling(CancelUnlock), p)
    {
      ghost var s := Now();
      waitingForIrq := 0;
      Record(t, Cancel(t));
      GoTo(t, Cancelling(CancelUnlock));
      turn := Others(p, s, StepThread(t));
    }

    /** WAIT's look at waiting_for_irq under the lock. */
    method WaitFindsBusy(t: Tid, p: Start) returns (turn: Turn, busy: bool)
      requires Ready(t, Waiting(WaitCheck), p)
      modifies this
      ensures old(history) <= history
      ensures turn.Cut? ==> Stopped(p)
      ensures turn.Goes? ==> Ready(t, Waiting(if busy then WaitRefuseUnlock else WaitStoreArm), p)
    {
      ghost var s := Now();
      busy := waitingForIrq == 1;
      if busy {
        Record(t, WaitRefused(t));
        GoTo(t, Waiting(WaitRefuseUnlock));
      } else {
        GoTo(t, Waiting(WaitStoreArm));
      }
      turn := Others(p, s, StepThread(t));
    }

    /** CANCEL's look at waiting_for_irq under the lock. */
    method CancelFindsNone(t: Tid, p: Start) returns (turn: Turn, none: bool)
      requires Ready(t, Cancelling(CancelCheck), p)
      modifies this
      ensures old(history) <= history
      ensures turn.Cut? ==> Stopped(p)
      ensures turn.Goes? ==>
                Ready(t, Cancelling(if none then CancelRefuseUnlock else CancelStoreFlag), p)
    {
      ghost var s := Now();
      none := waitingForIrq == 0;
      Record(t, if none then CancelRefused(t) else CancelPassed(t));
      GoTo(t, Cancelling(if none then CancelRefuseUnlock else CancelStoreFlag));
      turn := Others(p, s, StepThread(t));
    }

    /** The call of thread t that began at p has just returned code. */
    ghost predicate Returned(t: Tid, op: Op, code: Code, p: Start)
      reads this
    {
      && p.who == InThread(t) && Over(p) && results != []
      && var r := results[|results| - 1];
         r.t == t && r.op == op && r.code == code && r.end == |history|
    }

    /** The return of a call that has nobody to wake. */
    method Answer(t: Tid, op: Op, code: Code, pc: Pc, p: Start)
      requires Ready(t, pc, p) && Returns(pc, irqCancelled, op, code)
      modifies this
      ensures history == old(history) && Returned(t, op, code, p)
    {
      ghost var s := Now();
      ReturnFrom(t, op, code);
      Take(p, s, StepThread(t));
    }

    /** Unlock and return -EALREADY; interrupts come back on the way out. */
    method Refuse(t: Tid, op: Op, p: Start) returns (turn: Turn)
      requires Ready(t, if op == OpWait then Waiting(WaitRefuseUnlock)
                        else Cancelling(CancelRefuseUnlock), p)
      modifies this
      ensures old(history) <= history
      ensures turn.Cut? ==> Stopped(p)
      ensures turn.Goes? ==> Returned(t, op, EAlready, p)
    {
      var unlock := if op == OpWait then Waiting(WaitRefuseUnlock) else Cancelling(CancelRefuseUnlock);
      turn := SpinUnlock(t, unlock, p);
      if turn.Goes? {
        Answer(t, op, EAlready, Restoring(unlock), p);
      }
    }

    // ---------- ioctl_ACCESIO_PCI_IRQ_WAIT ----------

    /**
     WAIT of thread t.  Besides what its answer says about the history, it leaves exactly its own
     events and one result; it stops only where it cannot go on, and out of the loop of its wait
     it does that within seven statements.
     */
    method IrqWait(t: Tid) returns (turn: Turn, code: Code)
      requires Valid() && Enabled(Now(), CallWait(t))
      modifies this
      ensures Valid() && old(history) <= history
      ensures turn.Goes? ==>
                && Answered(old(Now()), Now(), t, OpWait, code)
                && Over(old(Begin(InThread(t), CallWait(t))))
                && (code == EAlready ==> taken == 5)
      ensures turn.Cut? ==>
                && CutOff(old(Now()), Now(), t, OpWait)
                && Stopped(old(Begin(InThread(t), CallWait(t))))
      ensures turn.Cut? && old(horizon) >= 7 ==>
                !Enabled(Now(), StepThread(t)) || InWaitEvent(threads[t].pc)
    {
      var p := Begin(InThread(t), CallWait(t));
      taken, others := 0, 0;
      turn, code := WaitStatements(t, p);
      if turn.Goes? {
        ReturnedCall(t, OpWait, code, p);
      } else {
        StoppedCall(t, OpWait, p);
      }
    }

    /** The statements of WAIT in their order. */
    method WaitStatements(t: Tid, p: Start) returns (turn: Turn, code: Code)
      requires Enabled(Now(), CallWait(t)) && p == Begin(InThread(t), CallWait(t))
      requires taken == others == 0
      modifies this
      ensures turn.Cut? ==> Stopped(p)
      ensures turn.Goes? ==> Returned(t, OpWait, code, p)
    {
      code := EAlready;
      :- SpinLockIrqsave(t, CallWait(t), p);
      var busy;
      turn, busy := WaitFindsBusy(t, p);
      if turn.Cut? {
        return;
      }
      if busy {
        turn := Refuse(t, OpWait, p);
        return;
      } else {
        :- ArmWaiting(t, p);
        :- ClearCancelled(t, p);
      }
      :- SpinUnlockIrqrestore(t, Waiting(WaitUnlock), p);
      :- WaitEventInterruptible(t, p);
      code := ReadOutcome(t, p);
      return Goes, code;
    }

    /** The read of irq_cancelled without the lock, and the return. */
    method ReadOutcome(t: Tid, p: Start) returns (code: Code)
      requires Ready(t, Waiting(WaitRead), p)
      modifies this
      ensures history == old(history) && Returned(t, OpWait, code, p)
    {
      if irqCancelled == 1 {
        code := ECanceled;
      } else {
        code := Zero;
      }
      Answer(t, OpWait, code, Waiting(WaitRead), p);
    }

    // ---------- ioctl_ACCESIO_PCI_IRQ_WAIT_CANCEL ----------

    /**
     CANCEL of thread t.  It leaves exactly its own events and one result, and within seven
     statements it has returned or cannot go on.
     */
    method IrqWaitCancel(t: Tid) returns (turn: Turn, code: Code)
      requires Valid() && Enabled(Now(), CallCancel(t))
      modifies this
      ensures Valid() && old(history) <= history
      ensures turn.Goes? ==>
                && Answered(old(Now()), Now(), t, OpCancel, code)
                && Over(old(Begin(InThread(t), CallCancel(t))))
                && taken == (if code == EAlready then 5 else 8)
                && (code != EAlready ==> interruptible == {})
      ensures turn.Cut? ==>
                && CutOff(old(Now()), Now(), t, OpCancel)
                && Stopped(old(Begin(InThread(t), CallCancel(t))))
      ensures turn.Cut? && old(horizon) >= 7 ==> !Enabled(Now(), StepThread(t))
    {
      var p := Begin(InThread(t), CallCancel(t));
      taken, others := 0, 0;
      turn, code := CancelStatements(t, p);
      if turn.Goes? {
        ReturnedCall(t, OpCancel, code, p);
      } else {
        StoppedCall(t, OpCancel, p);
      }
    }

    /** The statements of CANCEL in their order. */
    method CancelStatements(t: Tid, p: Start) returns (turn: Turn, code: Code)
      requires Enabled(Now(), CallCancel(t)) && p == Begin(InThread(t), CallCancel(t))
      requires taken == others == 0 && Reachable(p.before)
      modifies this
      ensures turn.Cut? ==> Stopped(p)
      ensures turn.Goes? ==> Returned(t, OpCancel, code, p)
      ensures turn.Goes? && code != EAlready ==> interruptible == {}
    {
      code := EAlready;
      :- SpinLockIrqsave(t, CallCancel(t), p);
      var none;
      turn, none := CancelFindsNone(t, p);
      if turn.Cut? {
        return;
      }
      if none {
        turn := Refuse(t, OpCancel, p);
        return;
      }
      :- SetCancelled(t, p);
      :- CancelWaiting(t, p);
      :- SpinUnlockIrqrestore(t, Cancelling(CancelUnlock), p);
      WakeAndAnswer(t, p);
      return Goes, Zero;
    }

    /** The wake-up and the return of a CANCEL that completed a request. */
    method WakeAndAnswer(t: Tid, p: Start)
      requires Ready(t, Cancelling(CancelWake), p) && Reachable(p.before)
      modifies this
      ensures history == old(history) && interruptible == {}
      ensures Returned(t, OpCancel, Zero, p)
    {
      ghost var s := Now();
      MarkedAreQueued(p);
      WakeUpInterruptible();
      ReturnFrom(t, OpCancel, Zero);
      Take(p, s, StepThread(t));
    }

    lemma MarkedAreQueued(p: Start)
      requires Going(p) && Reachable(p.before)
      ensures interruptible <= waitQueue
    {
      PathReachable(p, taken, others, Now());
      assert QueueOk(Now()) by {
        ReachableInv(Now());
      }
    }

    // ---------- what follows from the path of a call ----------

    lemma ReturnedCall(t: Tid, op: Op, code: Code, p: Start)
      requires Returned(t, op, code, p) && Reachable(p.before)
      ensures Valid() && Answered(p.before, Now(), t, op, code)
      ensures code == EAlready ==> taken == 5
      ensures op == OpCancel && code != EAlready ==> taken == 8
    {
      PathReachable(p, taken, others, Now());
      PathAlong(p, taken, others, Now());
      AnswerHolds(Now());
      LastOfOwn(results, p.who);
    }

    lemma StoppedCall(t: Tid, op: Op, p: Start)
      requires Stopped(p) && Reachable(p.before) && p.who == InThread(t)
      requires p.entry == if op == OpWait then CallWait(t) else CallCancel(t)
      ensures Valid() && CutOff(p.before, Now(), t, op)
      ensures p.horizon >= 7 ==>
                !Enabled(Now(), StepThread(t)) || (op == OpWait && InWaitEvent(threads[t].pc))
    {
      PathReachable(p, taken, others, Now());
      PathAlong(p, taken, others, Now());
      PlaceIsPrefix(t, op, threads[t].pc);
    }

    // ---------- interrupt_adio16f_style ----------

    /** In the run that began at p, the handler of CPU c can execute its statement at h. */
    ghost predicate HandlerReady(c: Cpu, h: HandlerPc, p: Start)
      reads this
    {
      p.who == InHandler(c) && Going(p) && handlers[c] == h
    }

    /** spin_lock of the handler. */
    method SpinLock(c: Cpu, irqStatus: Word, p: Start) returns (turn: Turn)
      requires HandlerReady(c, NotifySpin(irqStatus), p)
      modifies this
      ensures old(history) <= history
      ensures turn.Cut? ==> Stopped(p)
      ensures turn.Goes? ==> HandlerReady(c, NotifyCheck(irqStatus), p)
    {
      ghost var s := Now();
      irqLock := Some(InHandler(c));
      handlers := handlers[c := NotifyCheck(irqStatus)];
      turn := Others(p, s, StepHandler(c));
    }

    /** The handler's look at waiting_for_irq under the lock. */
    method NotifyFindsWaiter(c: Cpu, irqStatus: Word, p: Start)
      returns (turn: Turn, waiting: bool, ghost at: nat)
      requires HandlerReady(c, NotifyCheck(irqStatus), p)
      modifies this
      ensures old(history) <= history
      ensures turn.Cut? ==> Stopped(p)
      ensures turn.Goes? ==>
                HandlerReady(c, if waiting then NotifyStore(irqStatus) else NotifyUnlockMiss, p)
      ensures turn.Goes? && !waiting ==>
                |old(history)| <= at < |history| && history[at] == NotifyMiss(c, irqStatus)
    {
      ghost var s := Now();
      at := |history|;
      waiting := waitingForIrq != 0;
      if waiting {
        handlers := handlers[c := NotifyStore(irqStatus)];
      } else {
        history := history + [NotifyMiss(c, irqStatus)];
        handlers := handlers[c := NotifyUnlockMiss];
      }
      turn := Others(p, s, StepHandler(c));
    }

    /** The branch of accesio_notify_user that completes a request. */
    method CompleteRequest(c: Cpu, irqStatus: Word, p: Start) returns (turn: Turn, ghost at: nat)
      requires HandlerReady(c, NotifyStore(irqStatus), p) && Reachable(p.before)
      modifies this
      ensures old(history) <= history
      ensures turn.Cut? ==> Stopped(p)
      ensures turn.Goes? ==> Left(c, p) && interruptible == {}
      ensures turn.Goes? ==>
                |old(history)| <= at < |history| && history[at] == Notify(c, irqStatus)
    {
      turn, at := ClearWaiting(c, irqStatus, p);
      if turn.Goes? {
        turn := UnlockAndWake(c, p);
      }
    }

    method ClearWaiting(c: Cpu, irqStatus: Word, p: Start) returns (turn: Turn, ghost at: nat)
      requires HandlerReady(c, NotifyStore(irqStatus), p)
      modifies this
      ensures old(history) <= history
      ensures turn.Cut? ==> Stopped(p)
      ensures turn.Goes? ==>
                && HandlerReady(c, NotifyUnlock, p)
                && |old(history)| <= at < |history| && history[at] == Notify(c, irqStatus)
    {
      ghost var s := Now();
      at := |history|;
      waitingForIrq := 0;
      history := history + [Notify(c, irqStatus)];
      handlers := handlers[c := NotifyUnlock];
      turn := Others(p, s, StepHandler(c));
    }

    method UnlockAndWake(c: Cpu, p: Start) returns (turn: Turn)
      requires HandlerReady(c, NotifyUnlock, p) && Reachable(p.before)
      modifies this
      ensures old(history) <= history
      ensures turn.Cut? ==> Stopped(p)
      ensures turn.Goes? ==> Left(c, p) && interruptible == {}
    {
      ghost var s := Now();
      irqLock := None;
      handlers := handlers[c := NotifyWake];
      turn := Others(p, s, StepHandler(c));
      if turn.Goes? {
        WakeAndLeave(c, p);
      }
    }

    /** The wake-up of a handler that completed a request, and its return. */
    method WakeAndLeave(c: Cpu, p: Start)
      requires HandlerReady(c, NotifyWake, p) && Reachable(p.before)
      modifies this
      ensures history == old(history) && Left(c, p) && interruptible == {}
    {
      ghost var s := Now();
      MarkedAreQueued(p);
      WakeUpInterruptible();
      handlers := handlers[c := Idle];
      Take(p, s, StepHandler(c));
    }

    /** The branch of accesio_notify_user that finds nobody waiting. */
    method UnlockMiss(c: Cpu, p: Start)
      requires HandlerReady(c, NotifyUnlockMiss, p)
      modifies this
      ensures history == old(history) && Left(c, p)
    {
      ghost var s := Now();
      irqLock := None;
      handlers := handlers[c := Idle];
      Take(p, s, StepHandler(c));
    }

    /**
     accesio_notify_user, expanded in the handler; at is where its decision is in the history.  A
     completion has woken everybody who was marked to sleep, and the lock is given back.
     */
    method NotifyUser(c: Cpu, irqStatus: Word, p: Start) returns (turn: Turn, ghost at: nat)
      requires HandlerReady(c, NotifySpin(irqStatus), p) && Reachable(p.before)
      modifies this
      ensures old(history) <= history
      ensures turn.Cut? ==> Stopped(p)
      ensures turn.Goes? ==> |old(history)| <= at && Notified(history, at, c, irqStatus)
      ensures turn.Goes? ==> Left(c, p) && (history[at].Notify? ==> interruptible == {})
    {
      var waiting;
      at := 0;
      :- SpinLock(c, irqStatus, p);
      turn, waiting, at := NotifyFindsWaiter(c, irqStatus, p);
      if turn.Cut? {
        return;
      }
      if waiting {
        turn, at := CompleteRequest(c, irqStatus, p);
        if turn.Cut? {
          return;
        }
      } else {
        UnlockMiss(c, p);
      }
      NotifiedOnPath(p, at, c, irqStatus);
    }

    lemma NotifiedOnPath(p: Start, at: nat, c: Cpu, seen: Word)
      requires Path(p, taken, others, Now()) && Reachable(p.before) && at < |history|
      requires history[at] == Notify(c, seen) || history[at] == NotifyMiss(c, seen)
      ensures Notified(history, at, c, seen)
    {
      PathReachable(p, taken, others, Now());
      NotifiedExactly(Now(), at, c, seen);
    }

    /** The way into the handler. */
    method EnterHandler(c: Cpu, p: Start) returns (turn: Turn)
      requires Enabled(Now(), Interrupt(c)) && p == Begin(InHandler(c), Interrupt(c))
      requires taken == others == 0
      modifies this
      ensures old(history) <= history
      ensures turn.Cut? ==> Stopped(p)
      ensures turn.Goes? ==> HandlerReady(c, ReadStatus, p) && taken == 1
    {
      ghost var s := Now();
      PathStarts(p);
      handlers := handlers[c := ReadStatus];
      turn := Others(p, s, Interrupt(c));
    }

    /** The read of the status word and its test; an interrupt of another device ends here. */
    method TestIrqStatus(c: Cpu, p: Start) returns (turn: Turn, irqStatus: Word)
      requires HandlerReady(c, ReadStatus, p)
      modifies this
      ensures old(history) <= history && irqStatus == old(status) && taken == old(taken) + 1
      ensures turn.Cut? ==> Stopped(p)
      ensures turn.Goes? && irqStatus * INTERRUPT_BITS != {} ==>
                HandlerReady(c, Acknowledge(irqStatus), p)
      ensures turn.Goes? && irqStatus * INTERRUPT_BITS == {} ==> Left(c, p)
    {
      ghost var s := Now();
      irqStatus := status;
      if irqStatus * INTERRUPT_BITS == {} {
        handlers := handlers[c := Idle];
        Take(p, s, StepHandler(c));
        turn := Goes;
      } else {
        handlers := handlers[c := Acknowledge(irqStatus)];
        turn := Others(p, s, StepHandler(c));
      }
    }

    /** The start of the handler; read is the state whose status register it read. */
    method ReadAndTest(c: Cpu, p: Start) returns (turn: Turn, irqStatus: Word, ghost read: State)
      requires Enabled(Now(), Interrupt(c)) && p == Begin(InHandler(c), Interrupt(c))
      requires taken == others == 0
      modifies this
      ensures old(history) <= history
      ensures turn.Cut? ==> Stopped(p)
      ensures turn.Goes? ==> AtHandler(p, 1, read, c, ReadStatus) && read.status == irqStatus
      ensures turn.Goes? && irqStatus * INTERRUPT_BITS != {} ==>
                HandlerReady(c, Acknowledge(irqStatus), p) && taken == 2
      ensures turn.Goes? && irqStatus * INTERRUPT_BITS == {} ==> Left(c, p) && taken == 2
    {
      irqStatus, read := {}, Now();
      turn := EnterHandler(c, p);
      if turn.Goes? {
        read := Now();
        assert OnPath(p, 1, read);
        turn, irqStatus := TestIrqStatus(c, p);
      }
    }

    /** Write the interrupt bits that were read back, which clears them; cleared is right after. */
    method AcknowledgeIrq(c: Cpu, irqStatus: Word, p: Start)
      returns (turn: Turn, ghost cleared: State)
      requires HandlerReady(c, Acknowledge(irqStatus), p) && taken == 2
      modifies this
      ensures old(history) <= history
      ensures Clears(p, old(Now()), cleared, c, irqStatus)
      ensures turn.Cut? ==> Stopped(p)
      ensures turn.Goes? ==> HandlerReady(c, NotifySpin(irqStatus), p)
    {
      ghost var s := Now();
      status := status - irqStatus * INTERRUPT_BITS;
      handlers := handlers[c := NotifySpin(irqStatus)];
      cleared := Now();
      PathOwn(p, taken, others, s, StepHandler(c), cleared);
      assert OnPath(p, 2, s) && OnPath(p, 3, cleared);
      turn := Others(p, s, StepHandler(c));
    }

    /** The handler of an interrupt of this card: write back, then notify. */
    method AcknowledgeAndNotify(c: Cpu, irqStatus: Word, p: Start)
      returns (turn: Turn, ghost cleared: State, ghost at: nat)
      requires HandlerReady(c, Acknowledge(irqStatus), p) && taken == 2 && Reachable(p.before)
      modifies this
      ensures old(history) <= history
      ensures Clears(p, old(Now()), cleared, c, irqStatus)
      ensures turn.Cut? ==> Stopped(p)
      ensures turn.Goes? ==> |old(history)| <= at && Notified(history, at, c, irqStatus)
      ensures turn.Goes? ==> Left(c, p) && (history[at].Notify? ==> interruptible == {})
    {
      at := 0;
      turn, cleared := AcknowledgeIrq(c, irqStatus, p);
      if turn.Goes? {
        turn, at := NotifyUser(c, irqStatus, p);
      }
    }

    /** The statements of the handler in their order. */
    method HandlerStatements(c: Cpu, p: Start)
      returns (turn: Turn, handled: bool, irqStatus: Word, ghost read: State, ghost acked: State,
               ghost cleared: State, ghost at: nat)
      requires Enabled(Now(), Interrupt(c)) && p == Begin(InHandler(c), Interrupt(c))
      requires taken == others == 0 && Reachable(p.before)
      modifies this
      ensures old(history) <= history
      ensures turn.Cut? ==> Stopped(p)
      ensures turn.Goes? ==>
                && AtHandler(p, 1, read, c, ReadStatus) && read.status == irqStatus
                && (handled <==> irqStatus * INTERRUPT_BITS != {})
                && Left(c, p) && (!handled ==> taken == 2)
      ensures turn.Goes? && handled ==>
                && Clears(p, acked, cleared, c, irqStatus)
                && |old(history)| <= |acked.log| <= at && Notified(history, at, c, irqStatus)
                && (history[at].Notify? ==> interruptible == {})
    {
      handled, irqStatus, at := false, {}, 0;
      read, acked, cleared := Now(), Now(), Now();
      turn, irqStatus, read := ReadAndTest(c, p);
      if turn.Cut? || irqStatus * INTERRUPT_BITS == {} {
        return;
      }
      handled, acked := true, Now();
      turn, cleared, at := AcknowledgeAndNotify(c, irqStatus, p);
    }

    /**
     The handler.  It is IRQ_NONE exactly when the word that it read from the status register, as
     its first statement, has no interrupt bit, and then it leaves no event; otherwise its
     write-back removes exactly the interrupt bits it read from what is latched by then, and its one
     notify attempt, its only event, completes a request exactly when the last committed event is
     an Arm.  In the end it is out of the driver without the lock, and a completion has woken
     everybody who was marked to sleep.  Within seven statements it has returned or cannot go on.
     */
    method InterruptAdio16fStyle(c: Cpu)
      returns (turn: Turn, handled: bool, irqStatus: Word, ghost read: State, ghost acked: State,
               ghost cleared: State, ghost at: nat)
      requires Valid() && Enabled(Now(), Interrupt(c))
      modifies this
      ensures Valid() && old(history) <= history
      ensures turn.Goes? ==>
                && AtHandler(old(Begin(InHandler(c), Interrupt(c))), 1, read, c, ReadStatus)
                && read.status == irqStatus && (handled <==> irqStatus * INTERRUPT_BITS != {})
                && Left(c, old(Begin(InHandler(c), Interrupt(c)))) && irqLock != Some(InHandler(c))
      ensures turn.Goes? && handled ==>
                && Clears(old(Begin(InHandler(c), Interrupt(c))), acked, cleared, c, irqStatus)
                && |old(history)| <= |acked.log| <= at && Notified(history, at, c, irqStatus)
                && (history[at].Notify? ==> interruptible == {})
      ensures turn.Goes? ==>
                EventsOf(history, InHandler(c))
                == old(EventsOf(history, InHandler(c))) + if handled then [history[at]] else []
      ensures turn.Goes? ==>
                taken == if !handled then 2 else if history[at].Notify? then 8 else 6
      ensures turn.Cut? ==> Stopped(old(Begin(InHandler(c), Interrupt(c))))
      ensures turn.Cut? ==>
                && old(EventsOf(history, InHandler(c))) <= EventsOf(history, InHandler(c))
                && |EventsOf(history, InHandler(c))| <= |old(EventsOf(history, InHandler(c)))| + 1
      ensures turn.Cut? && old(horizon) >= 7 ==> !Enabled(Now(), StepHandler(c))
    {
      var p := Begin(InHandler(c), Interrupt(c));
      taken, others := 0, 0;
      turn, handled, irqStatus, read, acked, cleared, at := HandlerStatements(c, p);
      PathReachable(p, taken, others, Now());
      PathAlong(p, taken, others, Now());
      if turn.Goes? {
        IdleHoldsNothing(Now(), c);
        HandlerEnds(p, c, handled, at);
      }
    }

    lemma HandlerEnds(p: Start, c: Cpu, handled: bool, at: nat)
      requires p.who == InHandler(c) && Along(Now(), taken, p) && !InDriver(Now(), p.who)
      requires if handled then |p.before.log| <= at < |history| && Signed(history[at], p.who)
               else taken == 2
      ensures EventsOf(history, p.who)
           == EventsOf(p.before.log, p.who) + if handled then [history[at]] else []
      ensures taken == if !handled then 2 else if history[at].Notify? then 8 else 6
    {
      if handled {
        SomeEvent(p.before.log, history, p.who, at);
        OnlyEvent(p.before.log, history, p.who, at);
      }
    }

    /** The handler of CPU c has returned. */
    ghost predicate Left(c: Cpu, p: Start)
      reads this
    {
      p.who == InHandler(c) && Over(p) && c < |handlers|
    }
  }

  /** A state that the handler of CPU c went through, about to execute its statement at h. */
  ghost predicate AtHandler(p: Start, taken: nat, s: State, c: Cpu, h: HandlerPc) {
    OnPath(p, taken, s) && c < |s.handlers| && s.handlers[c] == h
  }

  /** The write-back turns one state of the run into the other, and removes just what was read. */
  ghost predicate Clears(p: Start, acked: State, cleared: State, c: Cpu, seen: Word) {
    && AtHandler(p, 2, acked, c, Acknowledge(seen)) && AtHandler(p, 3, cleared, c, NotifySpin(seen))
    && cleared.log == acked.log
    && cleared.status == acked.status - seen * INTERRUPT_BITS
  }

  lemma IdleHoldsNothing(s: State, c: Cpu)
    requires Reachable(s) && c < |s.handlers| && s.handlers[c] == Idle
    ensures s.lock != Some(InHandler(c))
  {
    assert LockOk(s) by {
      ReachableInv(s);
    }
  }

  lemma LastOfOwn(results: seq<Result>, x: Ctx)
    requires results != [] && x == InThread(results[|results| - 1].t)
    ensures var own := ResultsOf(results, x);
            own != [] && own[|own| - 1] == results[|results| - 1]
  {
  }

  /** The notify attempt of a handler that read this word, as the history before it decides. */
  ghost predicate Notified(log: seq<Event>, at: nat, c: Cpu, seen: Word) {
    && at < |log|
    && log[at] == if LastIs(CommittedOf(log[..at]), IsArm) then Notify(c, seen)
                  else NotifyMiss(c, seen)
  }

  lemma NotifiedExactly(s: State, at: nat, c: Cpu, seen: Word)
    requires Reachable(s) && at < |s.log|
    requires s.log[at] == Notify(c, seen) || s.log[at] == NotifyMiss(c, seen)
    ensures Notified(s.log, at, c, seen)
  {
    ReachableInv(s);
    EventFindsObject(s.log, at);
  }

  /** The returns that wake nobody, and the code each gives. */
  predicate Returns(pc: Pc, cancelled: int, op: Op, code: Code) {
    match op
    case OpWait =>
      || (pc == Waiting(WaitRefuseRestore) && code == EAlready)
      || (pc == Waiting(WaitRead) && code == (if cancelled == 1 then ECanceled else Zero))
    case OpCancel => pc == Cancelling(CancelRefuseRestore) && code == EAlready
  }

  /** What follows the unlock in each critical section. */
  function Restoring(pc: Pc): Pc {
    match pc
    case User => pc
    case Waiting(w) =>
      if w.WaitUnlock? then Waiting(WaitRestore)
      else if w.WaitRefuseUnlock? then Waiting(WaitRefuseRestore) else pc
    case Cancelling(x) =>
      if x.CancelUnlock? then Cancelling(CancelRestore)
      else if x.CancelRefuseUnlock? then Cancelling(CancelRefuseRestore) else pc
  }

  /** The two looks at the condition, and where each goes. */
  predicate Branches(pc: Pc, ifDone: Pc, ifNot: Pc) {
    || (pc == Waiting(WaitFirstCheck) && ifDone == Waiting(WaitRead) && ifNot == Waiting(WaitPrepare))
    || (pc == Waiting(WaitRecheck(false)) && ifDone == Waiting(WaitFinish)
        && ifNot == Waiting(WaitSchedule))
    || (pc == Waiting(WaitRecheck(true)) && ifDone == Waiting(WaitFinish)
        && ifNot == Waiting(WaitRead))
  }
}
