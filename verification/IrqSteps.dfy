/**
 What one step of a thread or of a handler can change, read off the code once so that the
 invariants need not look at every line again.
 */
module IrqSteps {
  import opened Options
  import opened IrqHistory
  import opened IrqMachine

  // ---------- regions of a call ----------

  /** Past the check that decides the call. */
  predicate Decided(pc: Pc) {
    match pc
    case User => false
    case Waiting(w) => !w.WaitSpin? && !w.WaitCheck? && !w.WaitStoreArm?
    case Cancelling(x) => !x.CancelSpin? && !x.CancelCheck?
  }

  /** A WAIT whose request is armed and that has not returned. */
  predicate Armed(pc: Pc) {
    Decided(pc) && pc.Waiting? && !pc.w.WaitRefuseUnlock? && !pc.w.WaitRefuseRestore?
  }

  predicate PastClear(pc: Pc) {
    Armed(pc) && !pc.w.WaitClearCancel?
  }

  /** Between the check under the lock and the stores it allows. */
  predicate Storing(pc: Pc) {
    match pc
    case User => false
    case Waiting(w) => w.WaitStoreArm? || w.WaitClearCancel?
    case Cancelling(x) => x.CancelStoreFlag? || x.CancelStoreDone?
  }

  /** The last step of a call. */
  predicate Leaves(pc: Pc) {
    || pc == Waiting(WaitRefuseRestore) || pc == Waiting(WaitRead)
    || pc == Cancelling(CancelRefuseRestore) || pc == Cancelling(CancelWake)
  }

  // ---------- the effect of a thread's step ----------

  ghost predicate OthersStay(s: State, s': State, t: Tid) {
    && |s'.threads| == |s.threads|
    && forall u: Tid :: u < |s.threads| && u != t ==> s'.threads[u] == s.threads[u]
  }

  predicate AppendsOne<T(==)>(before: seq<T>, after: seq<T>) {
    |after| == |before| + 1 && after[..|before|] == before
  }

  /** The spinner takes the lock, the one leaving its critical section frees it. */
  ghost predicate LockEffect(s: State, s': State, t: Tid)
    requires t < |s.threads| && t < |s'.threads|
  {
    var pc, pc' := s.threads[t].pc, s'.threads[t].pc;
    if Spins(pc) then Holds(pc') && s'.lock == Some(InThread(t))
    else if Holds(pc) && !Holds(pc') then s'.lock == None
    else s'.lock == s.lock && (Holds(pc') <==> Holds(pc))
  }

  /** Only sleeping gives up the CPU, and no step masks interrupts. */
  ghost predicate CpuEffect(s: State, s': State, t: Tid)
    requires t < |s.threads| && t < |s'.threads|
  {
    var th, th' := s.threads[t], s'.threads[t];
    && (Masked(th'.pc) ==> Masked(th.pc))
    && th'.cpu == (if th'.pc == Waiting(WaitAsleep) then None else th.cpu)
    && s'.interruptible <= s.interruptible + {t}
  }

  /** The flags and the history change only under the lock. */
  ghost predicate FlagEffect(s: State, s': State, t: Tid)
    requires t < |s.threads| && t < |s'.threads|
  {
    var pc := s.threads[t].pc;
    && (!Holds(pc) ==>
          && s'.waiting == s.waiting && s'.cancelled == s.cancelled && s'.log == s.log
          && !Storing(s'.threads[t].pc))
    && (s'.waiting == s.waiting || (s'.waiting == 1 && pc == Waiting(WaitStoreArm))
        || (s'.waiting == 0 && pc == Cancelling(CancelStoreDone)))
    && (s'.cancelled == s.cancelled || (s'.cancelled == 0 && pc == Waiting(WaitClearCancel))
        || (s'.cancelled == 1 && pc == Cancelling(CancelStoreFlag)))
  }

  /**
   A call keeps its place in the history, perhaps recording a store of irq_cancelled, settles
   there, or hands the place to its result.
   */
  ghost predicate ClaimEffect(s: State, s': State, t: Tid)
    requires t < |s.threads| && t < |s'.threads|
  {
    var th, th' := s.threads[t], s'.threads[t];
    || (s'.log == s.log && s'.results == s.results && th'.at == th.at
        && (Decided(th'.pc) <==> Decided(th.pc)))
    || (s'.results == s.results && AppendsOne(s.log, s'.log) && StoresFlag(s'.log[|s.log|])
        && th'.at == th.at && Decided(th'.pc) && Decided(th.pc))
    || (s'.results == s.results && AppendsOne(s.log, s'.log)
        && Decided(th'.pc) && th'.at == |s.log|
        && (Decided(th.pc) ==> th.pc == Cancelling(CancelStoreDone))
        && !s'.log[|s.log|].Raise?
        && (s'.log[|s.log|].CancelPassed? <==> th.pc == Cancelling(CancelCheck)
                                               && th'.pc == Cancelling(CancelStoreFlag)))
    || (s'.log == s.log && Leaves(th.pc) && th'.pc == User
        && AppendsOne(s.results, s'.results)
        && var r := s'.results[|s.results|];
           r.t == t && r.at == th.at && r.end == |s.log|)
  }

  /** A call stays in its ioctl until it returns. */
  ghost predicate PlaceEffect(s: State, s': State, t: Tid)
    requires t < |s.threads| && t < |s'.threads|
  {
    var pc, pc' := s.threads[t].pc, s'.threads[t].pc;
    && (pc'.Waiting? ==> pc.Waiting?) && (pc'.Cancelling? ==> pc.Cancelling?)
    && (PastClear(pc') ==> Armed(pc))
    && (pc' == Cancelling(CancelStoreFlag) ==> pc == Cancelling(CancelCheck))
  }

  ghost predicate ThreadEffect(s: State, s': State, t: Tid)
    requires t < |s.threads|
  {
    && OthersStay(s, s', t)
    && s'.handlers == s.handlers && s'.status == s.status
    && LockEffect(s, s', t) && CpuEffect(s, s', t) && FlagEffect(s, s', t)
    && ClaimEffect(s, s', t) && PlaceEffect(s, s', t)
  }

  lemma WaitPlace(s: State, t: Tid)
    requires t < |s.threads| && s.threads[t].pc.Waiting?
    ensures OthersStay(s, WaitNext(s, t), t)
    ensures WaitNext(s, t).handlers == s.handlers && WaitNext(s, t).status == s.status
    ensures LockEffect(s, WaitNext(s, t), t) && PlaceEffect(s, WaitNext(s, t), t)
  {
    match s.threads[t].pc.w {
      case WaitSpin => case WaitCheck => case WaitRefuseUnlock => case WaitRefuseRestore =>
      case WaitStoreArm => case WaitClearCancel => case WaitUnlock => case WaitRestore =>
      case WaitFirstCheck => case WaitPrepare => case WaitRecheck(_) => case WaitSchedule =>
      case WaitAsleep => case WaitFinish => case WaitRead =>
    }
  }

  lemma WaitFlags(s: State, t: Tid)
    requires t < |s.threads| && s.threads[t].pc.Waiting?
    ensures |WaitNext(s, t).threads| == |s.threads|
    ensures CpuEffect(s, WaitNext(s, t), t) && FlagEffect(s, WaitNext(s, t), t)
  {
    match s.threads[t].pc.w {
      case WaitSpin => case WaitCheck => case WaitRefuseUnlock => case WaitRefuseRestore =>
      case WaitStoreArm => case WaitClearCancel => case WaitUnlock => case WaitRestore =>
      case WaitFirstCheck => case WaitPrepare => case WaitRecheck(_) => case WaitSchedule =>
      case WaitAsleep => case WaitFinish => case WaitRead =>
    }
  }

  lemma WaitClaim(s: State, t: Tid)
    requires t < |s.threads| && s.threads[t].pc.Waiting?
    ensures |WaitNext(s, t).threads| == |s.threads|
    ensures ClaimEffect(s, WaitNext(s, t), t)
  {
    match s.threads[t].pc.w {
      case WaitSpin => case WaitCheck => case WaitRefuseUnlock => case WaitRefuseRestore =>
      case WaitStoreArm => case WaitClearCancel => case WaitUnlock => case WaitRestore =>
      case WaitFirstCheck => case WaitPrepare => case WaitRecheck(_) => case WaitSchedule =>
      case WaitAsleep => case WaitFinish => case WaitRead =>
    }
  }

  lemma CancelPlace(s: State, t: Tid)
    requires t < |s.threads| && s.threads[t].pc.Cancelling?
    ensures OthersStay(s, CancelNext(s, t), t)
    ensures CancelNext(s, t).handlers == s.handlers && CancelNext(s, t).status == s.status
    ensures LockEffect(s, CancelNext(s, t), t) && PlaceEffect(s, CancelNext(s, t), t)
  {
    match s.threads[t].pc.x {
      case CancelSpin => case CancelCheck => case CancelRefuseUnlock =>
      case CancelRefuseRestore => case CancelStoreFlag => case CancelStoreDone =>
      case CancelUnlock => case CancelRestore => case CancelWake =>
    }
  }

  lemma CancelFlags(s: State, t: Tid)
    requires t < |s.threads| && s.threads[t].pc.Cancelling?
    ensures |CancelNext(s, t).threads| == |s.threads|
    ensures CpuEffect(s, CancelNext(s, t), t) && FlagEffect(s, CancelNext(s, t), t)
  {
    match s.threads[t].pc.x {
      case CancelSpin => case CancelCheck => case CancelRefuseUnlock =>
      case CancelRefuseRestore => case CancelStoreFlag => case CancelStoreDone =>
      case CancelUnlock => case CancelRestore => case CancelWake =>
    }
  }

  lemma CancelClaim(s: State, t: Tid)
    requires t < |s.threads| && s.threads[t].pc.Cancelling?
    ensures |CancelNext(s, t).threads| == |s.threads|
    ensures ClaimEffect(s, CancelNext(s, t), t)
  {
    match s.threads[t].pc.x {
      case CancelSpin => case CancelCheck => case CancelRefuseUnlock =>
      case CancelRefuseRestore => case CancelStoreFlag => case CancelStoreDone =>
      case CancelUnlock => case CancelRestore => case CancelWake =>
    }
  }

  lemma ThreadEffects(s: State, t: Tid)
    requires Enabled(s, StepThread(t))
    ensures ThreadEffect(s, Exec(s, StepThread(t)), t)
  {
    if s.threads[t].pc.Waiting? {
      WaitPlace(s, t);
      WaitFlags(s, t);
      WaitClaim(s, t);
    } else {
      CancelPlace(s, t);
      CancelFlags(s, t);
      CancelClaim(s, t);
    }
  }
}
