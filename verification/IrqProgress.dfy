/** Nothing blocks for ever: the lock is always given back, and a completed request returns. */
module IrqProgress {
  import opened Options
  import opened IrqHistory
  import opened IrqMachine
  import opened IrqSteps
  import opened IrqInvariant
  import opened IrqCalls

  // ---------- the lock is given back ----------

  /** Steps left in the critical section. */
  function ThreadCriticalRank(pc: Pc): nat {
    match pc
    case User => 0
    case Waiting(w) =>
      (match w
       case WaitCheck => 4
       case WaitStoreArm => 3
       case WaitClearCancel => 2
       case WaitUnlock => 1
       case WaitRefuseUnlock => 1
       case _ => 0)
    case Cancelling(x) =>
      (match x
       case CancelCheck => 4
       case CancelStoreFlag => 3
       case CancelStoreDone => 2
       case CancelUnlock => 1
       case CancelRefuseUnlock => 1
       case _ => 0)
  }

  function HandlerCriticalRank(h: HandlerPc): nat {
    match h
    case NotifyCheck(_) => 3
    case NotifyStore(_) => 2
    case NotifyUnlock => 1
    case NotifyUnlockMiss => 1
    case _ => 0
  }

  function CriticalRank(s: State): nat {
    match s.lock
    case None => 0
    case Some(InThread(t)) => if t < |s.threads| then ThreadCriticalRank(s.threads[t].pc) else 0
    case Some(InHandler(c)) => if c < |s.handlers| then HandlerCriticalRank(s.handlers[c]) else 0
  }

  function HolderAction(s: State): Action
    requires s.lock.Some?
  {
    match s.lock.value
    case InThread(t) => StepThread(t)
    case InHandler(c) => StepHandler(c)
  }

  /**
   Deadlock freedom.  Whoever holds the lock can take its next step: it is not asleep, it is not
   preempted, and no handler runs on its CPU, so none spins there for the lock it holds.
   */
  lemma HolderCanStep(s: State)
    requires Reachable(s) && s.lock.Some?
    ensures Enabled(s, HolderAction(s))
    ensures 1 <= CriticalRank(s) <= 4
    ensures forall t: Tid :: s.lock == Some(InThread(t)) ==>
              && t < |s.threads| && s.threads[t].cpu.Some?
              && s.threads[t].cpu.value < |s.handlers|
              && s.handlers[s.threads[t].cpu.value] == Idle
              && !Asleep(s, t)
  {
    ReachableInv(s);
  }

  /** The holder's step brings it nearer its unlock, or is the unlock. */
  lemma HolderStepShrinks(s: State)
    requires Reachable(s) && s.lock.Some?
    ensures Enabled(s, HolderAction(s))
    ensures var s' := Exec(s, HolderAction(s));
            s'.lock == None || (s'.lock == s.lock && CriticalRank(s') < CriticalRank(s))
  {
    ReachableInv(s);
    HolderCanStep(s);
    if s.lock.value.InThread? {
      var t := s.lock.value.t;
      if s.threads[t].pc.Waiting? {
        match s.threads[t].pc.w {
          case WaitCheck => case WaitStoreArm => case WaitClearCancel => case WaitUnlock =>
          case WaitRefuseUnlock =>
        }
      } else {
        match s.threads[t].pc.x {
          case CancelCheck => case CancelStoreFlag => case CancelStoreDone => case CancelUnlock =>
          case CancelRefuseUnlock =>
        }
      }
    }
  }

  /** No other step touches the lock or the holder's place. */
  lemma OthersKeepHolder(s: State, a: Action)
    requires Reachable(s) && s.lock.Some? && Enabled(s, a) && a != HolderAction(s)
    ensures Exec(s, a).lock == s.lock && CriticalRank(Exec(s, a)) == CriticalRank(s)
  {
    ReachableInv(s);
    match a {
      case StepThread(t) => ThreadEffects(s, t);
      case StepHandler(c) =>
        HandlerFrame(s, c);
        HandlerLock(s, c);
      case _ =>
    }
  }

  /** Step k of a run leaves the holder at least one step nearer its unlock if it is the holder's. */
  predicate HeldStepCounts(ss: seq<State>, acts: seq<Action>, k: nat)
    requires k < |acts| < |ss| && ss[k].lock.Some?
  {
    (if acts[k] == HolderAction(ss[k]) then 1 else 0) + CriticalRank(ss[k + 1])
      <= CriticalRank(ss[k])
  }

  lemma HeldStep(ss: seq<State>, acts: seq<Action>, k: nat)
    requires Run(ss, acts) && k < |acts| && ss[k].lock.Some? && ss[k + 1].lock == ss[k].lock
    ensures HeldStepCounts(ss, acts, k)
  {
    var s, a := ss[k], acts[k];
    PrefixReachable(ss, acts, k);
    assert Enabled(s, a) && ss[k + 1] == Exec(s, a);
    if a == HolderAction(s) {
      HolderStepShrinks(s);
    } else {
      OthersKeepHolder(s, a);
    }
  }

  lemma RankBounds(ss: seq<State>, acts: seq<Action>, k: nat)
    requires Run(ss, acts) && k < |ss| && ss[k].lock.Some?
    ensures 1 <= CriticalRank(ss[k]) <= 4
  {
    PrefixReachable(ss, acts, k);
    HolderCanStep(ss[k]);
  }

  predicate HeldThroughout(ss: seq<State>, i: nat, j: nat)
    requires i <= j < |ss|
  {
    forall k :: i <= k <= j ==> ss[k].lock.Some? && ss[k].lock == ss[i].lock
  }

  function HolderSteps(ss: seq<State>, acts: seq<Action>, i: nat, j: nat): nat
    requires i <= j < |ss| == |acts| + 1 && HeldThroughout(ss, i, j)
    decreases j - i
  {
    if i == j then 0
    else HolderSteps(ss, acts, i, j - 1) + if acts[j - 1] == HolderAction(ss[j - 1]) then 1 else 0
  }

  lemma {:induction false} HeldStepsAddUp(ss: seq<State>, acts: seq<Action>, i: nat, j: nat)
    requires i <= j < |ss| == |acts| + 1 && HeldThroughout(ss, i, j)
    requires forall k :: i <= k < j ==> HeldStepCounts(ss, acts, k)
    ensures HolderSteps(ss, acts, i, j) + CriticalRank(ss[j]) <= CriticalRank(ss[i])
    decreases j - i
  {
    if i < j {
      HeldStepsAddUp(ss, acts, i, j - 1);
      assert HeldStepCounts(ss, acts, j - 1);
    }
  }

  /**
   Over any stretch of a run in which the lock stays held, the holder took at most three steps,
   and each step brought the unlock nearer: nobody keeps the lock while stepping.
   */
  lemma LockHeldBriefly(ss: seq<State>, acts: seq<Action>, i: nat, j: nat)
    requires Run(ss, acts) && i <= j < |ss| && HeldThroughout(ss, i, j)
    ensures HolderSteps(ss, acts, i, j) + CriticalRank(ss[j]) <= CriticalRank(ss[i])
    ensures HolderSteps(ss, acts, i, j) <= 3
  {
    forall k | i <= k < j ensures HeldStepCounts(ss, acts, k) {
      HeldStep(ss, acts, k);
    }
    HeldStepsAddUp(ss, acts, i, j);
    RankBounds(ss, acts, i);
    RankBounds(ss, acts, j);
  }

  lemma PrefixReachable(ss: seq<State>, acts: seq<Action>, i: nat)
    requires Run(ss, acts) && i < |ss|
    ensures Reachable(ss[i])
  {
    assert Run(ss[..i + 1], acts[..i]);
    assert ss[..i + 1][|ss[..i + 1]| - 1] == ss[i];
  }

  // ---------- a completed request returns ----------

  /** Steps left to a waiter once its request is complete. */
  function WaiterRankAt(pc: Pc, marked: bool): nat {
    if !pc.Waiting? then 0
    else
      match pc.w
      case WaitClearCancel => 12
      case WaitUnlock => 11
      case WaitRestore => 10
      case WaitFirstCheck => 9
      case WaitSchedule => if marked then 8 else 6
      case WaitAsleep => if marked then 7 else 6
      case WaitPrepare => 5
      case WaitRecheck(_) => 4
      case WaitFinish => 3
      case WaitRead => 2
      case _ => 0
  }

  function WaiterRank(s: State, t: Tid): nat {
    if t < |s.threads| then WaiterRankAt(s.threads[t].pc, t in s.interruptible) else 0
  }

  /** Steps left to a thread or a handler that owes a wake-up. */
  function ThreadWakeRank(pc: Pc): nat {
    if !pc.Cancelling? then 0
    else
      match pc.x
      case CancelUnlock => 3
      case CancelRestore => 2
      case CancelWake => 1
      case _ => 0
  }

  function HandlerWakeRank(h: HandlerPc): nat {
    match h
    case NotifyUnlock => 2
    case NotifyWake => 1
    case _ => 0
  }

  function WakerRank(s: State, x: Ctx): nat {
    match x
    case InThread(t) => if t < |s.threads| then ThreadWakeRank(s.threads[t].pc) else 0
    case InHandler(c) => if c < |s.handlers| then HandlerWakeRank(s.handlers[c]) else 0
  }

  datatype Token =
    | WaiterStep(i: nat)
    | ThreadStep(t: Tid, i: nat)
    | HandlerStep(c: Cpu, i: nat)

  predicate IsWork(s: State, t: Tid, w: Token) {
    match w
    case WaiterStep(i) => i < WaiterRank(s, t)
    case ThreadStep(u, i) => i < WakerRank(s, InThread(u))
    case HandlerStep(c, i) => i < WakerRank(s, InHandler(c))
  }

  /** One token for every step that the waiter and the contexts owing a wake-up have left. */
  function Work(s: State, t: Tid): (work: set<Token>)
    ensures forall w :: w in work <==> IsWork(s, t, w)
  {
    (set i: nat | i < 12 && i < WaiterRank(s, t) :: WaiterStep(i))
    + (set u: Tid, i: nat | u < |s.threads| && i < 3 && i < WakerRank(s, InThread(u))
         :: ThreadStep(u, i))
    + (set c: Cpu, i: nat | c < |s.handlers| && i < 3 && i < WakerRank(s, InHandler(c))
         :: HandlerStep(c, i))
  }

  /** The action is a step of the waiter, or of a context that owes a wake-up. */
  predicate Works(s: State, a: Action, t: Tid) {
    match a
    case StepThread(u) => (u == t && WaiterRank(s, t) > 0) || WakerRank(s, InThread(u)) > 0
    case StepHandler(c) => WakerRank(s, InHandler(c)) > 0
    case _ => false
  }

  lemma WaiterOwnStep(s: State, t: Tid)
    requires Enabled(s, StepThread(t)) && s.threads[t].pc.Waiting?
    requires s.waiting == 0 && WaitNext(s, t).waiting == 0
    ensures var r, r' := WaiterRank(s, t), WaiterRank(WaitNext(s, t), t);
            r' <= r && (r > 0 ==> r' < r)
  {
    match s.threads[t].pc.w {
      case WaitSpin => case WaitCheck => case WaitRefuseUnlock => case WaitRefuseRestore =>
      case WaitStoreArm => case WaitClearCancel => case WaitUnlock => case WaitRestore =>
      case WaitFirstCheck => case WaitPrepare => case WaitRecheck(_) => case WaitSchedule =>
      case WaitAsleep => case WaitFinish => case WaitRead =>
    }
  }

  lemma WaiterOtherStep(s: State, a: Action, t: Tid)
    requires Enabled(s, a) && a != StepThread(t)
    ensures WaiterRank(Exec(s, a), t) <= WaiterRank(s, t)
  {
    match a {
      case StepThread(u) => ThreadEffects(s, u);
      case StepHandler(c) => HandlerFrame(s, c);
      case _ =>
    }
  }

  lemma WaiterRankStep(s: State, a: Action, t: Tid)
    requires Enabled(s, a) && s.waiting == 0 && Exec(s, a).waiting == 0
    ensures WaiterRank(Exec(s, a), t) <= WaiterRank(s, t)
    ensures a == StepThread(t) && WaiterRank(s, t) > 0 ==>
              WaiterRank(Exec(s, a), t) < WaiterRank(s, t)
  {
    if a != StepThread(t) {
      WaiterOtherStep(s, a, t);
    } else if s.threads[t].pc.Waiting? {
      WaiterOwnStep(s, t);
    } else {
      CancelPlace(s, t);
    }
  }

  lemma ThreadWakeStep(s: State, u: Tid)
    requires FlagsOk(s) && Enabled(s, StepThread(u)) && s.waiting == 0
    ensures var r, r' := WakerRank(s, InThread(u)), WakerRank(Exec(s, StepThread(u)), InThread(u));
            r' <= r && (r > 0 ==> r' < r)
  {
    assert CheckHolds(s.threads[u].pc, Replay(s.log).value);
    if s.threads[u].pc.Waiting? {
      WaitPlace(s, u);
    } else {
      match s.threads[u].pc.x {
        case CancelSpin => case CancelCheck => case CancelRefuseUnlock =>
        case CancelRefuseRestore => case CancelStoreFlag =>
        case CancelUnlock => case CancelRestore => case CancelWake =>
      }
    }
  }

  lemma HandlerWakeStep(s: State, c: Cpu)
    requires FlagsOk(s) && Enabled(s, StepHandler(c)) && s.waiting == 0
    ensures var r, r' := WakerRank(s, InHandler(c)), WakerRank(HandlerNext(s, c), InHandler(c));
            r' <= r && (r > 0 ==> r' < r)
  {
  }

  predicate IsStepOf(a: Action, x: Ctx) {
    match x
    case InThread(t) => a == StepThread(t)
    case InHandler(c) => a == StepHandler(c)
  }

  lemma WakerRankStep(s: State, a: Action, x: Ctx)
    requires FlagsOk(s) && Enabled(s, a) && s.waiting == 0
    ensures WakerRank(Exec(s, a), x) <= WakerRank(s, x)
    ensures IsStepOf(a, x) && WakerRank(s, x) > 0 ==> WakerRank(Exec(s, a), x) < WakerRank(s, x)
  {
    match a {
      case StepThread(u) =>
        ThreadEffects(s, u);
        ThreadWakeStep(s, u);
      case StepHandler(c) =>
        HandlerFrame(s, c);
        HandlerWakeStep(s, c);
      case _ =>
    }
  }

  /**
   Bounded completion.  While no request is armed, every step of the waiter and of every context
   that owes a wake-up uses up a token, and no step of anybody adds one: not a late wake-up of an
   earlier request, not a refused CANCEL, not a signal.
   */
  lemma WorkShrinks(s: State, a: Action, t: Tid)
    requires Reachable(s) && Enabled(s, a) && s.waiting == 0 && Exec(s, a).waiting == 0
    ensures Work(Exec(s, a), t) <= Work(s, t)
    ensures Works(s, a, t) ==> Work(Exec(s, a), t) < Work(s, t)
  {
    ReachableInv(s);
    var s' := Exec(s, a);
    WaiterRankStep(s, a, t);
    forall w | w in Work(s', t) ensures w in Work(s, t) {
      match w {
        case WaiterStep(_) =>
        case ThreadStep(u, _) => WakerRankStep(s, a, InThread(u));
        case HandlerStep(c, _) => WakerRankStep(s, a, InHandler(c));
      }
    }
    if Works(s, a, t) {
      var used :=
        if a.StepHandler? then HandlerStep(a.c, WakerRank(s, InHandler(a.c)) - 1)
        else if WakerRank(s, InThread(a.t)) > 0 then
          ThreadStep(a.t, WakerRank(s, InThread(a.t)) - 1)
        else WaiterStep(WaiterRank(s, t) - 1);
      if a.StepHandler? {
        WakerRankStep(s, a, InHandler(a.c));
      } else {
        WakerRankStep(s, a, InThread(a.t));
      }
      assert IsWork(s, t, used) && !IsWork(s', t, used);
      assert used in Work(s, t) && used !in Work(s', t);
    }
  }

  /** No token left means the waiter has returned. */
  lemma NoWorkMeansReturned(s: State, t: Tid)
    requires t < |s.threads| && Work(s, t) == {}
    ensures !Armed(s.threads[t].pc)
  {
    if WaiterRank(s, t) > 0 {
      assert IsWork(s, t, WaiterStep(0));
    }
  }

  /** A context whose next step waits for nothing but a CPU. */
  predicate NotBlocked(s: State, x: Ctx) {
    match x
    case InThread(t) =>
      t < |s.threads| && s.threads[t].pc != User && !Asleep(s, t) && !Spins(s.threads[t].pc)
    case InHandler(c) => Enabled(s, StepHandler(c))
  }

  /** While the waiter has not returned, somebody who holds tokens is not blocked. */
  lemma SomeoneWorks(s: State, t: Tid)
    requires Reachable(s) && s.waiting == 0 && t < |s.threads| && Armed(s.threads[t].pc)
    ensures || NotBlocked(s, InThread(t))
            || exists x :: WakerRank(s, x) > 0 && NotBlocked(s, x)
  {
    ReachableInv(s);
    if Asleep(s, t) {
      assert CommittedToSleep(s, t);
      var x :| OwesWake(s, x);
      assert WakerRank(s, x) > 0 && NotBlocked(s, x);
    }
  }

  predicate Unarmed(ss: seq<State>, i: nat, j: nat)
    requires i <= j < |ss|
  {
    forall k :: i <= k <= j ==> ss[k].waiting == 0
  }

  function WorkSteps(ss: seq<State>, acts: seq<Action>, t: Tid, i: nat, j: nat): nat
    requires i <= j < |ss| == |acts| + 1
    decreases j - i
  {
    if i == j then 0
    else WorkSteps(ss, acts, t, i, j - 1) + if Works(ss[j - 1], acts[j - 1], t) then 1 else 0
  }

  lemma SubsetSize<T>(a: set<T>, b: set<T>)
    requires a <= b
    ensures |a| <= |b| && (a < b ==> |a| < |b|)
  {
    assert b == a + (b - a);
    if a < b {
      assert b - a != {};
    }
  }

  predicate WorkStepCounts(ss: seq<State>, acts: seq<Action>, t: Tid, k: nat)
    requires k < |acts| < |ss|
  {
    (if Works(ss[k], acts[k], t) then 1 else 0) + |Work(ss[k + 1], t)| <= |Work(ss[k], t)|
  }

  lemma WorkStep(ss: seq<State>, acts: seq<Action>, t: Tid, k: nat)
    requires Run(ss, acts) && k < |acts| && ss[k].waiting == 0 && ss[k + 1].waiting == 0
    ensures WorkStepCounts(ss, acts, t, k)
  {
    PrefixReachable(ss, acts, k);
    assert Enabled(ss[k], acts[k]) && ss[k + 1] == Exec(ss[k], acts[k]);
    WorkShrinks(ss[k], acts[k], t);
    SubsetSize(Work(ss[k + 1], t), Work(ss[k], t));
  }

  lemma {:induction false} WorkAddsUp(ss: seq<State>, acts: seq<Action>, t: Tid, i: nat, j: nat)
    requires i <= j < |ss| == |acts| + 1
    requires forall k :: i <= k < j ==> WorkStepCounts(ss, acts, t, k)
    ensures WorkSteps(ss, acts, t, i, j) + |Work(ss[j], t)| <= |Work(ss[i], t)|
    decreases j - i
  {
    if i < j {
      WorkAddsUp(ss, acts, t, i, j - 1);
      assert WorkStepCounts(ss, acts, t, j - 1);
    }
  }

  /**
   Over any stretch of a run with no request armed, the waiter and the contexts owing a wake-up
   take together no more steps than they had tokens.
   */
  lemma CompletesWithin(ss: seq<State>, acts: seq<Action>, t: Tid, i: nat, j: nat)
    requires Run(ss, acts) && i <= j < |ss| && Unarmed(ss, i, j)
    ensures WorkSteps(ss, acts, t, i, j) + |Work(ss[j], t)| <= |Work(ss[i], t)|
  {
    forall k | i <= k < j ensures WorkStepCounts(ss, acts, t, k) {
      WorkStep(ss, acts, t, k);
    }
    WorkAddsUp(ss, acts, t, i, j);
  }

  // ---------- under fair scheduling ----------

  ghost predicate InfiniteRun(ss: nat -> State, acts: nat -> Action) {
    && Init(ss(0))
    && forall i: nat :: Enabled(ss(i), acts(i)) && ss(i + 1) == Exec(ss(i), acts(i))
  }

  lemma {:induction false} AlwaysReachable(ss: nat -> State, acts: nat -> Action, i: nat)
    requires InfiniteRun(ss, acts)
    ensures Reachable(ss(i))
  {
    if i == 0 {
      InitReachable(ss(0));
    } else {
      AlwaysReachable(ss, acts, i - 1);
      assert Enabled(ss(i - 1), acts(i - 1)) && ss(i - 1 + 1) == Exec(ss(i - 1), acts(i - 1));
      ReachableStep(ss(i - 1), acts(i - 1), ss(i));
    }
  }

  /** By step j the context has taken a step, or something blocks it. */
  predicate ServedAt(ss: nat -> State, acts: nat -> Action, x: Ctx, j: nat) {
    IsStepOf(acts(j), x) || !NotBlocked(ss(j), x)
  }

  /** A context that waits for nothing but a CPU is not passed over for ever. */
  ghost predicate Fair(ss: nat -> State, acts: nat -> Action) {
    forall x: Ctx, i: nat :: NotBlocked(ss(i), x) ==> exists j: nat :: i <= j && ServedAt(ss, acts, x, j)
  }

  predicate InWait(s: State, t: Tid) {
    t < |s.threads| && Armed(s.threads[t].pc)
  }

  /** No request is armed from step i until the waiter has returned. */
  ghost predicate NoArmUntilReturn(ss: nat -> State, t: Tid, i: nat) {
    forall j: nat :: i <= j && (forall k: nat :: i <= k <= j ==> InWait(ss(k), t)) ==>
      ss(j).waiting == 0
  }

  /** A context with tokens that waits for nothing but a CPU. */
  predicate CanWork(s: State, t: Tid, x: Ctx) {
    NotBlocked(s, x) && (WakerRank(s, x) > 0 || (x == InThread(t) && InWait(s, t)))
  }

  /** It stays so until it takes its step. */
  lemma StillCanWork(s: State, a: Action, t: Tid, x: Ctx)
    requires Enabled(s, a) && CanWork(s, t, x) && !IsStepOf(a, x)
    ensures CanWork(Exec(s, a), t, x)
  {
    match a {
      case StepThread(u) => ThreadEffects(s, u);
      case StepHandler(c) => HandlerFrame(s, c);
      case _ =>
    }
  }

  /** A waiter leaves its WAIT only by reading irq_cancelled and returning. */
  lemma LeavesByReading(s: State, a: Action, t: Tid)
    requires Enabled(s, a) && InWait(s, t) && !InWait(Exec(s, a), t)
    ensures a == StepThread(t) && s.threads[t].pc == Waiting(WaitRead)
  {
    match a {
      case StepThread(u) =>
        ThreadEffects(s, u);
        if u == t {
          match s.threads[u].pc.w {
            case WaitClearCancel => case WaitUnlock => case WaitRestore => case WaitFirstCheck =>
            case WaitPrepare => case WaitRecheck(_) => case WaitSchedule => case WaitAsleep =>
            case WaitFinish => case WaitRead =>
          }
        }
      case StepHandler(c) => HandlerFrame(s, c);
      case _ =>
    }
  }

  /** Step r is the one with which the waiter that is in its WAIT at step i returns from it. */
  ghost predicate ReturnsAt(ss: nat -> State, acts: nat -> Action, t: Tid, i: nat, r: nat) {
    && i <= r && (forall k: nat :: i <= k <= r ==> InWait(ss(k), t))
    && acts(r) == StepThread(t) && ss(r).threads[t].pc == Waiting(WaitRead)
  }

  lemma NextWorker(ss: nat -> State, acts: nat -> Action, t: Tid, i: nat)
    returns (x: Ctx, j: nat)
    requires InfiniteRun(ss, acts) && Fair(ss, acts) && InWait(ss(i), t) && ss(i).waiting == 0
    ensures CanWork(ss(i), t, x) && i <= j && ServedAt(ss, acts, x, j)
  {
    AlwaysReachable(ss, acts, i);
    SomeoneWorks(ss(i), t);
    if NotBlocked(ss(i), InThread(t)) {
      x := InThread(t);
    } else {
      x :| WakerRank(ss(i), x) > 0 && NotBlocked(ss(i), x);
    }
    j :| i <= j && ServedAt(ss, acts, x, j);
  }

  lemma QuietAfter(ss: nat -> State, t: Tid, i: nat)
    requires NoArmUntilReturn(ss, t, i) && InWait(ss(i), t) && InWait(ss(i + 1), t)
    ensures ss(i).waiting == 0 && ss(i + 1).waiting == 0
    ensures NoArmUntilReturn(ss, t, i + 1)
  {
  }

  /** The worker's turn comes by step j, and then a token is gone. */
  lemma ReturnsOnceServed(ss: nat -> State, acts: nat -> Action, t: Tid, i: nat, x: Ctx, j: nat)
    returns (r: nat)
    requires InfiniteRun(ss, acts) && Fair(ss, acts)
    requires InWait(ss(i), t) && NoArmUntilReturn(ss, t, i)
    requires CanWork(ss(i), t, x) && i <= j && ServedAt(ss, acts, x, j)
    ensures ReturnsAt(ss, acts, t, i, r)
    decreases |Work(ss(i), t)|, j - i
  {
    var s, a := ss(i), acts(i);
    assert Enabled(s, a) && ss(i + 1) == Exec(s, a);
    if !InWait(ss(i + 1), t) {
      LeavesByReading(s, a, t);
      return i;
    }
    QuietAfter(ss, t, i);
    AlwaysReachable(ss, acts, i);
    WorkShrinks(s, a, t);
    SubsetSize(Work(ss(i + 1), t), Work(s, t));
    if IsStepOf(a, x) {
      UsesToken(s, a, t, x);
      var y, k := NextWorker(ss, acts, t, i + 1);
      r := ReturnsOnceServed(ss, acts, t, i + 1, y, k);
    } else {
      StillCanWork(s, a, t, x);
      r := ReturnsOnceServed(ss, acts, t, i + 1, x, j);
    }
  }

  lemma UsesToken(s: State, a: Action, t: Tid, x: Ctx)
    requires CanWork(s, t, x) && IsStepOf(a, x)
    ensures Works(s, a, t)
  {
  }

  /**
   Under fair scheduling a WAIT whose request was completed returns, in any infinite run, whatever
   the other threads, the handlers and signals do, provided nobody arms before it has returned.
   */
  lemma FairWaitReturns(ss: nat -> State, acts: nat -> Action, t: Tid, i: nat)
    requires InfiniteRun(ss, acts) && Fair(ss, acts)
    requires InWait(ss(i), t) && NoArmUntilReturn(ss, t, i)
    ensures exists r: nat :: ReturnsAt(ss, acts, t, i, r)
  {
    assert ss(i).waiting == 0;
    var x, j := NextWorker(ss, acts, t, i);
    var r := ReturnsOnceServed(ss, acts, t, i, x, j);
  }

  /**
   What fairness gives when others do arm: from any step on, the WAIT returns, or waiting_for_irq is
   set again.  A WAIT that never returns sees it set after every step.
   */
  lemma ReturnsOrRearmed(ss: nat -> State, acts: nat -> Action, t: Tid, i: nat)
    requires InfiniteRun(ss, acts) && Fair(ss, acts) && InWait(ss(i), t)
    ensures || (exists k: nat :: i <= k && !InWait(ss(k), t))
            || (exists k: nat :: i <= k && ss(k).waiting == 1)
  {
    if forall k: nat :: i <= k ==> ss(k).waiting != 1 {
      forall k: nat | i <= k ensures ss(k).waiting == 0 {
        AlwaysReachable(ss, acts, k);
        assert FlagsOk(ss(k)) by {
          ReachableInv(ss(k));
        }
      }
      FairWaitReturns(ss, acts, t, i);
      var r: nat :| ReturnsAt(ss, acts, t, i, r);
      assert Enabled(ss(r), acts(r)) && ss(r + 1) == Exec(ss(r), acts(r));
      ReadingLeaves(ss(r), t);
    }
  }

  lemma ReadingLeaves(s: State, t: Tid)
    requires Enabled(s, StepThread(t)) && s.threads[t].pc == Waiting(WaitRead)
    ensures !InWait(Exec(s, StepThread(t)), t)
  {
  }
}
