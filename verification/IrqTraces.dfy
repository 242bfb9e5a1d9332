/**
 What one call, or one run of a handler, leaves in the history, in the results and in the run: its
 own events in order, one result, and one action for each of its statements.
 */
module IrqTraces {
  import opened Options
  import opened IrqHistory
  import opened IrqMachine
  import opened IrqSteps
  import opened IrqInvariant
  import opened IrqCalls

  // ---------- what belongs to one context ----------

  function StepOf(x: Ctx): Action {
    match x
    case InThread(t) => StepThread(t)
    case InHandler(c) => StepHandler(c)
  }

  /** The ways into the driver. */
  predicate Enters(a: Action, x: Ctx) {
    match x
    case InThread(t) => a == CallWait(t) || a == CallCancel(t)
    case InHandler(c) => a == Interrupt(c)
  }

  /** What only the context itself does. */
  predicate OwnAction(a: Action, x: Ctx) {
    a == StepOf(x) || Enters(a, x)
  }

  function OwnCount(acts: seq<Action>, x: Ctx): (n: nat)
    ensures n <= |acts|
  {
    if acts == [] then 0
    else OwnCount(acts[..|acts| - 1], x) + if OwnAction(acts[|acts| - 1], x) then 1 else 0
  }

  lemma OneMoreAction(acts: seq<Action>, a: Action, x: Ctx)
    ensures OwnCount(acts + [a], x) == OwnCount(acts, x) + if OwnAction(a, x) then 1 else 0
  {
    assert (acts + [a])[..|acts|] == acts;
  }

  predicate Signed(e: Event, x: Ctx) {
    match x
    case InThread(t) => !e.Raise? && !e.Notify? && !e.NotifyMiss? && e.t == t
    case InHandler(c) => (e.Notify? || e.NotifyMiss?) && e.c == c
  }

  /** The events of one context, in order. */
  function EventsOf(log: seq<Event>, x: Ctx): seq<Event> {
    if log == [] then []
    else
      EventsOf(log[..|log| - 1], x)
      + if Signed(log[|log| - 1], x) then [log[|log| - 1]] else []
  }

  lemma OneMoreEvent(log: seq<Event>, e: Event, x: Ctx)
    ensures EventsOf(log + [e], x) == EventsOf(log, x) + if Signed(e, x) then [e] else []
  {
    assert (log + [e])[..|log|] == log;
  }

  lemma {:induction false} EventsGrow(before: seq<Event>, log: seq<Event>, x: Ctx)
    requires before <= log
    ensures EventsOf(before, x) <= EventsOf(log, x)
  {
    if |before| < |log| {
      EventsGrow(before, log[..|log| - 1], x);
    } else {
      assert before == log;
    }
  }

  lemma {:induction false} SomeEvent(before: seq<Event>, log: seq<Event>, x: Ctx, at: nat)
    requires before <= log && |before| <= at < |log| && Signed(log[at], x)
    ensures |EventsOf(log, x)| > |EventsOf(before, x)|
  {
    var front := log[..|log| - 1];
    if at == |front| {
      EventsGrow(before, front, x);
    } else {
      SomeEvent(before, front, x, at);
    }
  }

  /** If the context has added one event, it is any event of its that is found after the start. */
  lemma {:induction false} OnlyEvent(before: seq<Event>, log: seq<Event>, x: Ctx, at: nat)
    requires before <= log && |before| <= at < |log| && Signed(log[at], x)
    requires |EventsOf(log, x)| == |EventsOf(before, x)| + 1
    ensures EventsOf(log, x) == EventsOf(before, x) + [log[at]]
  {
    var front := log[..|log| - 1];
    if at == |front| {
      EventsGrow(before, front, x);
    } else {
      SomeEvent(before, front, x, at);
      OnlyEvent(before, front, x, at);
    }
  }

  /** The results of one thread's calls, in order. */
  function ResultsOf(results: seq<Result>, x: Ctx): seq<Result> {
    if results == [] then []
    else
      ResultsOf(results[..|results| - 1], x)
      + if x == InThread(results[|results| - 1].t) then [results[|results| - 1]] else []
  }

  lemma OneMoreResult(results: seq<Result>, r: Result, x: Ctx)
    ensures ResultsOf(results + [r], x)
         == ResultsOf(results, x) + if x == InThread(r.t) then [r] else []
  {
    assert (results + [r])[..|results|] == results;
  }

  // ---------- the others leave all that alone ----------

  /** The context is at the same statement of the same call. */
  predicate SamePlace(s: State, s': State, x: Ctx) {
    match x
    case InThread(t) =>
      && t < |s.threads| && t < |s'.threads|
      && s'.threads[t].pc == s.threads[t].pc && s'.threads[t].at == s.threads[t].at
    case InHandler(c) => c < |s.handlers| && c < |s'.handlers| && s'.handlers[c] == s.handlers[c]
  }


  /** An event that a thread's step appends is that thread's. */
  lemma ThreadSigns(s: State, t: Tid)
    requires Enabled(s, StepThread(t))
    ensures var s' := Exec(s, StepThread(t));
            || s'.log == s.log
            || (AppendsOne(s.log, s'.log) && Signed(s'.log[|s.log|], InThread(t)))
    ensures var s' := Exec(s, StepThread(t));
            || s'.results == s.results
            || (AppendsOne(s.results, s'.results) && s'.results[|s.results|].t == t)
  {
    if s.threads[t].pc.Waiting? {
      match s.threads[t].pc.w {
        case WaitSpin => case WaitCheck => case WaitRefuseUnlock => case WaitRefuseRestore =>
        case WaitStoreArm => case WaitClearCancel => case WaitUnlock => case WaitRestore =>
        case WaitFirstCheck => case WaitPrepare => case WaitRecheck(_) => case WaitSchedule =>
        case WaitAsleep => case WaitFinish => case WaitRead =>
      }
    } else {
      match s.threads[t].pc.x {
        case CancelSpin => case CancelCheck => case CancelRefuseUnlock =>
        case CancelRefuseRestore => case CancelStoreFlag => case CancelStoreDone =>
        case CancelUnlock => case CancelRestore => case CancelWake =>
      }
    }
  }

  lemma HandlerSigns(s: State, c: Cpu)
    requires Enabled(s, StepHandler(c))
    ensures var s' := Exec(s, StepHandler(c));
            || s'.log == s.log
            || (AppendsOne(s.log, s'.log) && Signed(s'.log[|s.log|], InHandler(c)))
    ensures Exec(s, StepHandler(c)).results == s.results
  {
  }

  ghost predicate Untouched(s: State, s': State, x: Ctx) {
    && SamePlace(s, s', x) && s.log <= s'.log
    && EventsOf(s'.log, x) == EventsOf(s.log, x)
    && ResultsOf(s'.results, x) == ResultsOf(s.results, x)
  }

  lemma AppendedElsewhere(before: seq<Event>, after: seq<Event>, x: Ctx)
    requires AppendsOne(before, after) && !Signed(after[|before|], x)
    ensures EventsOf(after, x) == EventsOf(before, x)
  {
    OneMoreEvent(before, after[|before|], x);
    assert after == before + [after[|before|]];
  }

  lemma OthersKeepPlace(s: State, a: Action, x: Ctx)
    requires Enabled(s, a) && !OwnAction(a, x) && SamePlace(s, s, x)
    ensures SamePlace(s, Exec(s, a), x)
  {
    match a {
      case StepThread(u) => ThreadEffects(s, u);
      case StepHandler(c) => HandlerFrame(s, c);
      case _ =>
    }
  }

  lemma OthersKeepEvents(s: State, a: Action, x: Ctx)
    requires Enabled(s, a) && !OwnAction(a, x)
    ensures s.log <= Exec(s, a).log && EventsOf(Exec(s, a).log, x) == EventsOf(s.log, x)
  {
    var s' := Exec(s, a);
    match a {
      case StepThread(u) => ThreadSigns(s, u);
      case StepHandler(c) => HandlerSigns(s, c);
      case _ =>
    }
    if s'.log != s.log {
      AppendedElsewhere(s.log, s'.log, x);
    }
  }

  lemma OthersKeepResults(s: State, a: Action, x: Ctx)
    requires Enabled(s, a) && !OwnAction(a, x)
    ensures ResultsOf(Exec(s, a).results, x) == ResultsOf(s.results, x)
  {
    var s' := Exec(s, a);
    match a {
      case StepThread(u) =>
        ThreadSigns(s, u);
        if s'.results != s.results {
          OneMoreResult(s.results, s'.results[|s.results|], x);
          assert s'.results == s.results + [s'.results[|s.results|]];
        }
      case StepHandler(c) => HandlerSigns(s, c);
      case _ =>
    }
  }

  /** No step of the others moves the context or adds to its events and results. */
  lemma OthersStayOut(s: State, a: Action, x: Ctx)
    requires Enabled(s, a) && !OwnAction(a, x) && SamePlace(s, s, x)
    ensures Untouched(s, Exec(s, a), x)
  {
    OthersKeepPlace(s, a, x);
    OthersKeepEvents(s, a, x);
    OthersKeepResults(s, a, x);
  }

  // ---------- how far a call has got ----------

  /** A call: whose it is, the way in, the state before it, and what may happen while it runs. */
  datatype Start = Start(
    who: Ctx,
    entry: Action,
    before: State,
    horizon: nat,             // the statements of the call that are watched
    others: nat)              // the actions that the others have in store

  /** The events of a call that is at this place. */
  function EventsAt(t: Tid, pc: Pc): seq<Event> {
    match pc
    case User => []
    case Waiting(w) =>
      if w.WaitSpin? || w.WaitCheck? || w.WaitStoreArm? then []
      else if w.WaitRefuseUnlock? || w.WaitRefuseRestore? then [WaitRefused(t)]
      else if w.WaitClearCancel? then [Arm(t)]
      else [Arm(t), ClearFlag(t)]
    case Cancelling(x) =>
      if x.CancelSpin? || x.CancelCheck? then []
      else if x.CancelRefuseUnlock? || x.CancelRefuseRestore? then [CancelRefused(t)]
      else if x.CancelStoreFlag? then [CancelPassed(t)]
      else if x.CancelStoreDone? then [CancelPassed(t), SetFlag(t)]
      else [CancelPassed(t), SetFlag(t), Cancel(t)]
  }

  predicate InWaitEvent(pc: Pc) {
    && pc.Waiting?
    && (pc.w.WaitPrepare? || pc.w.WaitRecheck? || pc.w.WaitSchedule? || pc.w.WaitAsleep?
        || pc.w.WaitFinish? || pc.w.WaitRead?)
  }

  /** How many actions a call has made that is at this place, the entry included. */
  function ActionsAt(pc: Pc): nat
    requires pc != User && !InWaitEvent(pc)
  {
    match pc
    case Waiting(w) =>
      (match w
       case WaitSpin => 1
       case WaitCheck => 2
       case WaitStoreArm => 3
       case WaitRefuseUnlock => 3
       case WaitRefuseRestore => 4
       case WaitClearCancel => 4
       case WaitUnlock => 5
       case WaitRestore => 6
       case WaitFirstCheck => 7)
    case Cancelling(x) =>
      (match x
       case CancelSpin => 1
       case CancelCheck => 2
       case CancelStoreFlag => 3
       case CancelRefuseUnlock => 3
       case CancelRefuseRestore => 4
       case CancelStoreDone => 4
       case CancelUnlock => 5
       case CancelRestore => 6
       case CancelWake => 7)
  }

  function HandlerActionsAt(h: HandlerPc): nat {
    match h
    case Idle => 0
    case ReadStatus => 1
    case Acknowledge(_) => 2
    case NotifySpin(_) => 3
    case NotifyCheck(_) => 4
    case NotifyStore(_) => 5
    case NotifyUnlockMiss => 5
    case NotifyUnlock => 6
    case NotifyWake => 7
  }

  predicate Decides(h: HandlerPc) {
    h.NotifyUnlock? || h.NotifyWake? || h.NotifyUnlockMiss?
  }

  /** The call that began at p is inside the driver, n actions on. */
  predicate Progress(s: State, n: nat, p: Start) {
    && |p.before.log| <= |s.log|
    && ResultsOf(s.results, p.who) == ResultsOf(p.before.results, p.who)
    && match p.who
       case InThread(t) =>
         && t < |s.threads| && s.threads[t].pc != User
         && (s.threads[t].pc.Waiting? <==> p.entry == CallWait(t))
         && (Decided(s.threads[t].pc) ==> |p.before.log| <= s.threads[t].at)
         && EventsOf(s.log, p.who)
            == EventsOf(p.before.log, p.who) + EventsAt(t, s.threads[t].pc)
         && (if InWaitEvent(s.threads[t].pc) then n >= 8 else n == ActionsAt(s.threads[t].pc))
       case InHandler(c) =>
         && c < |s.handlers| && s.handlers[c] != Idle
         && DecidedAs(EventsOf(p.before.log, p.who), EventsOf(s.log, p.who), s.handlers[c])
         && n == HandlerActionsAt(s.handlers[c])
  }

  /** The handler's decision, once it is made. */
  predicate DecidedAs(before: seq<Event>, now: seq<Event>, h: HandlerPc) {
    if Decides(h) then
      && |now| == |before| + 1 && before <= now
      && (now[|before|].NotifyMiss? <==> h.NotifyUnlockMiss?)
    else now == before
  }

  /** The call that began at p is over: its one result, its events, and how many actions it took. */
  predicate Done(s: State, n: nat, p: Start) {
    && SamePlace(s, s, p.who) && !InDriver(s, p.who)
    && match p.who
       case InThread(t) =>
         && |ResultsOf(s.results, p.who)| == |ResultsOf(p.before.results, p.who)| + 1
         && ResultsOf(p.before.results, p.who) <= ResultsOf(s.results, p.who)
         && var r := ResultsOf(s.results, p.who)[|ResultsOf(p.before.results, p.who)|];
            && (r.op == OpWait <==> p.entry == CallWait(t)) && |p.before.log| <= r.at
            && EventsOf(s.log, p.who)
               == EventsOf(p.before.log, p.who) + CallEvents(t, r.op, r.code)
            && (r.code == EAlready ==> n == 5)
            && (r.op == OpCancel && r.code != EAlready ==> n == 8)
       case InHandler(c) =>
         DoneAs(EventsOf(p.before.log, p.who), EventsOf(s.log, p.who), n)
  }

  predicate DoneAs(before: seq<Event>, now: seq<Event>, n: nat) {
    if n == 2 then now == before
    else
      && |now| == |before| + 1 && before <= now
      && n == (if now[|before|].NotifyMiss? then 6 else 8)
  }

  /** The events of a call that returned this code. */
  function CallEvents(t: Tid, op: Op, code: Code): seq<Event> {
    match op
    case OpWait => if code == EAlready then [WaitRefused(t)] else [Arm(t), ClearFlag(t)]
    case OpCancel =>
      if code == EAlready then [CancelRefused(t)] else [CancelPassed(t), SetFlag(t), Cancel(t)]
  }

  /** The context is inside the driver. */
  predicate InDriver(s: State, x: Ctx) {
    match x
    case InThread(t) => t < |s.threads| && s.threads[t].pc != User
    case InHandler(c) => c < |s.handlers| && s.handlers[c] != Idle
  }

  lemma EntryProgress(p: Start)
    requires Enabled(p.before, p.entry) && Enters(p.entry, p.who)
    ensures Progress(Exec(p.before, p.entry), 1, p)
  {
  }

  /** What a statement inside a call appends is its context's, and is what its new place says. */
  ghost predicate Signs(s: State, s': State, x: Ctx) {
    && s'.results == s.results
    && (s'.log == s.log || (AppendsOne(s.log, s'.log) && Signed(s'.log[|s.log|], x)))
    && match x
       case InThread(t) =>
         && t < |s.threads| && t < |s'.threads|
         && (Decided(s'.threads[t].pc) ==>
               s'.threads[t].at == |s.log|
               || (Decided(s.threads[t].pc) && s'.threads[t].at == s.threads[t].at))
         && EventsAt(t, s'.threads[t].pc)
            == EventsAt(t, s.threads[t].pc) + (if s'.log == s.log then [] else [s'.log[|s.log|]])
       case InHandler(c) =>
         && c < |s.handlers| && c < |s'.handlers|
         && (s'.log == s.log <==> (Decides(s'.handlers[c]) <==> Decides(s.handlers[c])))
         && (Decides(s.handlers[c]) ==>
               && Decides(s'.handlers[c])
               && (s'.handlers[c].NotifyUnlockMiss? <==> s.handlers[c].NotifyUnlockMiss?))
         && (s'.log != s.log ==>
               (s'.log[|s.log|].NotifyMiss? <==> s'.handlers[c].NotifyUnlockMiss?))
  }

  /** It takes the call one action further. */
  ghost predicate MovesOn(s: State, s': State, x: Ctx) {
    match x
    case InThread(t) =>
      && t < |s.threads| && t < |s'.threads|
      && s.threads[t].pc != User && s'.threads[t].pc != User
      && (s'.threads[t].pc.Waiting? <==> s.threads[t].pc.Waiting?)
      && (if InWaitEvent(s'.threads[t].pc) then
            InWaitEvent(s.threads[t].pc) || s.threads[t].pc == Waiting(WaitFirstCheck)
          else
            && !InWaitEvent(s.threads[t].pc)
            && ActionsAt(s'.threads[t].pc) == ActionsAt(s.threads[t].pc) + 1)
    case InHandler(c) =>
      && c < |s.handlers| && c < |s'.handlers|
      && s.handlers[c] != Idle && s'.handlers[c] != Idle
      && HandlerActionsAt(s'.handlers[c]) == HandlerActionsAt(s.handlers[c]) + 1
  }

  lemma LoopSigns(s: State, t: Tid)
    requires Enabled(s, StepThread(t)) && InWaitEvent(s.threads[t].pc)
    requires InDriver(Exec(s, StepThread(t)), InThread(t))
    ensures Signs(s, Exec(s, StepThread(t)), InThread(t))
  {
    match s.threads[t].pc.w {
      case WaitPrepare => case WaitRecheck(_) => case WaitSchedule => case WaitAsleep =>
      case WaitFinish =>
    }
  }

  lemma StoresSign(s: State, t: Tid)
    requires Enabled(s, StepThread(t))
    requires s.threads[t].pc == Waiting(WaitCheck) || s.threads[t].pc == Waiting(WaitStoreArm)
             || s.threads[t].pc == Waiting(WaitClearCancel)
    ensures Signs(s, Exec(s, StepThread(t)), InThread(t))
  {
  }

  lemma WaitSigns(s: State, t: Tid)
    requires Enabled(s, StepThread(t)) && s.threads[t].pc.Waiting?
    requires InDriver(Exec(s, StepThread(t)), InThread(t))
    ensures Signs(s, Exec(s, StepThread(t)), InThread(t))
  {
    if InWaitEvent(s.threads[t].pc) {
      LoopSigns(s, t);
    } else {
      match s.threads[t].pc.w {
        case WaitCheck => StoresSign(s, t);
        case WaitStoreArm => StoresSign(s, t);
        case WaitClearCancel => StoresSign(s, t);
        case WaitSpin => case WaitRefuseUnlock => case WaitUnlock => case WaitRestore =>
        case WaitFirstCheck =>
      }
    }
  }

  lemma WaitMovesOn(s: State, t: Tid)
    requires Enabled(s, StepThread(t)) && s.threads[t].pc.Waiting?
    requires InDriver(Exec(s, StepThread(t)), InThread(t))
    ensures MovesOn(s, Exec(s, StepThread(t)), InThread(t))
  {
    match s.threads[t].pc.w {
      case WaitSpin => case WaitCheck => case WaitRefuseUnlock => case WaitStoreArm =>
      case WaitClearCancel => case WaitUnlock => case WaitRestore => case WaitFirstCheck =>
      case WaitPrepare => case WaitRecheck(_) => case WaitSchedule => case WaitAsleep =>
      case WaitFinish =>
    }
  }

  lemma CancelSigns(s: State, t: Tid)
    requires Enabled(s, StepThread(t)) && s.threads[t].pc.Cancelling?
    requires InDriver(Exec(s, StepThread(t)), InThread(t))
    ensures Signs(s, Exec(s, StepThread(t)), InThread(t))
  {
    match s.threads[t].pc.x {
      case CancelSpin => case CancelCheck => case CancelRefuseUnlock => case CancelStoreFlag =>
      case CancelStoreDone => case CancelUnlock => case CancelRestore =>
    }
  }

  lemma CancelMovesOn(s: State, t: Tid)
    requires Enabled(s, StepThread(t)) && s.threads[t].pc.Cancelling?
    requires InDriver(Exec(s, StepThread(t)), InThread(t))
    ensures MovesOn(s, Exec(s, StepThread(t)), InThread(t))
  {
    match s.threads[t].pc.x {
      case CancelSpin => case CancelCheck => case CancelRefuseUnlock => case CancelStoreFlag =>
      case CancelStoreDone => case CancelUnlock => case CancelRestore =>
    }
  }

  lemma HandlerAdvances(s: State, c: Cpu)
    requires Enabled(s, StepHandler(c)) && InDriver(Exec(s, StepHandler(c)), InHandler(c))
    ensures Signs(s, Exec(s, StepHandler(c)), InHandler(c))
    ensures MovesOn(s, Exec(s, StepHandler(c)), InHandler(c))
  {
    match s.handlers[c] {
      case ReadStatus => case Acknowledge(_) => case NotifySpin(_) => case NotifyCheck(_) =>
      case NotifyStore(_) => case NotifyUnlock =>
    }
  }

  lemma AdvancesProgress(s: State, s': State, n: nat, p: Start)
    requires Progress(s, n, p) && Signs(s, s', p.who) && MovesOn(s, s', p.who)
    ensures Progress(s', n + 1, p)
  {
    if s'.log != s.log {
      OneMoreEvent(s.log, s'.log[|s.log|], p.who);
      assert s'.log == s.log + [s'.log[|s.log|]];
    }
  }

  /** Each statement of a call takes it one action further. */
  lemma OwnProgress(s: State, n: nat, p: Start)
    requires Progress(s, n, p)
    requires Enabled(s, StepOf(p.who)) && InDriver(Exec(s, StepOf(p.who)), p.who)
    ensures Progress(Exec(s, StepOf(p.who)), n + 1, p)
  {
    if p.who.InHandler? {
      HandlerAdvances(s, p.who.c);
    } else if s.threads[p.who.t].pc.Waiting? {
      WaitSigns(s, p.who.t);
      WaitMovesOn(s, p.who.t);
    } else {
      CancelSigns(s, p.who.t);
      CancelMovesOn(s, p.who.t);
    }
    AdvancesProgress(s, Exec(s, StepOf(p.who)), n, p);
  }

  lemma OthersProgress(s: State, s': State, n: nat, p: Start)
    requires Progress(s, n, p) && Untouched(s, s', p.who)
    ensures Progress(s', n, p)
  {
  }

  lemma OthersDone(s: State, s': State, n: nat, p: Start)
    requires Done(s, n, p) && Untouched(s, s', p.who)
    ensures Done(s', n, p)
  {
  }

  // ---------- the last statement ----------

  /** The return of a call: what it hands over fits the place that it returns from. */
  ghost predicate HandsOut(s: State, s': State, t: Tid) {
    && t < |s.threads| && |s'.threads| == |s.threads|
    && s'.log == s.log && AppendsOne(s.results, s'.results)
    && var r, pc := s'.results[|s.results|], s.threads[t].pc;
       && r.t == t && r.at == s.threads[t].at && pc != User && Decided(pc)
       && (r.op == OpWait <==> pc.Waiting?) && EventsAt(t, pc) == CallEvents(t, r.op, r.code)
       && (r.code == EAlready ==> !InWaitEvent(pc) && ActionsAt(pc) == 4)
       && (r.op == OpCancel && r.code != EAlready ==> ActionsAt(pc) == 7)
  }

  lemma ThreadHandsOut(s: State, t: Tid)
    requires Enabled(s, StepThread(t)) && !InDriver(Exec(s, StepThread(t)), InThread(t))
    ensures HandsOut(s, Exec(s, StepThread(t)), t)
  {
    if s.threads[t].pc.Waiting? {
      match s.threads[t].pc.w {
        case WaitSpin => case WaitCheck => case WaitRefuseUnlock => case WaitRefuseRestore =>
        case WaitStoreArm => case WaitClearCancel => case WaitUnlock => case WaitRestore =>
        case WaitFirstCheck => case WaitPrepare => case WaitRecheck(_) => case WaitSchedule =>
        case WaitAsleep => case WaitFinish => case WaitRead =>
      }
    } else {
      match s.threads[t].pc.x {
        case CancelSpin => case CancelCheck => case CancelRefuseUnlock =>
        case CancelRefuseRestore => case CancelStoreFlag => case CancelStoreDone =>
        case CancelUnlock => case CancelRestore => case CancelWake =>
      }
    }
  }

  lemma HandsOutDone(s: State, s': State, n: nat, p: Start)
    requires p.who.InThread? && Progress(s, n, p) && HandsOut(s, s', p.who.t)
    requires !InDriver(s', p.who)
    ensures Done(s', n + 1, p)
  {
    OneMoreResult(s.results, s'.results[|s.results|], p.who);
    assert s'.results == s.results + [s'.results[|s.results|]];
  }

  lemma HandlerDone(s: State, n: nat, p: Start)
    requires p.who.InHandler? && Progress(s, n, p) && Enabled(s, StepOf(p.who))
    requires !InDriver(Exec(s, StepOf(p.who)), p.who)
    ensures Done(Exec(s, StepOf(p.who)), n + 1, p)
  {
    match s.handlers[p.who.c] {
      case ReadStatus => case NotifyUnlockMiss => case NotifyWake =>
      case _ =>
    }
  }

  /** The statement with which the context leaves the driver. */
  lemma OwnDone(s: State, n: nat, p: Start)
    requires Progress(s, n, p)
    requires Enabled(s, StepOf(p.who)) && !InDriver(Exec(s, StepOf(p.who)), p.who)
    ensures Done(Exec(s, StepOf(p.who)), n + 1, p)
  {
    if p.who.InHandler? {
      HandlerDone(s, n, p);
    } else {
      ThreadHandsOut(s, p.who.t);
      HandsOutDone(s, Exec(s, StepOf(p.who)), n, p);
    }
  }

  // ---------- whole calls ----------

  /** States in a row, each by its action from the one before. */
  ghost predicate Trail(ss: seq<State>, acts: seq<Action>) {
    && |ss| == |acts| + 1
    && forall i {:trigger Leads(ss[i], acts[i], ss[i + 1])} :: 0 <= i < |acts| ==>
         Leads(ss[i], acts[i], ss[i + 1])
  }

  predicate Leads(s: State, a: Action, s': State) {
    Enabled(s, a) && s' == Exec(s, a)
  }

  lemma TrailAt(ss: seq<State>, acts: seq<Action>, i: nat)
    requires Trail(ss, acts) && i < |acts|
    ensures Enabled(ss[i], acts[i]) && ss[i + 1] == Exec(ss[i], acts[i])
  {
    assert Leads(ss[i], acts[i], ss[i + 1]);
  }

  /** The first action is the way in, and later ones of the context are its statements. */
  ghost predicate OneCall(acts: seq<Action>, p: Start) {
    && Enters(p.entry, p.who)
    && forall i {:trigger InTurn(acts[i], i, p)} :: 0 <= i < |acts| ==> InTurn(acts[i], i, p)
  }

  predicate InTurn(a: Action, i: nat, p: Start) {
    if i == 0 then a == p.entry else a == StepOf(p.who) || !OwnAction(a, p.who)
  }

  /** The call that began at p has led here with so many own actions and so many of the others. */
  ghost predicate Path(p: Start, taken: nat, others: nat, s: State) {
    exists ss, acts :: TrailOf(p, taken, others, s, ss, acts)
  }

  ghost predicate TrailOf(p: Start, taken: nat, others: nat, s: State, ss: seq<State>,
                          acts: seq<Action>)
  {
    && Trail(ss, acts) && ss[0] == p.before && ss[|acts|] == s && OneCall(acts, p)
    && OwnCount(acts, p.who) == taken && |acts| == taken + others
  }

  lemma PathStarts(p: Start)
    requires Enters(p.entry, p.who)
    ensures Path(p, 0, 0, p.before)
  {
    assert TrailOf(p, 0, 0, p.before, [p.before], []);
  }

  lemma TrailGrows(ss: seq<State>, acts: seq<Action>, a: Action, s': State)
    requires Trail(ss, acts) && Enabled(ss[|acts|], a) && s' == Exec(ss[|acts|], a)
    ensures Trail(ss + [s'], acts + [a])
  {
    var ss', acts' := ss + [s'], acts + [a];
    forall i | 0 <= i < |acts'| ensures Leads(ss'[i], acts'[i], ss'[i + 1]) {
      if i < |acts| {
        assert Leads(ss[i], acts[i], ss[i + 1]);
      }
    }
  }

  lemma CallGrows(acts: seq<Action>, a: Action, p: Start)
    requires OneCall(acts, p) && InTurn(a, |acts|, p)
    ensures OneCall(acts + [a], p)
  {
    forall i | 0 <= i < |acts + [a]| ensures InTurn((acts + [a])[i], i, p) {
      assert i < |acts| ==> InTurn(acts[i], i, p);
    }
  }

  /** The next own action: the way in first, then statements. */
  lemma PathOwn(p: Start, taken: nat, others: nat, s: State, a: Action, s': State)
    requires Path(p, taken, others, s) && Enabled(s, a) && s' == Exec(s, a)
    requires a == if taken == 0 then p.entry else StepOf(p.who)
    requires taken == 0 ==> others == 0
    ensures Path(p, taken + 1, others, s')
  {
    var ss, acts :| TrailOf(p, taken, others, s, ss, acts);
    TrailGrows(ss, acts, a, s');
    CallGrows(acts, a, p);
    OneMoreAction(acts, a, p.who);
    assert TrailOf(p, taken + 1, others, s', ss + [s'], acts + [a]);
  }

  lemma PathOther(p: Start, taken: nat, others: nat, s: State, a: Action, s': State)
    requires Path(p, taken, others, s) && Enabled(s, a) && s' == Exec(s, a)
    requires taken > 0 && !OwnAction(a, p.who)
    ensures Path(p, taken, others + 1, s')
  {
    var ss, acts :| TrailOf(p, taken, others, s, ss, acts);
    TrailGrows(ss, acts, a, s');
    CallGrows(acts, a, p);
    OneMoreAction(acts, a, p.who);
    assert TrailOf(p, taken, others + 1, s', ss + [s'], acts + [a]);
  }

  /** Where a call is after some of its actions. */
  ghost predicate Along(s: State, n: nat, p: Start) {
    && p.before.log <= s.log
    && (Progress(s, n, p) || Done(s, n, p))
  }

  lemma NextAlong(s: State, n: nat, a: Action, p: Start)
    requires Along(s, n, p) && Enabled(s, a)
    requires a == StepOf(p.who) || !OwnAction(a, p.who)
    ensures Along(Exec(s, a), if OwnAction(a, p.who) then n + 1 else n, p)
  {
    var s' := Exec(s, a);
    LogStep(s, a);
    if a != StepOf(p.who) {
      OtherAlong(s, n, a, p);
    } else if Done(s, n, p) {
      assert false;
    } else if InDriver(s', p.who) {
      OwnProgress(s, n, p);
    } else {
      OwnDone(s, n, p);
    }
  }

  lemma OtherAlong(s: State, n: nat, a: Action, p: Start)
    requires Along(s, n, p) && Enabled(s, a) && !OwnAction(a, p.who)
    ensures Along(Exec(s, a), n, p)
  {
    OthersStayOut(s, a, p.who);
    if Progress(s, n, p) {
      OthersProgress(s, Exec(s, a), n, p);
    } else {
      OthersDone(s, Exec(s, a), n, p);
    }
  }

  lemma {:induction false} TrailAlong(ss: seq<State>, acts: seq<Action>, p: Start, i: nat)
    requires Trail(ss, acts) && ss[0] == p.before && OneCall(acts, p) && 0 < i <= |acts|
    ensures Along(ss[i], OwnCount(acts[..i], p.who), p)
  {
    var a := acts[i - 1];
    assert acts[..i] == acts[..i - 1] + [a];
    OneMoreAction(acts[..i - 1], a, p.who);
    TrailAt(ss, acts, i - 1);
    assert InTurn(acts[i - 1], i - 1, p);
    if i == 1 {
      EntryProgress(p);
      LogStep(p.before, a);
    } else {
      TrailAlong(ss, acts, p, i - 1);
      NextAlong(ss[i - 1], OwnCount(acts[..i - 1], p.who), a, p);
    }
  }

  /**
   Whatever the others do meanwhile: inside the driver a call has left exactly the events of its
   place, and once it is out, one result and the events that go with its code.
   */
  lemma PathAlong(p: Start, taken: nat, others: nat, s: State)
    requires Path(p, taken, others, s) && taken > 0
    ensures Along(s, taken, p)
  {
    var ss, acts :| TrailOf(p, taken, others, s, ss, acts);
    TrailAlong(ss, acts, p, |acts|);
    assert acts[..|acts|] == acts;
  }

  lemma {:induction false} TrailReachable(ss: seq<State>, acts: seq<Action>, i: nat)
    requires Trail(ss, acts) && Reachable(ss[0]) && i < |ss|
    ensures Reachable(ss[i])
  {
    if i > 0 {
      TrailReachable(ss, acts, i - 1);
      TrailAt(ss, acts, i - 1);
      ReachableStep(ss[i - 1], acts[i - 1], ss[i]);
    }
  }

  /** A state that the call went through after so many of its own actions. */
  ghost predicate OnPath(p: Start, taken: nat, s: State) {
    exists others: nat :: Path(p, taken, others, s)
  }

  lemma PathReachable(p: Start, taken: nat, others: nat, s: State)
    requires Path(p, taken, others, s) && Reachable(p.before)
    ensures Reachable(s)
  {
    var ss, acts :| TrailOf(p, taken, others, s, ss, acts);
    TrailReachable(ss, acts, |acts|);
  }
}
