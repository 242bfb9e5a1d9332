/** How calls, their results and the history go together: what every step keeps. */
module IrqCalls {
  import opened StatusWord
  import opened IrqHistory
  import opened IrqMachine
  import opened IrqSteps
  import opened IrqInvariant

  // ---------- calls and the history ----------

  /** The event a decided call left in the history. */
  function OwnEvent(t: Tid, pc: Pc): Event
    requires Decided(pc)
  {
    match pc
    case Waiting(w) =>
      if w.WaitRefuseUnlock? || w.WaitRefuseRestore? then WaitRefused(t) else Arm(t)
    case Cancelling(x) =>
      if x.CancelRefuseUnlock? || x.CancelRefuseRestore? then CancelRefused(t)
      else if x.CancelStoreFlag? || x.CancelStoreDone? then CancelPassed(t)
      else Cancel(t)
  }

  /** The wait loop was left because the condition held, or no signal could have ended it. */
  predicate SawCompletion(th: Thread) {
    th.pc == Waiting(WaitFinish) || (th.pc == Waiting(WaitRead) && !th.signalled)
  }

  ghost predicate CallOk(log: seq<Event>, t: Tid, th: Thread) {
    && (Decided(th.pc) ==> th.at < |log| && log[th.at] == OwnEvent(t, th.pc))
    && (th.pc == Waiting(WaitRecheck(true)) ==> th.signalled)
    && (SawCompletion(th) ==> CompletedAfter(log, th.at))
  }

  ghost predicate CallsOk(s: State) {
    forall t: Tid :: t < |s.threads| ==> CallOk(s.log, t, s.threads[t])
  }

  lemma CallOkGrows(log: seq<Event>, more: seq<Event>, t: Tid, th: Thread)
    requires CallOk(log, t, th)
    ensures CallOk(log + more, t, th)
  {
    AfterGrows(log, more, th.at);
  }

  lemma WaitCallEntry(s: State, t: Tid)
    requires t < |s.threads| && s.threads[t].pc.Waiting? && !PastClear(s.threads[t].pc)
    requires CallOk(s.log, t, s.threads[t])
    ensures CallOk(WaitNext(s, t).log, t, WaitNext(s, t).threads[t])
  {
    match s.threads[t].pc.w {
      case WaitSpin => case WaitCheck => case WaitRefuseUnlock => case WaitRefuseRestore =>
      case WaitStoreArm => case WaitClearCancel =>
    }
  }

  lemma WaitCallLoop(s: State, t: Tid)
    requires t < |s.threads| && s.threads[t].pc.Waiting? && PastClear(s.threads[t].pc)
    requires CallOk(s.log, t, s.threads[t])
    requires s.waiting == 0 ==> CompletedAfter(s.log, s.threads[t].at)
    ensures CallOk(WaitNext(s, t).log, t, WaitNext(s, t).threads[t])
  {
    match s.threads[t].pc.w {
      case WaitUnlock => case WaitRestore => case WaitFirstCheck => case WaitPrepare =>
      case WaitRecheck(_) => case WaitSchedule => case WaitAsleep => case WaitFinish =>
      case WaitRead =>
    }
  }

  lemma WaitCall(s: State, t: Tid)
    requires t < |s.threads| && s.threads[t].pc.Waiting?
    requires FlagsOk(s) && CallOk(s.log, t, s.threads[t])
    ensures CallOk(WaitNext(s, t).log, t, WaitNext(s, t).threads[t])
  {
    if PastClear(s.threads[t].pc) {
      if s.waiting == 0 {
        DisarmedMeansCompleted(s.log, s.threads[t].at);
      }
      WaitCallLoop(s, t);
    } else {
      WaitCallEntry(s, t);
    }
  }

  lemma CancelCall(s: State, t: Tid)
    requires t < |s.threads| && s.threads[t].pc.Cancelling?
    requires CallOk(s.log, t, s.threads[t])
    ensures CallOk(CancelNext(s, t).log, t, CancelNext(s, t).threads[t])
  {
  }

  /** A step appends at most one event. */
  lemma LogStep(s: State, a: Action)
    requires Enabled(s, a)
    ensures Exec(s, a).log == s.log || AppendsOne(s.log, Exec(s, a).log)
  {
    if a.StepThread? {
      ThreadEffects(s, a.t);
    }
  }

  /** Anything true of every extension of the history by one event survives a step. */
  lemma OthersCalls(s: State, a: Action, t: Tid)
    requires Enabled(s, a) && t < |s.threads| && CallOk(s.log, t, s.threads[t])
    ensures CallOk(Exec(s, a).log, t, s.threads[t])
  {
    LogStep(s, a);
    CallOkGrows(s.log, Exec(s, a).log[|s.log|..], t, s.threads[t]);
    assert Exec(s, a).log == s.log + Exec(s, a).log[|s.log|..];
  }

  lemma CallsStep(s: State, a: Action)
    requires FlagsOk(s) && CallsOk(s) && Enabled(s, a)
    ensures CallsOk(Exec(s, a))
  {
    var s' := Exec(s, a);
    forall t: Tid | t < |s'.threads| ensures CallOk(s'.log, t, s'.threads[t]) {
      match a {
        case StepThread(u) =>
          ThreadEffects(s, u);
          if t != u {
            OthersCalls(s, a, t);
          } else if s.threads[u].pc.Waiting? {
            WaitCall(s, u);
          } else {
            CancelCall(s, u);
          }
        case StepHandler(c) => HandlerFrame(s, c); OthersCalls(s, a, t);
        case RaiseBit(_) => OthersCalls(s, a, t);
        case CallWait(_) =>
        case CallCancel(_) =>
        case Dispatch(_, _) =>
        case Preempt(_) =>
        case Signal(_) =>
        case Interrupt(_) =>
      }
    }
  }

  // ---------- who may see irq_cancelled set ----------

  /** irq_cancelled is set, or a CANCEL that passed its check is about to set it. */
  ghost predicate CancelUnderWay(s: State) {
    || s.cancelled == 1
    || exists u: Tid :: u < |s.threads| && s.threads[u].pc == Cancelling(CancelStoreFlag)
  }

  /** Whoever could see irq_cancelled set has a CANCEL that passed its check after its own Arm. */
  ghost predicate CausalOk(s: State) {
    CancelUnderWay(s) ==>
      forall t: Tid :: t < |s.threads| && PastClear(s.threads[t].pc) ==>
        CancelPassedAfter(s.log, s.threads[t].at)
  }

  /** The place of a thread past its clear does not move, and it gets there only by clearing. */
  lemma PastClearStays(s: State, a: Action, t: Tid)
    requires Enabled(s, a) && t < |s.threads|
    ensures |Exec(s, a).threads| == |s.threads|
    ensures PastClear(Exec(s, a).threads[t].pc) ==>
              && Armed(s.threads[t].pc) && Exec(s, a).threads[t].at == s.threads[t].at
              && (s.threads[t].pc.w.WaitClearCancel? ==> a == StepThread(t))
  {
    match a {
      case StepThread(u) => ThreadEffects(s, u);
      case StepHandler(c) => HandlerFrame(s, c);
      case _ =>
    }
  }

  lemma ThreadsStay(s: State, a: Action)
    requires Enabled(s, a)
    ensures |Exec(s, a).threads| == |s.threads|
  {
    if a.StepThread? {
      ThreadEffects(s, a.t);
    }
  }

  predicate JustPassed(before: seq<Event>, after: seq<Event>) {
    AppendsOne(before, after) && after[|before|].CancelPassed?
  }

  /** Either a CANCEL was under way already, or it has just passed its check. */
  lemma CancelStarts(s: State, a: Action)
    requires Enabled(s, a) && CancelUnderWay(Exec(s, a))
    ensures CancelUnderWay(s) || JustPassed(s.log, Exec(s, a).log)
  {
    var s' := Exec(s, a);
    if s'.cancelled == 1 {
      if a.StepThread? {
        ThreadEffects(s, a.t);
        assert s.cancelled == 1 || s.threads[a.t].pc == Cancelling(CancelStoreFlag);
      }
    } else {
      var u: Tid :| u < |s'.threads| && s'.threads[u].pc == Cancelling(CancelStoreFlag);
      match a {
        case StepThread(t) =>
          ThreadEffects(s, t);
          assert u == t || s.threads[u].pc == Cancelling(CancelStoreFlag);
        case StepHandler(c) =>
          HandlerFrame(s, c);
          assert s.threads[u].pc == Cancelling(CancelStoreFlag);
        case _ => assert s.threads[u].pc == Cancelling(CancelStoreFlag);
      }
    }
  }

  lemma PassedNow(before: seq<Event>, after: seq<Event>, k: nat)
    requires JustPassed(before, after) && k < |before|
    ensures CancelPassedAfter(after, k)
  {
    assert after[|before|].CancelPassed?;
  }

  lemma PassedBefore(before: seq<Event>, after: seq<Event>, k: nat)
    requires CancelPassedAfter(before, k) && (after == before || AppendsOne(before, after))
    ensures CancelPassedAfter(after, k)
  {
    var j :| k < j < |before| && before[j].CancelPassed?;
    assert after[j] == before[j];
  }

  lemma CausalFor(s: State, a: Action, t: Tid)
    requires LockOk(s) && CausalOk(s) && Enabled(s, a)
    requires t < |s.threads| && CallOk(s.log, t, s.threads[t])
    requires CancelUnderWay(Exec(s, a))
    requires t < |Exec(s, a).threads| && PastClear(Exec(s, a).threads[t].pc)
    ensures CancelPassedAfter(Exec(s, a).log, Exec(s, a).threads[t].at)
  {
    var s' := Exec(s, a);
    PastClearStays(s, a, t);
    CancelStarts(s, a);
    if JustPassed(s.log, s'.log) {
      PassedNow(s.log, s'.log, s.threads[t].at);
    } else if s.threads[t].pc.w.WaitClearCancel? {
      ClearingEndsCancel(s, t);
      assert false;
    } else {
      LogStep(s, a);
      PassedBefore(s.log, s'.log, s.threads[t].at);
    }
  }

  lemma CausalStep(s: State, a: Action)
    requires LockOk(s) && CallsOk(s) && CausalOk(s) && Enabled(s, a)
    ensures CausalOk(Exec(s, a))
  {
    var s' := Exec(s, a);
    ThreadsStay(s, a);
    if CancelUnderWay(s') {
      forall t: Tid | t < |s'.threads| && PastClear(s'.threads[t].pc)
        ensures CancelPassedAfter(s'.log, s'.threads[t].at)
      {
        CausalFor(s, a, t);
      }
    }
  }

  /** The store at WaitClearCancel happens under the lock, so no CANCEL is then under way. */
  lemma ClearingEndsCancel(s: State, t: Tid)
    requires LockOk(s) && Enabled(s, StepThread(t)) && s.threads[t].pc == Waiting(WaitClearCancel)
    ensures !CancelUnderWay(Exec(s, StepThread(t)))
  {
    var s' := Exec(s, StepThread(t));
    LockStep(s, StepThread(t));
    forall u: Tid | u < |s'.threads| ensures s'.threads[u].pc != Cancelling(CancelStoreFlag) {
      assert Holds(s'.threads[t].pc);
    }
  }

  // ---------- results ----------

  ghost predicate CancelledIn(log: seq<Event>, k: nat) {
    exists j :: k < j < |log| && log[j].Cancel?
  }

  ghost predicate NotifiedIn(log: seq<Event>, k: nat) {
    exists j :: k < j < |log| && log[j].Notify?
  }

  /** What a returned call says about the history up to the point that settled its result. */
  ghost predicate ResultOk(log: seq<Event>, r: Result) {
    && r.at < |log|
    && match r.op
       case OpCancel =>
         && (r.code == Zero || r.code == EAlready)
         && log[r.at] == (if r.code == Zero then Cancel(r.t) else CancelRefused(r.t))
       case OpWait =>
         if r.code == EAlready then log[r.at] == WaitRefused(r.t)
         else
           && log[r.at] == Arm(r.t)
           && (r.code == ECanceled <==> StoredFlag(log) == 1)
           && (r.code == ECanceled ==> CancelPassedAfter(log, r.at))
           && (!r.signalled ==> CompletedAfter(log, r.at))
           && (CompletedAfter(log, r.at) && NoArmAfter(log, r.at) ==>
                 && (r.code == ECanceled <==> CancelledIn(log, r.at))
                 && (r.code == Zero <==> NotifiedIn(log, r.at)))
  }

  ghost predicate ResultsOk(s: State) {
    forall r :: r in s.results ==> r.end <= |s.log| && ResultOk(s.log[..r.end], r)
  }

  /** The code of a WAIT says what this completion was. */
  predicate Names(code: Code, e: Event) {
    && (code == ECanceled <==> e.Cancel?)
    && (code == Zero <==> e.Notify?)
  }

  /** A settled WAIT and the history it belongs to, whatever was appended since. */
  ghost predicate ResultInHistory(log: seq<Event>, r: Result) {
    && Replay(log).Some? && CompletionsMatch(log)
    && r.end <= |log| && ResultOk(log[..r.end], r)
  }

  lemma OutcomeInHistory(log: seq<Event>, r: Result, c: nat)
    requires ResultInHistory(log, r) && r.op == OpWait && r.code != EAlready
    requires FirstCompletion(log[..r.end], r.at, c)
    ensures NoArmAfter(log[..c + 1], r.at)
    ensures r.code == ECanceled <==> StoredFlag(log[..r.end]) == 1
    ensures Names(r.code, log[c]) <==> !LastStoreIs(log[..r.end], c + 1, log[c].Notify?)
    ensures NoArmAfter(log[..r.end], r.at) ==> Names(r.code, log[c])
  {
    var seen := log[..r.end];
    ReplayPrefix(log, r.end);
    FirstCompletionIsOwn(seen, r.at, c);
    assert seen[..c + 1] == log[..c + 1];
    FlagByLastStore(seen, c + 1);
    assert StoredFlag(log[..c + 1]) == Bit(log[c].Cancel?);
    if NoArmAfter(seen, r.at) {
      assert CompletedAfter(seen, r.at);
      CompletionIsNamed(seen, r, c);
    }
  }

  lemma CompletionIsNamed(log: seq<Event>, r: Result, c: nat)
    requires Replay(log).Some? && ResultOk(log, r) && r.op == OpWait && r.code != EAlready
    requires FirstCompletion(log, r.at, c) && NoArmAfter(log, r.at)
    ensures Names(r.code, log[c])
  {
    assert CompletedAfter(log, r.at);
    if log[c].Cancel? {
      assert CancelledIn(log, r.at);
    } else {
      assert NotifiedIn(log, r.at);
    }
  }

  /** The last step of WAIT, reading irq_cancelled without the lock. */
  lemma ReadResult(s: State, t: Tid)
    requires t < |s.threads| && s.threads[t].pc == Waiting(WaitRead)
    requires FlagsOk(s) && StoresOk(s) && CallsOk(s) && CausalOk(s)
    ensures var th := s.threads[t];
            ResultOk(s.log, Result(t, OpWait, th.at, |s.log|, th.signalled,
                                   if s.cancelled == 1 then ECanceled else Zero))
  {
    var th := s.threads[t];
    assert CallOk(s.log, t, th);
    assert PastClear(th.pc);
    if s.cancelled == 1 {
      assert CancelUnderWay(s);
    }
    if CompletedAfter(s.log, th.at) && NoArmAfter(s.log, th.at) {
      RequestWindow(s.log, th.at);
      var o := Replay(s.log).value;
      assert !o.armed by {
        var j :| th.at < j < |s.log| && Completes(s.log[j]);
      }
      UnarmedFlag(s);
      var j :| && th.at < j < |s.log| && Completes(s.log[j])
               && (o.cancelled <==> s.log[j].Cancel?)
               && forall i :: th.at < i < |s.log| && i != j ==> !Completes(s.log[i]);
    }
  }

  /** With no request armed, irq_cancelled is what the last completion left. */
  lemma UnarmedFlag(s: State)
    requires FlagsOk(s) && !Replay(s.log).value.armed
    ensures s.cancelled == Bit(Replay(s.log).value.cancelled)
  {
    if s.lock.Some? && s.lock.value.InThread? && s.lock.value.t < |s.threads| {
      assert CheckHolds(s.threads[s.lock.value.t].pc, Replay(s.log).value);
    }
  }

  /** A result handed over by a returning call is right about the history so far. */
  lemma NewResult(s: State, t: Tid)
    requires t < |s.threads| && Leaves(s.threads[t].pc) && Enabled(s, StepThread(t))
    requires FlagsOk(s) && StoresOk(s) && CallsOk(s) && CausalOk(s)
    ensures var s' := Exec(s, StepThread(t));
            |s'.results| == |s.results| + 1 && ResultOk(s.log, s'.results[|s.results|])
  {
    assert CallOk(s.log, t, s.threads[t]);
    if s.threads[t].pc == Waiting(WaitRead) {
      ReadResult(s, t);
    }
  }

  /** What was right about a prefix of the history stays right as the history grows. */
  lemma OldResults(s: State, s': State)
    requires ResultsOk(s) && (s'.log == s.log || AppendsOne(s.log, s'.log))
    ensures forall r :: r in s.results ==> r.end <= |s'.log| && ResultOk(s'.log[..r.end], r)
  {
    forall r | r in s.results ensures r.end <= |s'.log| && ResultOk(s'.log[..r.end], r) {
      assert s'.log[..r.end] == s.log[..r.end];
    }
  }

  /** Only the last step of a call hands over a result, settled by the history so far. */
  ghost predicate HandsOver(s: State, s': State, a: Action) {
    && a.StepThread? && a.t < |s.threads| && Leaves(s.threads[a.t].pc)
    && s'.log == s.log && AppendsOne(s.results, s'.results)
    && s'.results[|s.results|].end == |s.log|
  }

  lemma ResultsMove(s: State, a: Action)
    requires Enabled(s, a)
    ensures Exec(s, a).results == s.results || HandsOver(s, Exec(s, a), a)
  {
    if a.StepThread? {
      ThreadEffects(s, a.t);
    }
  }

  lemma ResultsKept(s: State, s': State)
    requires ResultsOk(s) && (s'.log == s.log || AppendsOne(s.log, s'.log))
    requires s'.results == s.results
             || (AppendsOne(s.results, s'.results)
                 && var r := s'.results[|s.results|];
                    r.end <= |s'.log| && ResultOk(s'.log[..r.end], r))
    ensures ResultsOk(s')
  {
    OldResults(s, s');
    forall r | r in s'.results ensures r.end <= |s'.log| && ResultOk(s'.log[..r.end], r) {
      var k :| 0 <= k < |s'.results| && s'.results[k] == r;
      assert k < |s.results| ==> s.results[k] == r;
    }
  }

  lemma ResultsStep(s: State, a: Action)
    requires FlagsOk(s) && StoresOk(s) && CallsOk(s) && CausalOk(s) && ResultsOk(s)
    requires Enabled(s, a)
    ensures ResultsOk(Exec(s, a))
  {
    var s' := Exec(s, a);
    LogStep(s, a);
    ResultsMove(s, a);
    if s'.results != s.results {
      NewResult(s, a.t);
      assert s'.log[..|s.log|] == s.log;
    }
    ResultsKept(s, s');
  }

  // ---------- every decision belongs to one call ----------

  /** Events that settle a call. */
  predicate Settles(e: Event) {
    e.Arm? || e.WaitRefused? || e.Cancel? || e.CancelRefused?
  }

  predicate ClaimedByThread(s: State, i: nat, t: Tid) {
    t < |s.threads| && Decided(s.threads[t].pc) && s.threads[t].at == i
  }

  ghost predicate Claimed(s: State, i: nat) {
    || (exists k :: 0 <= k < |s.results| && s.results[k].at == i)
    || (exists t: Tid :: ClaimedByThread(s, i, t))
  }

  /** Calls of one thread follow each other in the history. */
  ghost predicate OrderOk(s: State) {
    && (forall k :: 0 <= k < |s.results| ==> s.results[k].end <= |s.log|)
    && (forall k, t: Tid :: 0 <= k < |s.results| && s.results[k].t == t && t < |s.threads|
                            && Decided(s.threads[t].pc)
                            ==> s.results[k].end <= s.threads[t].at)
    && (forall k, l :: 0 <= k < l < |s.results| && s.results[k].t == s.results[l].t
                       ==> s.results[k].end <= s.results[l].at)
  }

  ghost predicate ClaimsOk(s: State) {
    && (forall i :: 0 <= i < |s.log| && Settles(s.log[i]) ==> Claimed(s, i))
    && OrderOk(s)
  }

  lemma ClaimKeeps(s: State, s': State, t: Tid, i: nat)
    requires t < |s.threads| && OthersStay(s, s', t) && ClaimEffect(s, s', t)
    requires CallOk(s.log, t, s.threads[t])
    requires i < |s.log| && Settles(s.log[i]) && Claimed(s, i)
    ensures Claimed(s', i)
  {
    if k :| 0 <= k < |s.results| && s.results[k].at == i {
      assert s'.results[k] == s.results[k];
    } else {
      var u: Tid :| ClaimedByThread(s, i, u);
      if u != t || (Decided(s'.threads[t].pc) && s'.threads[t].at == i) {
        assert ClaimedByThread(s', i, u);
      } else {
        assert s'.results[|s.results|].at == i;
      }
    }
  }

  lemma OrderMove(s: State, s': State, t: Tid)
    requires t < |s.threads| && OthersStay(s, s', t) && ClaimEffect(s, s', t)
    requires OrderOk(s) && (Decided(s.threads[t].pc) ==> s.threads[t].at < |s.log|)
    ensures OrderOk(s')
  {
  }

  lemma ClaimsMove(s: State, s': State, t: Tid)
    requires ClaimsOk(s) && t < |s.threads| && CallOk(s.log, t, s.threads[t])
    requires OthersStay(s, s', t) && ClaimEffect(s, s', t)
    ensures ClaimsOk(s')
  {
    OrderMove(s, s', t);
    forall i | 0 <= i < |s'.log| && Settles(s'.log[i]) ensures Claimed(s', i) {
      if i == |s.log| {
        assert ClaimedByThread(s', i, t);
      } else {
        assert s'.log[i] == s.log[i];
        ClaimKeeps(s, s', t, i);
      }
    }
  }

  lemma ClaimsKept(s: State, s': State)
    requires ClaimsOk(s)
    requires s.log <= s'.log && s'.results == s.results && |s'.threads| == |s.threads|
    requires forall i :: |s.log| <= i < |s'.log| ==> !Settles(s'.log[i])
    requires forall t: Tid :: t < |s.threads| ==>
               s'.threads[t].at == s.threads[t].at
               && (Decided(s'.threads[t].pc) <==> Decided(s.threads[t].pc))
    ensures ClaimsOk(s')
  {
    forall i | 0 <= i < |s'.log| && Settles(s'.log[i]) ensures Claimed(s', i) {
      assert Settles(s.log[i]) && Claimed(s, i);
      if k :| 0 <= k < |s.results| && s.results[k].at == i {
        assert s'.results[k].at == i;
      } else {
        var u: Tid :| ClaimedByThread(s, i, u);
        assert ClaimedByThread(s', i, u);
      }
    }
  }

  lemma ClaimsStep(s: State, a: Action)
    requires ClaimsOk(s) && CallsOk(s) && Enabled(s, a)
    ensures ClaimsOk(Exec(s, a))
  {
    match a {
      case StepThread(t) =>
        ThreadEffects(s, t);
        ClaimsMove(s, Exec(s, a), t);
      case StepHandler(c) => HandlerFrame(s, c); ClaimsKept(s, Exec(s, a));
      case _ => ClaimsKept(s, Exec(s, a));
    }
  }

  // ---------- interrupts ----------

  /** A handler run that read the bit and has its notify attempt still to make. */
  predicate OwesNotify(s: State, c: Cpu, bit: nat) {
    && c < |s.handlers|
    && match s.handlers[c]
       case NotifySpin(seen) => bit in seen
       case NotifyCheck(seen) => bit in seen
       case NotifyStore(seen) => bit in seen
       case _ => false
  }

  predicate NotifiesFor(e: Event, bit: nat) {
    (e.Notify? || e.NotifyMiss?) && bit in e.seen
  }

  /** Still latched, or in the hands of a handler, or followed by a notify attempt. */
  ghost predicate BitKept(s: State, i: nat, bit: nat) {
    || bit in s.status
    || (exists c: Cpu :: OwesNotify(s, c, bit))
    || (exists j :: i < j < |s.log| && NotifiesFor(s.log[j], bit))
  }

  ghost predicate BitsOk(s: State) {
    forall i: nat :: i < |s.log| && s.log[i].Raise? && s.log[i].bit in INTERRUPT_BITS ==>
      BitKept(s, i, s.log[i].bit)
  }

  lemma HandlerBit(s: State, c: Cpu, i: nat, bit: nat)
    requires Enabled(s, StepHandler(c)) && i < |s.log| && BitKept(s, i, bit)
    ensures BitKept(HandlerNext(s, c), i, bit)
  {
    var s' := HandlerNext(s, c);
    HandlerFrame(s, c);
    if bit in s.status {
      if bit !in s'.status {
        assert OwesNotify(s', c, bit);
      }
    } else if d: Cpu :| OwesNotify(s, d, bit) {
      if d != c || OwesNotify(s', c, bit) {
        assert OwesNotify(s', d, bit);
      } else {
        assert NotifiesFor(s'.log[|s.log|], bit);
      }
    } else {
      var j :| i < j < |s.log| && NotifiesFor(s.log[j], bit);
      assert s'.log[j] == s.log[j];
    }
  }

  lemma OtherBit(s: State, a: Action, i: nat, bit: nat)
    requires Enabled(s, a) && !a.StepHandler? && i < |s.log| && BitKept(s, i, bit)
    ensures BitKept(Exec(s, a), i, bit)
  {
    var s' := Exec(s, a);
    LogStep(s, a);
    if a.StepThread? {
      ThreadEffects(s, a.t);
    }
    if bit in s.status {
    } else if d: Cpu :| OwesNotify(s, d, bit) {
      assert OwesNotify(s', d, bit);
    } else {
      var j :| i < j < |s.log| && NotifiesFor(s.log[j], bit);
      assert s'.log[j] == s.log[j];
    }
  }

  lemma BitsStep(s: State, a: Action)
    requires BitsOk(s) && Enabled(s, a)
    ensures BitsOk(Exec(s, a))
  {
    var s' := Exec(s, a);
    LogStep(s, a);
    forall i: nat | i < |s'.log| && s'.log[i].Raise? && s'.log[i].bit in INTERRUPT_BITS
      ensures BitKept(s', i, s'.log[i].bit)
    {
      if i < |s.log| {
        assert s'.log[i] == s.log[i];
        if a.StepHandler? {
          HandlerBit(s, a.c, i, s.log[i].bit);
        } else {
          OtherBit(s, a, i, s.log[i].bit);
        }
      } else if a.StepThread? {
        ThreadEffects(s, a.t);
      }
    }
  }

  // ---------- all of it ----------

  ghost predicate Inv(s: State) {
    && LockOk(s) && CpuOk(s) && QueueOk(s) && FlagsOk(s) && StoresOk(s) && WakeOk(s)
    && CallsOk(s) && CausalOk(s) && ResultsOk(s) && ClaimsOk(s) && BitsOk(s)
  }

  lemma InitInv(s: State)
    requires Init(s)
    ensures Inv(s)
  {
  }

  lemma StepInv(s: State, a: Action)
    requires Inv(s) && Enabled(s, a)
    ensures Inv(Exec(s, a))
  {
    LockStep(s, a);
    CpuStep(s, a);
    QueueStep(s, a);
    FlagsStep(s, a);
    StoresStep(s, a);
    WakeStep(s, a);
    CallsStep(s, a);
    CausalStep(s, a);
    ResultsStep(s, a);
    ClaimsStep(s, a);
    BitsStep(s, a);
  }

  lemma {:induction false} RunInv(ss: seq<State>, acts: seq<Action>, i: nat)
    requires Run(ss, acts) && i < |ss|
    ensures Inv(ss[i])
  {
    if i == 0 {
      InitInv(ss[0]);
    } else {
      RunInv(ss, acts, i - 1);
      StepInv(ss[i - 1], acts[i - 1]);
    }
  }

  lemma ReachableInv(s: State)
    requires Reachable(s)
    ensures Inv(s)
  {
    var ss, acts :| Run(ss, acts) && ss[|ss| - 1] == s;
    RunInv(ss, acts, |ss| - 1);
  }

  lemma InitReachable(s: State)
    requires Init(s)
    ensures Reachable(s)
  {
    assert Run([s], []);
  }

  lemma ReachableStep(s: State, a: Action, s': State)
    requires Reachable(s) && Enabled(s, a) && s' == Exec(s, a)
    ensures Reachable(s')
  {
    var ss, acts :| Run(ss, acts) && ss[|ss| - 1] == s;
    assert Run(ss + [s'], acts + [a]);
    assert (ss + [s'])[|ss + [s']| - 1] == s';
  }
}
