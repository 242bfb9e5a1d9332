/**
 The history of one card's interrupt request, and the atomic one-shot machine it is judged by.

 The driver's protocol is small steps under a spinlock and reads outside it.  Each step that
 decides something appends one event to a history; the atomic machine below says which histories
 a request object with indivisible operations could produce.
 */
module IrqHistory {
  import opened Options
  import opened StatusWord

  type Tid = nat
  type Cpu = nat

  datatype Event =
    | Raise(bit: nat)                 // the hardware latches a status bit
    | Arm(t: Tid)                      // WAIT stores waiting_for_irq = 1
    | WaitRefused(t: Tid)              // WAIT finds a request outstanding
    | ClearFlag(t: Tid)                // WAIT stores irq_cancelled = 0
    | CancelPassed(t: Tid)             // CANCEL finds a request outstanding
    | SetFlag(t: Tid)                  // CANCEL stores irq_cancelled = 1
    | Cancel(t: Tid)                   // CANCEL stores waiting_for_irq = 0
    | CancelRefused(t: Tid)            // CANCEL finds nothing to cancel
    | Notify(c: Cpu, seen: Word)       // a handler stores waiting_for_irq = 0
    | NotifyMiss(c: Cpu, seen: Word)   // a handler finds nobody waiting

  predicate Completes(e: Event) {
    e.Notify? || e.Cancel?
  }

  predicate Committed(e: Event) {
    e.Arm? || Completes(e)
  }

  /** What a request object with indivisible operations remembers. */
  datatype OneShot = OneShot(armed: bool, cancelled: bool)

  const FRESH := OneShot(false, false)

  /**
   One indivisible operation; None when the recorded outcome is not the one it would have.  The
   events that leave the object alone are marks: a raised bit, a passed check, a store of the flag.
   */
  function Apply(o: OneShot, e: Event): Option<OneShot> {
    match e
    case Raise(_) => Some(o)
    case Arm(_) => if o.armed then None else Some(OneShot(true, false))
    case WaitRefused(_) => if o.armed then Some(o) else None
    case ClearFlag(_) => if o.armed then Some(o) else None
    case CancelPassed(_) => if o.armed then Some(o) else None
    case SetFlag(_) => if o.armed then Some(o) else None
    case Cancel(_) => if o.armed then Some(OneShot(false, true)) else None
    case CancelRefused(_) => if o.armed then None else Some(o)
    case Notify(_, _) => if o.armed then Some(OneShot(false, false)) else None
    case NotifyMiss(_, _) => if o.armed then None else Some(o)
  }

  function Replay(log: seq<Event>): (r: Option<OneShot>)
    ensures r.Some? && r.value.armed ==> !r.value.cancelled
  {
    if log == [] then Some(FRESH)
    else
      match Replay(log[..|log| - 1])
      case None => None
      case Some(o) => Apply(o, log[|log| - 1])
  }

  lemma ReplayAppend(log: seq<Event>, e: Event)
    ensures Replay(log + [e]) == match Replay(log) case None => None case Some(o) => Apply(o, e)
  {
    assert (log + [e])[..|log|] == log;
  }

  lemma {:induction false} ReplayPrefix(log: seq<Event>, k: nat)
    requires k <= |log| && Replay(log).Some?
    ensures Replay(log[..k]).Some?
    decreases |log| - k
  {
    if k == |log| {
      assert log[..k] == log;
    } else {
      ReplayPrefix(log, k + 1);
      assert log[..k + 1][..k] == log[..k];
    }
  }

  // ---------- what followed an index of the history ----------

  ghost predicate CompletedAfter(log: seq<Event>, k: nat) {
    exists j :: k < j < |log| && Completes(log[j])
  }

  ghost predicate CancelPassedAfter(log: seq<Event>, k: nat) {
    exists j :: k < j < |log| && log[j].CancelPassed?
  }

  ghost predicate NoArmAfter(log: seq<Event>, k: nat) {
    forall j :: k < j < |log| ==> !log[j].Arm?
  }

  lemma AfterGrows(log: seq<Event>, more: seq<Event>, k: nat)
    ensures CompletedAfter(log, k) ==> CompletedAfter(log + more, k)
    ensures CancelPassedAfter(log, k) ==> CancelPassedAfter(log + more, k)
  {
    if CompletedAfter(log, k) {
      var j :| k < j < |log| && Completes(log[j]);
      assert (log + more)[j] == log[j];
    }
    if CancelPassedAfter(log, k) {
      var j :| k < j < |log| && log[j].CancelPassed?;
      assert (log + more)[j] == log[j];
    }
  }

  /** An armed request that is no longer armed was completed in between. */
  lemma {:induction false} DisarmedMeansCompleted(log: seq<Event>, k: nat)
    requires k < |log| && log[k].Arm?
    requires Replay(log).Some? && !Replay(log).value.armed
    ensures CompletedAfter(log, k)
  {
    var front, last := log[..|log| - 1], log[|log| - 1];
    assert Replay(front).Some?;
    if k < |log| - 1 && !Completes(last) {
      assert front[k] == log[k];
      DisarmedMeansCompleted(front, k);
      assert front + [last] == log;
      AfterGrows(front, [last], k);
    }
  }

  /**
   The window of one request: from its Arm up to any point before the next Arm.  While it is armed
   nothing completed it, no handler missed it and no CANCEL was refused; once it is not armed,
   exactly one event completed it, and the outcome is that event's.
   */
  lemma {:induction false} RequestWindow(log: seq<Event>, k: nat)
    requires k < |log| && log[k].Arm? && NoArmAfter(log, k)
    requires Replay(log).Some?
    ensures Replay(log).value.armed ==>
              forall j :: k < j < |log| ==>
                !Completes(log[j]) && !log[j].NotifyMiss? && !log[j].CancelRefused?
    ensures !Replay(log).value.armed ==>
              exists j :: && k < j < |log| && Completes(log[j])
                          && (Replay(log).value.cancelled <==> log[j].Cancel?)
                          && forall i :: k < i < |log| && i != j ==> !Completes(log[i])
  {
    var front, last := log[..|log| - 1], log[|log| - 1];
    if k < |log| - 1 {
      assert front[k] == log[k];
      assert forall j :: k < j < |front| ==> front[j] == log[j];
      RequestWindow(front, k);
      if Replay(front).value.armed {
        if Completes(last) {
          var j := |log| - 1;
          assert k < j && Completes(log[j]);
        }
      } else {
        var j :| && k < j < |front| && Completes(front[j])
                 && (Replay(front).value.cancelled <==> front[j].Cancel?)
                 && forall i :: k < i < |front| && i != j ==> !Completes(front[i]);
        assert Completes(log[j]);
      }
    }
  }

  /** Between an Arm and the next there is at most one completion, whoever made it. */
  lemma AtMostOneCompletion(log: seq<Event>, k: nat, i: nat, j: nat)
    requires Replay(log).Some? && k < i <= j < |log|
    requires log[k].Arm? && NoArmAfter(log[..j + 1], k)
    requires Completes(log[i]) && Completes(log[j])
    ensures i == j
  {
    var window := log[..j + 1];
    ReplayPrefix(log, j + 1);
    RequestWindow(window, k);
    assert Completes(window[i]) && Completes(window[j]);
  }

  // ---------- the stores of irq_cancelled ----------

  /** What the last store of irq_cancelled in the history left there. */
  function StoredFlag(log: seq<Event>): int {
    if log == [] then 0
    else
      match log[|log| - 1]
      case ClearFlag(_) => 0
      case SetFlag(_) => 1
      case _ => StoredFlag(log[..|log| - 1])
  }

  predicate StoresFlag(e: Event) {
    e.ClearFlag? || e.SetFlag?
  }

  lemma {:induction false} FlagStays(log: seq<Event>, k: nat)
    requires k <= |log| && forall j :: k <= j < |log| ==> !StoresFlag(log[j])
    ensures StoredFlag(log) == StoredFlag(log[..k])
  {
    if k == |log| {
      assert log[..k] == log;
    } else {
      var front := log[..|log| - 1];
      assert !StoresFlag(log[|log| - 1]);
      FlagStays(front, k);
      assert front[..k] == log[..k];
    }
  }

  /** The last store of the flag at or after k stores b. */
  predicate LastStoreIs(log: seq<Event>, k: nat, b: bool) {
    exists j: nat :: k <= j < |log| && IsLastStore(log, j) && (log[j].SetFlag? <==> b)
  }

  predicate IsLastStore(log: seq<Event>, j: nat) {
    j < |log| && StoresFlag(log[j]) && forall i :: j < i < |log| ==> !StoresFlag(log[i])
  }

  lemma FlagOfLastStore(log: seq<Event>, j: nat)
    requires IsLastStore(log, j)
    ensures StoredFlag(log) == if log[j].SetFlag? then 1 else 0
    ensures forall i: nat :: IsLastStore(log, i) ==> i == j
  {
    FlagStays(log, j + 1);
    assert log[..j + 1][j] == log[j];
  }

  lemma FlagByLastStore(log: seq<Event>, k: nat)
    requires k <= |log|
    ensures StoredFlag(log) == if LastStoreIs(log, k, true) then 1
                               else if LastStoreIs(log, k, false) then 0
                               else StoredFlag(log[..k])
    ensures !(LastStoreIs(log, k, true) && LastStoreIs(log, k, false))
  {
    if j: nat :| k <= j && IsLastStore(log, j) {
      FlagOfLastStore(log, j);
    } else {
      NoStoreFrom(log, k, |log|);
      FlagStays(log, k);
    }
  }

  lemma {:induction false} NoStoreFrom(log: seq<Event>, k: nat, n: nat)
    requires n <= |log| && forall i :: n <= i < |log| ==> !StoresFlag(log[i])
    requires forall j: nat :: k <= j ==> !IsLastStore(log, j)
    ensures forall i :: k <= i < |log| ==> !StoresFlag(log[i])
  {
    if n > k {
      assert !IsLastStore(log, n - 1);
      NoStoreFrom(log, k, n - 1);
    }
  }

  // ---------- the completion of a request ----------

  /** The first completion after an index. */
  predicate FirstCompletion(log: seq<Event>, k: nat, c: nat) {
    && k < c < |log| && Completes(log[c])
    && forall j :: k < j < c ==> !Completes(log[j])
  }

  lemma {:induction false} FirstCompletionExists(log: seq<Event>, k: nat)
    requires CompletedAfter(log, k)
    ensures exists c :: FirstCompletion(log, k, c)
  {
    var front := log[..|log| - 1];
    if CompletedAfter(front, k) {
      FirstCompletionExists(front, k);
      var c :| FirstCompletion(front, k, c);
      assert FirstCompletion(log, k, c);
    } else {
      forall i | k < i < |front| ensures !Completes(log[i]) {
        assert front[i] == log[i];
      }
      assert FirstCompletion(log, k, |front|);
    }
  }

  lemma {:induction false} ArmedUntilCompleted(log: seq<Event>, k: nat, j: nat)
    requires Replay(log).Some? && k < j <= |log| && log[k].Arm?
    requires forall i :: k < i < j ==> !Completes(log[i])
    ensures Replay(log[..j]).Some? && Replay(log[..j]).value.armed
    ensures NoArmAfter(log[..j], k)
  {
    ReplayPrefix(log, j);
    assert log[..j][..j - 1] == log[..j - 1];
    if k < j - 1 {
      ArmedUntilCompleted(log, k, j - 1);
      forall i | k < i < j ensures !log[..j][i].Arm? {
        if i < j - 1 {
          assert log[..j - 1][i] == log[..j][i];
        }
      }
    }
  }

  /** The first completion after an Arm comes before any other Arm: it completed that request. */
  lemma FirstCompletionIsOwn(log: seq<Event>, k: nat, c: nat)
    requires Replay(log).Some? && k < |log| && log[k].Arm? && FirstCompletion(log, k, c)
    ensures NoArmAfter(log[..c + 1], k)
  {
    ArmedUntilCompleted(log, k, c);
    var window := log[..c + 1];
    forall i | k < i < |window| ensures !window[i].Arm? {
      if i < c {
        assert log[..c][i] == window[i];
      }
    }
  }

  // ---------- the committed events ----------

  function CommittedOf(log: seq<Event>): seq<Event> {
    if log == [] then []
    else
      CommittedOf(log[..|log| - 1]) + if Committed(log[|log| - 1]) then [log[|log| - 1]] else []
  }

  function Count(log: seq<Event>, p: Event -> bool): nat {
    if log == [] then 0
    else Count(log[..|log| - 1], p) + if p(log[|log| - 1]) then 1 else 0
  }

  predicate IsArm(e: Event) { e.Arm? }

  predicate IsNotify(e: Event) { e.Notify? }

  predicate IsCancel(e: Event) { e.Cancel? }

  /** Arm at every even place and a completion at every odd one. */
  predicate Alternates(es: seq<Event>) {
    forall i :: 0 <= i < |es| ==> (es[i].Arm? <==> i % 2 == 0) && Committed(es[i])
  }

  /** A legal history alternates, and its last committed event is what the object remembers. */
  lemma {:induction false} LegalHistoryAlternates(log: seq<Event>)
    requires Replay(log).Some?
    ensures Alternates(CommittedOf(log))
    ensures Replay(log).value.armed <==> |CommittedOf(log)| % 2 == 1
    ensures Replay(log).value.armed <==>
              CommittedOf(log) != [] && CommittedOf(log)[|CommittedOf(log)| - 1].Arm?
    ensures Replay(log).value.cancelled <==>
              CommittedOf(log) != [] && CommittedOf(log)[|CommittedOf(log)| - 1].Cancel?
  {
    if log != [] {
      LegalHistoryAlternates(log[..|log| - 1]);
    }
  }

  predicate LastIs(es: seq<Event>, p: Event -> bool) {
    es != [] && p(es[|es| - 1])
  }

  /** In a legal history every event finds the object armed or not, as its outcome says. */
  lemma EventFindsObject(log: seq<Event>, i: nat)
    requires Replay(log).Some? && i < |log|
    ensures var armed := LastIs(CommittedOf(log[..i]), IsArm);
            match log[i]
            case Raise(_) => true
            case Arm(_) => !armed
            case CancelRefused(_) => !armed
            case NotifyMiss(_, _) => !armed
            case _ => armed
  {
    ReplayPrefix(log, i);
    ReplayPrefix(log, i + 1);
    assert log[..i + 1][..i] == log[..i];
    LegalHistoryAlternates(log[..i]);
  }

  lemma {:induction false} LegalHistoryConserves(log: seq<Event>)
    requires Replay(log).Some?
    ensures Count(log, IsArm)
         == Count(log, IsNotify) + Count(log, IsCancel) + if Replay(log).value.armed then 1 else 0
  {
    if log != [] {
      LegalHistoryConserves(log[..|log| - 1]);
    }
  }
}
