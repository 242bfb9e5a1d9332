/**
 Any sequence of register calls of any widths on any cards: the library and the driver together
 behave as one byte map per card, and every byte read is the byte last written there.
 */
module RegisterRuns {
  import opened Registers

  /** One call of the library; the flags say which of the driver's copies succeed. */
  datatype Call =
    | In(card: nat, w: int, register: Uint32, copyIn: bool, copyOut: bool)
    | Out(card: nat, w: int, register: Uint32, v: nat, copyIn: bool)

  predicate InRange(c: Call, mems: seq<Memory>) {
    && IsWidth(c.w) && c.card < |mems|
    && (c.copyIn ==> InRegion(mems[c.card], c.register, c.w))
    && (c.Out? ==> c.v < Limit(c.w))
  }

  /** The byte maps after one call. */
  function Do(mems: seq<Memory>, c: Call): (after: seq<Memory>)
    requires InRange(c, mems)
    ensures |after| == |mems| && forall i :: 0 <= i < |mems| ==> |after[i]| == |mems[i]|
  {
    if c.Out? && c.copyIn then mems[c.card := WriteAt(mems[c.card], c.register, c.w, c.v)]
    else mems
  }

  predicate AllInRange(calls: seq<Call>, mems: seq<Memory>) {
    forall i :: 0 <= i < |calls| ==> InRange(calls[i], mems)
  }

  lemma InRangeByShape(c: Call, a: seq<Memory>, b: seq<Memory>)
    requires InRange(c, a) && |a| == |b| && forall i :: 0 <= i < |a| ==> |a[i]| == |b[i]|
    ensures InRange(c, b)
  {
  }

  function DoAll(mems: seq<Memory>, calls: seq<Call>): (after: seq<Memory>)
    requires AllInRange(calls, mems)
    ensures |after| == |mems| && forall i :: 0 <= i < |mems| ==> |after[i]| == |mems[i]|
  {
    if calls == [] then mems
    else
      var before := DoAll(mems, calls[..|calls| - 1]);
      InRangeByShape(calls[|calls| - 1], mems, before);
      Do(before, calls[|calls| - 1])
  }

  // ---------- the byte last written ----------

  /** The call writes byte a of card i. */
  predicate Covers(c: Call, i: nat, a: nat) {
    && c.Out? && c.copyIn && c.card == i
    && c.register <= a < c.register + c.w
  }

  /** Byte a of card i after the calls, found by looking back for the last call that wrote it. */
  function LastWritten(calls: seq<Call>, i: nat, a: nat, initial: Byte): Byte {
    if calls == [] then initial
    else
      var c := calls[|calls| - 1];
      if Covers(c, i, a) && IsWidth(c.w) then Bytes(c.v, c.w)[a - c.register]
      else LastWritten(calls[..|calls| - 1], i, a, initial)
  }

  /** The byte maps hold at every place the byte last written there, and nothing else changed. */
  lemma {:induction false} BytesAreLastWritten(mems: seq<Memory>, calls: seq<Call>, i: nat, a: nat)
    requires AllInRange(calls, mems) && i < |mems| && a < |mems[i]|
    ensures DoAll(mems, calls)[i][a] == LastWritten(calls, i, a, mems[i][a])
  {
    if calls != [] {
      var front, c := calls[..|calls| - 1], calls[|calls| - 1];
      BytesAreLastWritten(mems, front, i, a);
      InRangeByShape(c, mems, DoAll(mems, front));
    }
  }

  function LastByte(mems: seq<Memory>, calls: seq<Call>, i: nat, a: nat): Byte
    requires i < |mems| && a < |mems[i]|
  {
    LastWritten(calls, i, a, mems[i][a])
  }

  function LastBytes(mems: seq<Memory>, calls: seq<Call>, i: nat, at: nat, n: nat): seq<Byte>
    requires i < |mems| && at + n <= |mems[i]|
  {
    if n == 0 then []
    else LastBytes(mems, calls, i, at, n - 1) + [LastByte(mems, calls, i, at + n - 1)]
  }

  /** What a read call answers after the calls, in terms of the bytes last written. */
  function LastWrittenValue(mems: seq<Memory>, calls: seq<Call>, c: Call): nat
    requires InRange(c, mems)
  {
    if c.In? && c.copyIn && c.copyOut then
      Value(LastBytes(mems, calls, c.card, c.register, c.w))
    else 0
  }

  /** What a call answers: a read the bytes it covers, a write nothing. */
  function Answer(mems: seq<Memory>, c: Call): nat
    requires InRange(c, mems)
  {
    if c.In? && c.copyIn && c.copyOut then ReadAt(mems[c.card], c.register, c.w) else 0
  }

  lemma {:induction false} MemoryIsLastBytes(mems: seq<Memory>, calls: seq<Call>, i: nat, at: nat,
                                             n: nat)
    requires AllInRange(calls, mems) && i < |mems| && at + n <= |mems[i]|
    ensures DoAll(mems, calls)[i][at..at + n] == LastBytes(mems, calls, i, at, n)
  {
    if n > 0 {
      MemoryIsLastBytes(mems, calls, i, at, n - 1);
      BytesAreLastWritten(mems, calls, i, at + n - 1);
      var mem := DoAll(mems, calls)[i];
      assert mem[at..at + n] == mem[at..at + n - 1] + [mem[at + n - 1]];
    }
  }

  /**
   A read of any width, overlapping earlier writes in any way, is the little-endian value of the
   bytes last written at its addresses.
   */
  lemma ReadsLastWritten(mems: seq<Memory>, calls: seq<Call>, c: Call)
    requires AllInRange(calls, mems) && InRange(c, mems)
    ensures InRange(c, DoAll(mems, calls))
    ensures Answer(DoAll(mems, calls), c) == LastWrittenValue(mems, calls, c)
  {
    InRangeByShape(c, mems, DoAll(mems, calls));
    if c.In? && c.copyIn && c.copyOut {
      MemoryIsLastBytes(mems, calls, c.card, c.register, c.w);
    }
  }

  /** Reading back what was just written, with the same width at the same place. */
  lemma ReadBack(mems: seq<Memory>, out: Call)
    requires InRange(out, mems) && out.Out? && out.copyIn
    ensures var back := In(out.card, out.w, out.register, true, true);
            InRange(back, Do(mems, out)) && Answer(Do(mems, out), back) == out.v
  {
    var at := out.register;
    var after := Do(mems, out)[out.card];
    ValueOfBytes(out.v, out.w);
    assert after[at..at + out.w] == Bytes(out.v, out.w);
  }

  // ---------- running the calls through the library ----------

  /** The answer, or the status, that the library gives for a call. */
  function Expected(mems: seq<Memory>, c: Call): int
    requires InRange(c, mems)
  {
    if c.In? then Answer(mems, c) else if c.copyIn then 0 else -1
  }

  method CallLibrary(lib: Library, c: Call) returns (answer: int)
    requires lib.Valid() && InRange(c, lib.Mems())
    modifies lib.Regions()
    ensures answer == Expected(old(lib.Mems()), c)
    ensures lib.Mems() == Do(old(lib.Mems()), c)
  {
    assert lib.cards[c.card].DefaultMem() in lib.Regions();
    assert Limit(1) == 0x100 && Limit(2) == 0x1_0000 && Limit(4) == 0x1_0000_0000;
    match c {
      case In(card, w, register, copyIn, copyOut) =>
        if w == 1 {
          answer := lib.RelInPortB(card, register, copyIn, copyOut);
        } else if w == 2 {
          answer := lib.RelInPort(card, register, copyIn, copyOut);
        } else {
          answer := lib.RelInPortL(card, register, copyIn, copyOut);
        }
      case Out(card, w, register, v, copyIn) =>
        if w == 1 {
          answer := lib.RelOutPortB(card, register, v, copyIn);
        } else if w == 2 {
          answer := lib.RelOutPort(card, register, v, copyIn);
        } else {
          answer := lib.RelOutPortL(card, register, v, copyIn);
        }
    }
  }

  /** The answers of the first n calls. */
  ghost predicate Answered(start: seq<Memory>, calls: seq<Call>, answers: seq<int>, n: nat)
    requires n <= |calls| && AllInRange(calls, start)
  {
    && |answers| == n
    && forall i :: 0 <= i < n ==> answers[i] == ExpectedNow(start, calls, i)
  }

  /** What call i must answer: a read the value last written before it, a write its status. */
  function ExpectedNow(start: seq<Memory>, calls: seq<Call>, i: nat): int
    requires i < |calls| && AllInRange(calls, start)
  {
    if calls[i].In? then LastWrittenValue(start, calls[..i], calls[i])
    else if calls[i].copyIn then 0 else -1
  }

  method NextCall(lib: Library, calls: seq<Call>, n: nat, ghost start: seq<Memory>)
    returns (answer: int)
    requires lib.Valid() && n < |calls| && AllInRange(calls, start)
    requires lib.Mems() == DoAll(start, calls[..n])
    modifies lib.Regions()
    ensures lib.Mems() == DoAll(start, calls[..n + 1])
    ensures answer == ExpectedNow(start, calls, n)
  {
    assert InRange(calls[n], start);
    ReadsLastWritten(start, calls[..n], calls[n]);
    answer := CallLibrary(lib, calls[n]);
    assert calls[..n + 1][..n] == calls[..n];
  }

  /**
   Any sequence of calls on the real stack: every read answers the value last written at its
   addresses, every write its status, and the cards end up holding the byte maps.
   */
  method RunCalls(lib: Library, calls: seq<Call>) returns (answers: seq<int>)
    requires lib.Valid() && AllInRange(calls, lib.Mems())
    modifies lib.Regions()
    ensures lib.Mems() == DoAll(old(lib.Mems()), calls)
    ensures Answered(old(lib.Mems()), calls, answers, |calls|)
  {
    answers := [];
    ghost var start := lib.Mems();
    for n := 0 to |calls|
      invariant lib.Mems() == DoAll(start, calls[..n])
      invariant Answered(start, calls, answers, n)
    {
      var answer := NextCall(lib, calls, n, start);
      answers := answers + [answer];
    }
    assert calls[..|calls|] == calls;
  }
}
