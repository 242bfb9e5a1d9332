# Verified model of the ACCES I/O PCI driver and its user library

This project models the hard parts of the `accesio_pci` kernel driver and of the `aiowdm` library
that talks to it, and proves properties of the model with Dafny 4.11.

- **The interrupt protocol.** User threads block in WAIT until the card interrupts; another thread
  may CANCEL. The shared state is two flags, a spinlock and a wait queue, touched from threads and
  from interrupt handlers, and two reads happen outside the lock. `IrqMachine.dfy` cuts the code
  into single steps (one lock acquisition, flag read, flag store, unlock, interrupt restore,
  enqueue, check, sleep or wake-up) for any number of threads and CPUs, with preemption, signals,
  and interrupts wherever they are not masked; a run is any interleaving. Every decision is kept in
  a history. `IrqHistory.dfy` holds the one-shot machine with indivisible operations that the
  history is judged by, `IrqSteps.dfy` what a step can change, `IrqInvariant.dfy` and
  `IrqCalls.dfy` what every step keeps, `IrqTheorems.dfy` the safety results over every reachable
  state, `IrqProgress.dfy` deadlock freedom and bounded completion, `IrqCounterexamples.dfy` runs
  that show which assumptions the exact outcome needs, `IrqTraces.dfy` what one call leaves behind,
  whatever the others do meanwhile, and `IrqContext.dfy` the driver's context as a class: WAIT,
  CANCEL and the handler are written statement by statement in source order, any number of steps of
  the others come between two statements, and the contracts say what a returned call means in terms
  of the history, and that it did nothing else.
- **The card's life.** `Lifecycle.dfy` runs probe, with all its failure exits, and remove, with
  handlers running at arbitrary moments; `DeviceNumbers.dfy` the minors probe gives out;
  `Tables.dfy` the agreement of the id table and the descriptor table that module load insists on.
- **The register path.** `Registers.dfy` models the library's RelIn and RelOut calls, the request
  with its union, and the driver's accesses to a memory-like BAR held in an array;
  `RegisterRuns.dfy` proves that any sequence of calls behaves as one byte map per card.
- **Discovery and names.** `Names.dfy` has the C string routines, `Discovery.dfy` the library's
  start-up loop and QueryCardInfo over an array of card slots, and `CardFiles.dfy` the step from
  the slots to the cards that the register calls reach.

## What was found

- A signal ends the wait, but the result of `wait_event_interruptible` is dropped: WAIT can return
  0 with nothing completed, and its request stays armed, so the next WAIT gets `-EALREADY`
  (`IrqCounterexamples.SignalBlocksNextWait`). A returned WAIT has left its request armed if and only
  if nothing has completed it (`IrqTheorems.LeftArmedExactly`), and an armed request belongs to a
  thread still in its WAIT or was left behind like that (`IrqTheorems.ArmedBySomebody`). With no
  other arm in between, the result names the
  completion if and only if there was one when `irq_cancelled` was read, which without a signal
  there always is (`IrqTheorems.ExactOutcome`).
- If other threads arm between a completion and the first waiter's read of `irq_cancelled`, the
  outcome can be wrong both ways without any signal: a cancelled WAIT returns 0
  (`IrqCounterexamples.RearmHidesCancel`), and a notified WAIT returns `-ECANCELED`
  (`IrqCounterexamples.RearmFakesCancel`). In every run, the result names the completion of its own
  request if and only if the last store of `irq_cancelled` after that completion, if there was one,
  agrees with it (`IrqTheorems.OutcomeExactly`).
- Arming again can also strand the first waiter: if another thread arms before the first has looked
  at `waiting_for_irq` after its completion, it goes back to sleep on the other's request and nobody
  owes it a wake-up (`IrqCounterexamples.RearmStrandsWaiter`). With no other arm since its own, a
  completed sleeper is owed one (`IrqTheorems.OwnWakeup`). Under a fair scheduler, from any step on,
  a WAIT returns or `waiting_for_irq` is set again (`IrqProgress.ReturnsOrRearmed`).
- Probe registers the handler even when a BAR that the handler uses was not mapped; the handler
  then goes through a null base. The BARs of a card's handler are mapped in every moment of a
  probe's aftermath if and only if each is a port or memory region and its mapping succeeded, or
  the handler was never registered (`Lifecycle.Device.Probe`, with a failing run in
  `Lifecycle.ProbeWithoutBar2`). The same condition on the default BAR decides whether the
  library's register calls reach a mapped region; the default is BAR 1 as soon as any BAR is a port
  region, whether BAR 1 is a region or not. A card whose descriptor has no handler never binds,
  because `request_irq` refuses it (`Lifecycle.Device.Probe`), and a probe that fails after the
  allocation leaves its mappings behind for good (`Lifecycle.Lifetimes`).
- Probe returns the status of `request_irq` even when `device_create` failed, and then does not
  advance the minor. Numbers are distinct if and only if every creation but the last succeeded,
  and a node is unambiguous if and only if its card was the first or the probe before it created
  its node too. Remove destroys a node by its number, so removing a card whose own node could not
  be created takes the next card's node away; it spares all other nodes if and only if its own node
  was created or that next node is gone already (`DeviceNumbers.CharDriver`, with a failing run in
  `DeviceNumbers.FailedCreation`).
- The design notes in Readme.md say WaitForIRQ returns a mask that is non-zero on success
  (Readme.md:5); the code returns 0 on success, and the model follows the code.

## Assumptions

Memory is sequentially consistent. The wait queue's own lock makes prepare, finish and wake-up
single steps. A status bit is cleared by writing one to it and by nothing else, and `&` of two
words is intersection of their sets of one bits. `request_irq` and the initialisation of the lock
and the queue (module/accesio_pci.c:926-928) are one step. `free_irq` waits for running handlers, and
`request_irq` refuses a null handler with `-EINVAL`.
The PCI core calls remove only after a probe that returned 0.

## Model

| member | source | states |
|---|---|---|
| StatusWord.MaskBits | module/accesio_pci.c:551-552 | the mask 0x81FF0000 is exactly bits 16 to 24 and 31 |
| IrqHistory.RequestWindow | module/accesio_pci.c:658-687 | from an arm to any point before the next arm: while armed, no completion, no missed notify, no refused CANCEL; once disarmed, exactly one completion, and the outcome is its kind |
| IrqHistory.DisarmedMeansCompleted | module/accesio_pci.c:658-687 | an arm that is no longer in force was followed by a completion |
| IrqHistory.LegalHistoryAlternates | module/accesio_pci.c:79-89 | every history of the one-shot machine alternates Arm and completion, and its last committed event is the object's state |
| IrqHistory.EventFindsObject | module/accesio_pci.c:652-686 | every event of a legal history stands where the last committed event is, or is not, an Arm as its outcome says |
| IrqHistory.FirstCompletionIsOwn | module/accesio_pci.c:658-687 | the first completion after an arm comes before any other arm |
| IrqHistory.FlagByLastStore | module/accesio_pci.c:659-685 | what is in irq_cancelled is what its last store left, from any point of the history on |
| IrqSteps.ThreadEffects | module/accesio_pci.c:647-691 | what any thread step may change: the lock only by its spinner or holder, flags and history only under the lock, the CPU only by sleeping, other threads never |
| IrqInvariant.LockStep | module/accesio_pci.c:79-89 | every step keeps: exactly the context in a critical section is the lock's holder |
| IrqInvariant.CpuStep | module/accesio_pci.c:652-663 | every step keeps: a thread with interrupts masked runs on a CPU without a handler, and a sleeper has no CPU |
| IrqInvariant.QueueStep | module/accesio_pci.c:663 | every step keeps: a thread marked interruptible is queued, in the wait loop, with no signal pending |
| IrqInvariant.FlagsStep | module/accesio_pci.c:652-687 | every step keeps: the history is legal and both flags are what it left, with the exact value of irq_cancelled inside the two critical sections |
| IrqInvariant.StoresStep | module/accesio_pci.c:659-686 | every step keeps: irq_cancelled is its last store in the history, and every completion found it saying its own kind |
| IrqInvariant.WakeStep | module/accesio_pci.c:663-688 | every step keeps: a sleeper with the flag clear has a waker that still owes its wake-up |
| IrqInvariant.CompletionOwes | module/accesio_pci.c:82-84 | whoever clears waiting_for_irq owes a wake-up from then on |
| IrqCalls.CausalStep | module/accesio_pci.c:657-686 | every step keeps: whoever could see irq_cancelled set has a CANCEL that passed its check after its own arm |
| IrqCalls.ReadResult | module/accesio_pci.c:665-670 | the result read without the lock is right about the history up to that read, and is -ECANCELED exactly when the last store of irq_cancelled was a CANCEL's |
| IrqCalls.ClaimsStep | module/accesio_pci.c:647-691 | every step keeps: each decision in the history belongs to a call of its thread, and calls of one thread are in order |
| IrqCalls.BitsStep | module/accesio_pci.c:552-566 | every step keeps: each raised interrupt bit is latched, in a handler's hands, or followed by a notify attempt |
| IrqCalls.ReachableInv | module/accesio_pci.c:647-691 | the whole invariant holds in every reachable state |
| IrqTheorems.RefinesOneShot | module/accesio_pci.c:79-89 | in every reachable state the history is legal and alternates, waiting_for_irq is 1 exactly when the last committed event is Arm, and with the lock free irq_cancelled is 1 exactly when it is Cancel |
| IrqTheorems.StepRefines | module/accesio_pci.c:647-691 | every step leaves the history alone, or is exactly one operation of the one-shot machine, or a mark that leaves its object alone |
| IrqTheorems.Conservation | module/accesio_pci.c:652-687 | arms equal notifies plus cancels plus waiting_for_irq, in every reachable state |
| IrqTheorems.OneCompletion | module/accesio_pci.c:79-89 | between an Arm and the next there is at most one completion, whoever made it |
| IrqTheorems.MutualExclusion | module/accesio_pci.c:79-89 | at most one thread or handler is in a critical section |
| IrqTheorems.NoLostWakeup | module/accesio_pci.c:663-688 | a thread asleep or committed to sleep while waiting_for_irq is 0 is in the queue and somebody still owes the wake-up |
| IrqTheorems.WakeupReaches | module/accesio_pci.c:84 | a wake-up leaves no such thread asleep, whoever performs it |
| IrqTheorems.OwnWakeup | module/accesio_pci.c:663-688 | a thread committed to sleep whose own request was completed, with no arm since, is in the queue and is owed a wake-up |
| IrqTheorems.ExactOutcome | module/accesio_pci.c:658-670 | with no other arm before it returns, WAIT's result names what completed its request if and only if it was completed by the read, which without a signal it was |
| IrqTheorems.OutcomeExactly | module/accesio_pci.c:658-687 | in every run, re-arming and signals included, WAIT's result names what completed its own request if and only if the last later store of irq_cancelled, if any, agrees with it |
| IrqTheorems.UnsignalledOutcome | module/accesio_pci.c:658-687 | without a signal every returned WAIT has such a completion, and its result names it under exactly that condition |
| IrqTheorems.UnlockedLook | module/accesio_pci.c:663 | for the last armer the unlocked check sees the flag clear exactly when its own request was completed |
| IrqTheorems.UnlockedRead | module/accesio_pci.c:665 | what the unlocked read of irq_cancelled sees in every run, re-arming included, as an if-and-only-if |
| IrqTheorems.Causality | module/accesio_pci.c:657-670 | for any number of waiters, -ECANCELED means a CANCEL passed its check after that waiter's arm, and without a signal any return means a completion after it |
| IrqTheorems.LeavingLoop | module/accesio_pci.c:663-665 | a waiter past its loop without a signal has a completion after its own arm |
| IrqTheorems.ArmedBySomebody | module/accesio_pci.c:653-670 | an armed request belongs to a thread still in its WAIT, or that WAIT returned because of a signal |
| IrqTheorems.LeftArmedExactly | module/accesio_pci.c:663-670 | a returned WAIT has left its request armed exactly when nothing has completed it, and then a signal ended it |
| IrqTheorems.RefusalExact | module/accesio_pci.c:652-684 | WAIT is refused exactly when the last committed event at its own event is Arm, CANCEL exactly when it is not |
| IrqTheorems.CheckIsSettled | module/accesio_pci.c:653-686 | nothing is committed by others between a passed check and the stores it allows |
| IrqTheorems.RefusedChangesNothing | module/accesio_pci.c:652-683 | no step of a refused call changes a flag, the queue or the committed events |
| IrqTheorems.OneCallPerEvent | module/accesio_pci.c:647-691 | no event is the outcome of two calls |
| IrqTheorems.EveryEventHasItsCall | module/accesio_pci.c:647-691 | every arm, cancel and refusal is the outcome of a call, returned or in progress |
| IrqTheorems.NoInterruptForgotten | module/accesio_pci.c:552-566 | every interrupt bit ever raised is latched, held by a handler that has yet to notify, or followed by a notify attempt that saw it |
| IrqTheorems.OnlySeenBitsCleared | module/accesio_pci.c:558-564 | a step clears only interrupt bits that the same handler read before |
| IrqTheorems.ArmedMissesNothing | module/accesio_pci.c:554-571 | while a request is armed, every interrupt bit raised since its arm is latched or held by a handler that has yet to notify |
| IrqTraces.OthersStayOut | module/accesio_pci.c:647-691 | no step of the others moves a call, or adds to the events and results of its context |
| IrqTraces.OwnProgress | module/accesio_pci.c:647-691 | each statement inside a call takes it one action further, and the events it has left are those of its new place |
| IrqTraces.OwnDone | module/accesio_pci.c:654-690 | the statement with which a call leaves the driver hands over one result, and the call's events are those of its code |
| IrqTraces.PathAlong | module/accesio_pci.c:554-691 | whatever the others do meanwhile, a call inside the driver has left exactly the events of its place and no result, and a finished one its one result and the events of its code, in the number of actions its code takes |
| IrqTraces.OnlyEvent | module/accesio_pci.c:79-89 | if a context has added one event to a history, it is the one found there |
| IrqProgress.HolderCanStep | module/accesio_pci.c:79-89 | whoever holds the lock can take its next step: awake, on a CPU, with no handler on top of it |
| IrqProgress.HolderStepShrinks | module/accesio_pci.c:652-661 | each step of the holder frees the lock or lowers its rank |
| IrqProgress.OthersKeepHolder | module/accesio_pci.c:678-687 | no other step touches the lock or the holder's rank |
| IrqProgress.LockHeldBriefly | module/accesio_pci.c:79-89 | over any stretch of a run with the lock held, the holder took at most three steps |
| IrqProgress.WorkShrinks | module/accesio_pci.c:663-688 | with no request armed, every step of the waiter and of each pending waker uses up a token and nobody's step adds one |
| IrqProgress.SomeoneWorks | module/accesio_pci.c:663-688 | while the waiter has not returned, it or a pending waker waits for nothing but a CPU |
| IrqProgress.NoWorkMeansReturned | module/accesio_pci.c:663-670 | with no token left the waiter is out of its WAIT |
| IrqProgress.CompletesWithin | module/accesio_pci.c:663-688 | over any stretch of a run with no request armed, the steps taken plus the tokens left are at most the tokens at its start |
| IrqProgress.LeavesByReading | module/accesio_pci.c:663-670 | a waiter leaves its WAIT only with the read of irq_cancelled and the return |
| IrqProgress.FairWaitReturns | module/accesio_pci.c:663-688 | in every infinite run with a fair scheduler, a WAIT whose request was completed returns, provided nobody arms before it has |
| IrqProgress.ReturnsOrRearmed | module/accesio_pci.c:653-670 | in every infinite run with a fair scheduler, from any step on, a WAIT returns or waiting_for_irq is set again |
| IrqCounterexamples.ArmsAlone | module/accesio_pci.c:647-663 | a WAIT that nobody interferes with reaches its wait armed, as one indivisible arm |
| IrqCounterexamples.RefusedAlone | module/accesio_pci.c:652-656 | a WAIT that nobody interferes with and that finds a request outstanding returns -EALREADY and changes nothing else |
| IrqCounterexamples.CancelsAlone | module/accesio_pci.c:673-691 | a CANCEL that nobody interferes with completes the request, wakes whoever is queued and returns 0, as one indivisible cancel |
| IrqCounterexamples.NotifiesAlone | module/accesio_pci.c:554-571 | an interrupt that nobody interferes with clears the bits it saw, completes the request and wakes whoever is queued, as one indivisible notify |
| IrqCounterexamples.SignalReturnsZero | module/accesio_pci.c:663-670 | a run in which a signal makes WAIT return 0 with no completion and the request still armed |
| IrqCounterexamples.SignalBlocksNextWait | module/accesio_pci.c:652-670 | its continuation, in which the next WAIT is refused |
| IrqCounterexamples.RearmHidesCancel | module/accesio_pci.c:658-670 | a run without signals in which a cancelled WAIT returns 0 because another thread armed again |
| IrqCounterexamples.RearmFakesCancel | module/accesio_pci.c:658-670 | a run without signals in which a notified WAIT returns -ECANCELED because another thread armed again and was cancelled |
| IrqCounterexamples.SleepsAlone | module/accesio_pci.c:663 | a waiter that nobody interferes with and that finds a request outstanding queues itself and sleeps |
| IrqCounterexamples.RearmStrandsWaiter | module/accesio_pci.c:658-670 | a run without signals in which a completed waiter sleeps on, the lock free and no wake-up owed, because another thread armed before it looked |
| IrqContext.AnswerHolds | module/accesio_pci.c:652-690 | whatever call has just returned, its code means what the history before it says |
| IrqContext.DeviceContext.constructor | module/accesio_pci.c:859-928 | a new context is an initial state of the machine |
| IrqContext.DeviceContext.Others | module/accesio_pci.c:647-691 | between two statements anybody else takes steps, no more than the others have in store; the context's own place stays, and it goes on only when it can |
| IrqContext.DeviceContext.WakeUpInterruptible | module/accesio_pci.c:84 | walking the queue wakes exactly the marked threads and unqueues them |
| IrqContext.DeviceContext.WaitEventInterruptible | module/accesio_pci.c:663 | the loop of queueing, looking and sleeping, with the others between any two of its statements, stays on the path of the same call and ends at the read of irq_cancelled |
| IrqContext.DeviceContext.IrqWait | module/accesio_pci.c:647-671 | WAIT in source order: -EALREADY exactly when the last committed event was an arm; otherwise -ECANCELED exactly when irq_cancelled was last set, naming this request's completion unless a later store disagrees; without a signal the request was completed. It leaves exactly the events of its answer and one result; before it returns, a beginning of them and none, and it stops only where it cannot go on, within seven statements when it is not in the wait |
| IrqContext.DeviceContext.IrqWaitCancel | module/accesio_pci.c:673-691 | CANCEL in source order: 0 exactly when the last committed event before its own cancel was an arm, -EALREADY exactly when it was not. It leaves exactly the events of its answer and one result in five or eight actions, nobody is left marked after a cancel, and within seven statements it has returned or cannot go on |
| IrqContext.DeviceContext.WakeAndAnswer | module/accesio_pci.c:688-690 | after the wake-up of a CANCEL no thread is marked to sleep |
| IrqContext.DeviceContext.NotifyUser | module/accesio_pci.c:79-89 | one notify attempt: it completes a request exactly when the last committed event was an arm, then everybody marked to sleep has been woken; in the end the handler is out and without the lock |
| IrqContext.DeviceContext.AcknowledgeIrq | module/accesio_pci.c:564 | the write-back removes from what is latched then exactly the interrupt bits that were read |
| IrqContext.DeviceContext.InterruptAdio16fStyle | module/accesio_pci.c:554-571 | the handler in source order: the word its first statement read from the status register decides, it is IRQ_NONE exactly when that word has no interrupt bit and then leaves no event, otherwise it clears the interrupt bits it read and then makes one notify attempt, its only event, that carries that word; it ends out of the driver and without the lock, after two, six or eight actions |
| Tables.TablesMatch | module/accesio_pci.c:1059-1072 | the load checks pass exactly when the tables agree entry by entry and end together; no index leaves its table |
| Tables.FindDescriptor | module/accesio_pci.c:872-886 | probe's search finds the first descriptor with the device's id, or there is none |
| Tables.LookupIsTotal | module/accesio_pci.c:872-886 | when the tables agree, probe's search gives the index of the PCI core's match for every device |
| Tables.ChecksAreExact | module/accesio_pci.c:1059-1072 | over tables of distinct devices, the tables agree if and only if the two searches give the same answer for every device |
| DeviceNumbers.CharDriver.AddDevice | module/accesio_pci.c:942-960 | a probe takes the current minor and advances it only if its node was created |
| DeviceNumbers.CharDriver.DeviceDestroy | module/accesio_pci.c:1008 | the node with this number, whoever's it is, is taken away and no other |
| DeviceNumbers.CharDriver.RemoveDevice | module/accesio_pci.c:1008-1011 | remove takes away whatever node has the card's number and gives no minor back |
| DeviceNumbers.CharDriver.NodesHaveOwnNumbers | module/accesio_pci.c:942-960 | no two nodes have the same number |
| DeviceNumbers.CharDriver.RemovalSparesExactly | module/accesio_pci.c:942-1008 | a removal leaves every other node in place exactly when the card's own node was created or the next node created after it is gone |
| DeviceNumbers.CharDriver.Open | module/accesio_pci.c:798-806 | opening a number yields a context that has it, or none has |
| DeviceNumbers.CharDriver.SameNumberExactly | module/accesio_pci.c:942-960 | two contexts share a number exactly when no node was created from the first probe up to the second |
| DeviceNumbers.CharDriver.NumbersDistinctExactly | module/accesio_pci.c:942-960 | all numbers ever given are distinct exactly when every creation but the last succeeded |
| DeviceNumbers.CharDriver.NodeUnambiguousExactly | module/accesio_pci.c:942-960 | a node's number belongs to one context exactly when its card was first or the probe before created its node |
| DeviceNumbers.OpenNode | module/accesio_pci.c:798-806 | opening such a node yields its own card's context |
| DeviceNumbers.FailedCreation | module/accesio_pci.c:942-1008 | a run in which two cards share a number and removing the first takes the second one's node away |
| Lifecycle.Device.MapBars | module/accesio_pci.c:888-907 | each BAR is mapped exactly when it is a region and its mapping succeeded, each by its own cookie, and the default BAR follows the port regions |
| Lifecycle.Device.Prepare | module/accesio_pci.c:843-922 | the first failing step gives the status, nothing can interrupt meanwhile, the default BAR is 2 for the ids that override it, else 1 if any BAR is a port region, else 0, and what earlier contexts left mapped stays |
| Lifecycle.Device.Probe | module/accesio_pci.c:835-970 | in every moment of every probe, also after failed ones, a running handler has a live context with all its BARs mapped; the BARs its isr uses are sure exactly when all were mapped or no handler is registered, and likewise the default BAR; without an isr nothing binds |
| Lifecycle.ProbeWithoutBar2 | module/accesio_pci.c:888-970 | a probe that returns 0 with the handler registered and neither its status BAR nor the default BAR mapped |
| Lifecycle.OverrideBeatsPorts | module/accesio_pci.c:900-922 | a run in which a card that overrides the default BAR keeps BAR 2 though BAR 1 is a port region |
| Lifecycle.Device.Remove | module/accesio_pci.c:992-1011 | with handlers running until they are freed, every moment is safe and exactly the BARs that probe mapped are unmapped, in order; of the nodes only the one with the card's number goes |
| Lifecycle.Lifetime | module/accesio_pci.c:835-1014 | probe then remove: every moment is safe, and the unmappings are the mappings, each once; a failed probe leaves exactly its own mappings |
| Lifecycle.LedgerMaps | module/accesio_pci.c:888-907 | a probe keeps the ledger: every mapping ever made is still there or was taken away once |
| Lifecycle.LedgerUnmaps | module/accesio_pci.c:996-1002 | a remove keeps the ledger |
| Lifecycle.Lifetimes | module/accesio_pci.c:835-1014 | over any sequence of probes of one device, each removed if it succeeded, every moment is safe, the ledger holds, and nothing new stays mapped unless a probe failed after allocating |
| Registers.ValueOfBytes | include/accesio_pci_ioctl.h:24-35 | packing a value into the union and reading the same member back gives the value |
| Registers.BytesOfValue | include/accesio_pci_ioctl.h:24-35 | reading a union member and packing it again gives the bytes |
| Registers.ValueOfQuad | include/accesio_pci_ioctl.h:29-34 | the value of four bytes, lowest first |
| Registers.BytesOfQuad | include/accesio_pci_ioctl.h:29-34 | the four bytes of a value, lowest first |
| Registers.AsInt | aiowdm/aiowdm.cpp:112 | a register stored in the int offset is the same number, or wraps to a negative one |
| Registers.Bar.Ioread16 | module/accesio_pci.c:722 | a 16 bit access reads the little-endian value of its two bytes |
| Registers.Bar.Ioread32 | module/accesio_pci.c:726 | a 32 bit access reads the little-endian value of its four bytes |
| Registers.Bar.Iowrite16 | module/accesio_pci.c:749 | a 16 bit access writes exactly its two bytes |
| Registers.Bar.Iowrite32 | module/accesio_pci.c:752 | a 32 bit access writes exactly its four bytes |
| Registers.Card.RegisterIo | module/accesio_pci.c:693-759 | the driver unpacks by size and changes exactly the bytes written or the union read; other sizes and failed copies change nothing, and a failed copy is -EIO |
| Registers.Library.RelIn | aiowdm/aiowdm.cpp:105-159 | a read returns the value of the bytes from the register on, or 0 when a copy failed, and changes no card |
| Registers.Library.RelInPortB | aiowdm/aiowdm.cpp:105-122 | the 8 bit read through library and driver |
| Registers.Library.RelInPort | aiowdm/aiowdm.cpp:123-140 | the 16 bit read through library and driver |
| Registers.Library.RelInPortL | aiowdm/aiowdm.cpp:142-159 | the 32 bit read through library and driver |
| Linux.SystemCall | aiowdm/aiowdm.cpp:170-172 | ioctl() fails exactly when the driver's status is negative, and is 0 exactly when it is 0 |
| Registers.Library.RelOut | aiowdm/aiowdm.cpp:161-200 | a write changes exactly the bytes from the register on, of exactly its card; its status is 0, or -1 when a copy failed |
| Registers.Library.RelOutPortB | aiowdm/aiowdm.cpp:161-173 | the 8 bit write through library and driver |
| Registers.Library.RelOutPort | aiowdm/aiowdm.cpp:175-187 | the 16 bit write through library and driver |
| Registers.Library.RelOutPortL | aiowdm/aiowdm.cpp:188-200 | the 32 bit write through library and driver |
| RegisterRuns.BytesAreLastWritten | module/accesio_pci.c:743-754 | after any calls on any cards, every byte is the one last written there, by whatever width, at the register passed |
| RegisterRuns.ReadsLastWritten | module/accesio_pci.c:713-740 | a read of any width and overlap is the little-endian value of the bytes last written at its addresses |
| RegisterRuns.ReadBack | aiowdm/aiowdm.cpp:105-200 | reading back what was just written, at the same width, gives it back |
| RegisterRuns.RunCalls | aiowdm/aiowdm.cpp:105-200 | any sequence of calls on the real stack answers the last written values and leaves the byte maps |
| Names.Strcpy | module/accesio_pci.c:616 | the string and its NUL, the rest of the buffer untouched |
| Names.Strncpy | aiowdm/aiowdm.cpp:101 | the first n characters, padded with NULs, the rest of the buffer untouched |
| Names.NameSurvives | aiowdm/aiowdm.cpp:94-103 | a spelled name copied with more room than its length decodes to itself, with less it is exactly the name's first n characters |
| Names.Strstr | aiowdm/aiowdm.cpp:66 | true exactly when the part occurs |
| Discovery.CardDescriptorGet | module/accesio_pci.c:605-629 | a copied-out descriptor describes the card, name included, with the device id cut to 16 bits |
| Discovery.FewEntriesFit | aiowdm/aiowdm.cpp:42-85 | with at most 32 matching entries every one finds a free slot |
| Discovery.FilterOneMore | aiowdm/aiowdm.cpp:64-83 | the filter keeps, in order, the entries with "pci" in their name that opened and answered |
| Discovery.Library.TryEntry | aiowdm/aiowdm.cpp:66-83 | one entry is kept exactly when it matches, opens and answers; a failed one leaves the kept cards alone |
| Discovery.Library.AiowdmInit | aiowdm/aiowdm.cpp:48-87 | the cards kept are exactly, in order, the entries that match, open and answer, each with its own descriptor |
| Discovery.Library.CopyName | aiowdm/aiowdm.cpp:101 | the caller's buffer spells the card's table name, or holds its beginning when too short |
| Discovery.Library.QueryCardInfo | aiowdm/aiowdm.cpp:94-103 | every combination of null and given out-parameters: status, id, base, size and name, and what stays unchanged |
| CardFiles.Connect | aiowdm/aiowdm.cpp:36-43 | a card number means the same card to QueryCardInfo and to the register calls, and different cards exactly when the opens gave different files |

## Left out

- The per-style enable, disable and interrupt functions (module/accesio_pci.c:109-537): single register accesses that never notify, so they add only easy members.
- The stubs: IRQ_ENABLE and IRQ_DISABLE, mmap, release, suspend, resume, shutdown, COSWaitForIRQ, and the DMA context.
- The ioctl dispatch and WaitForIRQ and AbortRequest of the library: they only pass on the protocol's results, through the same system call boundary as the register calls.
- Kernel internals: the scheduler, the PCI core, cdev and class creation, iomap and the user copies are represented by what they answer.
- Weak memory ordering, the window between request_irq and the initialisation of the lock, and removing a card while a thread waits on it.
- A user program that writes the status register through the register path, and device side effects of registers that are not memory-like.
- Registers.Card.RegisterIo: a failed copy is modelled as moving nothing, because how much a partial copy moved is not settled by the source.
- Registers.Library.RelIn: the three reads differ only in the size and the union member, so their common part is one method; the card number and the offset are taken as in range, because the source does not check them. The same holds for RelOut.
- DeviceNumbers.CharDriver.AddDevice: the 20 bit field of the minor in a dev_t and the 32 numbers reserved at load are not modelled, so numbers are pairs.
- IrqContext.DeviceContext.IrqWait: the methods follow a call for as long as a given number of statements lasts; a call that is cut off there has no answer, and that calls return at all is what IrqProgress proves. What the others do is taken from a finite script. The same holds for CANCEL and the handler.
- Linux.SystemCall: errno is not modelled, only the returned -1.
- Lifecycle.Device.Probe: its failure exits leave regions, mappings and the context in place; the model keeps that and claims only the handler and mapping facts.
- Discovery.Library.AiowdmInit: needs a free slot when each matching entry's turn comes, because the source does not check the slot number; memory allocation always succeeds.
- Discovery.Library.QueryCardInfo: the out-parameters are distinct and the name buffer is not the library's own.
- The contents of the device tables, debug printing, the test programs, the build files and module_old.
