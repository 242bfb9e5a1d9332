/**
 The two device tables: the id table the PCI core matches devices with, and the descriptor table
 the probe searches.  The module refuses to load unless they agree.
 */
module Tables {
  import opened Options

  const ACCES_PCI_VEN_ID := 0x494f

  datatype PciId = PciId(vendor: nat, device: nat)

  /** The interrupt handlers by the registers they touch; some cards have none. */
  datatype Isr =
    | NoIsr
    | PciStyle1       // looks at the latch of the PCI bridge and no further
    | PciStyle        // PCI styles 2 to 10, 12 and 13
    | PcieStyle       // PCIe styles 1 to 8
    | Adio16fStyle

  /** The BARs a handler uses without looking whether they are mapped. */
  function BarsOf(isr: Isr): (uses: set<nat>)
    ensures 0 in uses <==> isr == PciStyle1 || isr == PciStyle
    ensures 1 in uses <==> isr == PcieStyle
    ensures 2 in uses <==> isr == PciStyle || isr == PcieStyle || isr == Adio16fStyle
    ensures forall i :: i in uses ==> i <= 2
  {
    match isr
    case NoIsr => {}
    case PciStyle1 => {0}
    case PciStyle => {0, 2}
    case PcieStyle => {1, 2}
    case Adio16fStyle => {2}
  }

  datatype Descriptor = Descriptor(pid: nat, name: string, isr: Isr)

  const TERMINATOR := PciId(0, 0)

  /** PCI_DEVICE entries of this vendor with nonzero devices, up to a terminator. */
  ghost predicate TerminatedAt(ids: seq<PciId>, end: nat) {
    && end < |ids| && ids[end] == TERMINATOR
    && forall i :: 0 <= i < end ==> ids[i].vendor == ACCES_PCI_VEN_ID && ids[i].device != 0
  }

  /** No pid is zero. */
  predicate HasPids(descriptors: seq<Descriptor>) {
    forall i :: 0 <= i < |descriptors| ==> descriptors[i].pid != 0
  }

  /** Entry by entry the same devices, and the id table ends where the descriptors do. */
  ghost predicate Agree(descriptors: seq<Descriptor>, ids: seq<PciId>, end: nat)
    requires end <= |ids|
  {
    && |descriptors| == end
    && forall i :: 0 <= i < end ==> descriptors[i].pid == ids[i].device
  }

  /** The checks of accesio_pci_init; no index leaves its table. */
  method TablesMatch(descriptors: seq<Descriptor>, ids: seq<PciId>, ghost end: nat)
    returns (ok: bool)
    requires TerminatedAt(ids, end) && HasPids(descriptors)
    ensures ok <==> Agree(descriptors, ids, end)
  {
    for i := 0 to |descriptors|
      invariant i <= end
      invariant forall j :: 0 <= j < i ==> descriptors[j].pid == ids[j].device
    {
      if descriptors[i].pid != ids[i].device {
        return false;
      }
    }
    if ids[|descriptors|].device != 0 {
      return false;
    }
    ok := true;
  }

  // ---------- the two searches ----------

  /** The PCI core: the first entry before the terminator that matches. */
  function Matched(ids: seq<PciId>, vendor: nat, device: nat): Option<nat> {
    MatchedFrom(ids, vendor, device, 0)
  }

  function MatchedFrom(ids: seq<PciId>, vendor: nat, device: nat, i: nat): Option<nat>
    decreases |ids| - i
  {
    if i >= |ids| || ids[i] == TERMINATOR then None
    else if ids[i] == PciId(vendor, device) then Some(i)
    else MatchedFrom(ids, vendor, device, i + 1)
  }

  ghost predicate FirstPid(descriptors: seq<Descriptor>, device: nat, found: Option<nat>) {
    match found
    case None => forall i :: 0 <= i < |descriptors| ==> descriptors[i].pid != device
    case Some(k) =>
      && k < |descriptors| && descriptors[k].pid == device
      && forall i :: 0 <= i < k ==> descriptors[i].pid != device
  }

  /** The search of the probe. */
  method FindDescriptor(descriptors: seq<Descriptor>, device: nat) returns (found: Option<nat>)
    ensures FirstPid(descriptors, device, found)
  {
    for i := 0 to |descriptors|
      invariant forall j :: 0 <= j < i ==> descriptors[j].pid != device
    {
      if device == descriptors[i].pid {
        return Some(i);
      }
    }
    found := None;
  }

  lemma {:induction false} MatchedIsFirst(ids: seq<PciId>, end: nat, device: nat, i: nat)
    requires TerminatedAt(ids, end) && i <= end
    ensures match MatchedFrom(ids, ACCES_PCI_VEN_ID, device, i)
            case None => forall j :: i <= j < end ==> ids[j].device != device
            case Some(k) => && i <= k < end && ids[k].device == device
                            && forall j :: i <= j < k ==> ids[j].device != device
    decreases end - i
  {
    if i < end {
      MatchedIsFirst(ids, end, device, i + 1);
    }
  }

  /**
   When the checks pass, the probe finds every device the core can match, at the index of the
   match, and finds nothing else: "descriptor not found" cannot happen for a matched id.
   */
  lemma LookupIsTotal(descriptors: seq<Descriptor>, ids: seq<PciId>, end: nat, device: nat,
                      found: Option<nat>)
    requires TerminatedAt(ids, end) && Agree(descriptors, ids, end)
    requires FirstPid(descriptors, device, found)
    ensures found == Matched(ids, ACCES_PCI_VEN_ID, device)
  {
    MatchedIsFirst(ids, end, device, 0);
  }

  ghost predicate DistinctPids(descriptors: seq<Descriptor>) {
    forall i, j :: 0 <= i < j < |descriptors| ==> descriptors[i].pid != descriptors[j].pid
  }

  ghost predicate DistinctIds(ids: seq<PciId>, end: nat)
    requires end <= |ids|
  {
    forall i, j :: 0 <= i < j < end ==> ids[i].device != ids[j].device
  }

  /** The two searches give the same answer for this device. */
  ghost predicate SameAnswer(descriptors: seq<Descriptor>, ids: seq<PciId>, device: nat) {
    FirstPid(descriptors, device, Matched(ids, ACCES_PCI_VEN_ID, device))
  }

  lemma MissingDiffers(descriptors: seq<Descriptor>, ids: seq<PciId>, end: nat)
    requires TerminatedAt(ids, end) && DistinctIds(ids, end) && |descriptors| < end
    ensures !SameAnswer(descriptors, ids, ids[|descriptors|].device)
  {
    MatchedIsFirst(ids, end, ids[|descriptors|].device, 0);
  }

  lemma ExtraDiffers(descriptors: seq<Descriptor>, ids: seq<PciId>, end: nat)
    requires TerminatedAt(ids, end) && DistinctPids(descriptors) && end < |descriptors|
    ensures !SameAnswer(descriptors, ids, descriptors[end].pid)
  {
    MatchedIsFirst(ids, end, descriptors[end].pid, 0);
  }

  /**
   The checks are not only enough but exact: over tables of distinct devices, they pass if and
   only if the two searches agree on every device.
   */
  lemma ChecksAreExact(descriptors: seq<Descriptor>, ids: seq<PciId>, end: nat)
    requires TerminatedAt(ids, end)
    requires DistinctPids(descriptors) && DistinctIds(ids, end)
    ensures Agree(descriptors, ids, end)
       <==> forall device: nat :: SameAnswer(descriptors, ids, device)
  {
    forall device: nat ensures Agree(descriptors, ids, end) ==> SameAnswer(descriptors, ids, device) {
      MatchedIsFirst(ids, end, device, 0);
    }
    if forall device: nat :: SameAnswer(descriptors, ids, device) {
      if |descriptors| < end {
        MissingDiffers(descriptors, ids, end);
      } else if |descriptors| > end {
        ExtraDiffers(descriptors, ids, end);
      } else {
        forall i | 0 <= i < end ensures descriptors[i].pid == ids[i].device {
          MatchedIsFirst(ids, end, ids[i].device, 0);
          assert SameAnswer(descriptors, ids, ids[i].device);
        }
      }
    }
  }
}
