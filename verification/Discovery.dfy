/**
 The user library's start: it opens every card node of the directory, asks the driver for the
 card's descriptor, and keeps those that answered.  QueryCardInfo then reads what was kept.
 */
module Discovery {
  import opened Linux
  import opened Names

  const MAX_CARDS := 32
  const NAME_SIZE := 64

  /** What the driver knows about one card. */
  datatype CardInfo = CardInfo(pid: nat, portBase: nat, portSize: nat, name: string,
                               bars: seq<nat>)

  predicate GoodInfo(info: CardInfo) {
    NoNul(info.name) && |info.name| < NAME_SIZE && |info.bars| == PCI_STD_NUM_BARS
  }

  /** struct accesio_pci_card_descriptor. */
  class CardDescriptor {
    var deviceId: nat
    var portBase: nat
    var portSize: nat
    var nameSize: nat
    const name: array<char>
    var bars: seq<nat>

    /** malloc or the stack: the fields hold anything. */
    constructor (garbage: string)
      requires |garbage| == NAME_SIZE
      ensures name.Length == NAME_SIZE && fresh(name) && name[..] == garbage
    {
      name := new char[NAME_SIZE](i requires 0 <= i < NAME_SIZE => garbage[i]);
      new;
      assert name[..] == garbage;
    }

    /** The descriptor describes the card; its 16-bit device id keeps the low half of the pid. */
    ghost predicate Describes(info: CardInfo)
      reads this, name
    {
      && deviceId == info.pid % 0x1_0000
      && portBase == info.portBase && portSize == info.portSize
      && nameSize == |info.name| && bars == info.bars
      && name.Length == NAME_SIZE && Spells(name[..], info.name)
    }

    method CopyFrom(other: CardDescriptor)
      requires name.Length == other.name.Length && name != other.name
      modifies this, name
      ensures deviceId == other.deviceId && portBase == other.portBase
      ensures portSize == other.portSize && nameSize == other.nameSize && bars == other.bars
      ensures name[..] == other.name[..]
    {
      deviceId, portBase, portSize := other.deviceId, other.portBase, other.portSize;
      nameSize, bars := other.nameSize, other.bars;
      forall i | 0 <= i < name.Length {
        name[i] := other.name[i];
      }
    }
  }

  /** ioctl_ACCESIO_PCI_CARD_DESCRIPTOR_GET; copyOut says whether copy_to_user moved every byte. */
  method CardDescriptorGet(info: CardInfo, arg: CardDescriptor, stack: string, copyOut: bool)
    returns (status: int)
    requires GoodInfo(info) && |stack| == NAME_SIZE && arg.name.Length == NAME_SIZE
    modifies arg, arg.name
    ensures status == if copyOut then 0 else -EIO
    ensures copyOut ==> arg.Describes(info)
  {
    var descriptor: CardDescriptor := new CardDescriptor(stack);
    descriptor.deviceId := info.pid % 0x1_0000;
    descriptor.portBase := info.portBase;
    descriptor.portSize := info.portSize;
    descriptor.nameSize := |info.name|;
    Strcpy(descriptor.name, info.name);
    descriptor.bars := [];
    for i := 0 to PCI_STD_NUM_BARS
      invariant descriptor.bars == info.bars[..i]
      modifies descriptor`bars
    {
      descriptor.bars := descriptor.bars + [info.bars[i]];
    }
    if !copyOut {
      return -EIO;
    }
    arg.CopyFrom(descriptor);
    status := 0;
  }

  // ---------- the directory ----------

  /** A directory entry, what opening it gives, and how the card behind it answers. */
  datatype Entry = Entry(name: string, fd: int, info: CardInfo, copyOut: bool)

  ghost predicate Matches(e: Entry) {
    Contains(e.name, "pci")
  }

  /** The node dirOpen and the card gave its descriptor. */
  ghost predicate Accepted(e: Entry) {
    Matches(e) && e.fd >= 0 && e.copyOut
  }

  ghost function Filter(entries: seq<Entry>): seq<Entry> {
    if entries == [] then []
    else
      Filter(entries[..|entries| - 1])
      + if Accepted(entries[|entries| - 1]) then [entries[|entries| - 1]] else []
  }

  /** The filter goes through the entries in order and keeps those that match, open and answer. */
  lemma FilterOneMore(entries: seq<Entry>, e: Entry)
    ensures Filter([]) == []
    ensures Filter(entries + [e])
         == Filter(entries)
            + if Contains(e.name, "pci") && e.fd >= 0 && e.copyOut then [e] else []
  {
    assert (entries + [e])[..|entries|] == entries;
  }

  /** Every matching entry finds a free slot when its turn comes. */
  ghost predicate Room(entries: seq<Entry>, used: nat) {
    forall i :: 0 <= i < |entries| && Matches(entries[i]) ==>
      used + |Filter(entries[..i])| < MAX_CARDS
  }

  ghost function MatchCount(entries: seq<Entry>): nat {
    if entries == [] then 0
    else
      MatchCount(entries[..|entries| - 1])
      + if Matches(entries[|entries| - 1]) then 1 else 0
  }

  lemma {:induction false} FilterIsSmaller(entries: seq<Entry>, i: nat)
    requires i <= |entries|
    ensures |Filter(entries[..i])| <= MatchCount(entries[..i]) <= MatchCount(entries)
    ensures i < |entries| && Matches(entries[i]) ==> MatchCount(entries[..i]) < MatchCount(entries)
    decreases |entries|, i
  {
    if i > 0 {
      FilterIsSmaller(entries, i - 1);
      assert entries[..i][..i - 1] == entries[..i - 1];
    }
    if i < |entries| {
      var front := entries[..|entries| - 1];
      FilterIsSmaller(front, i);
      assert front[..i] == entries[..i];
      if i == |front| {
        assert front[..i] == front;
      }
    } else {
      assert entries[..i] == entries;
    }
  }

  /** A directory with at most 32 matching entries always has room. */
  lemma FewEntriesFit(entries: seq<Entry>)
    requires MatchCount(entries) <= MAX_CARDS
    ensures Room(entries, 0)
  {
    forall i | 0 <= i < |entries| && Matches(entries[i])
      ensures 0 + |Filter(entries[..i])| < MAX_CARDS
    {
      FilterIsSmaller(entries, i);
    }
  }

  /** An out-parameter. */
  class Ref {
    var value: nat

    constructor (value: nat)
      ensures this.value == value
    {
      this.value := value;
    }
  }

  /** struct card. */
  datatype Slot = Slot(fd: int, descriptor: CardDescriptor?)

  /** The library's globals. */
  class Library {
    const cards: array<Slot>
    var numCards: nat
    var initComplete: bool
    ghost var kept: seq<Entry>        // the entries behind the cards kept so far

    constructor ()
      ensures Valid() && numCards == 0 && kept == [] && !initComplete && fresh(cards)
    {
      cards := new Slot[MAX_CARDS](_ => Slot(0, null));
      numCards, initComplete, kept := 0, false, [];
    }

    /** Each slot in use holds the descriptor of the entry kept there, and nobody else's. */
    ghost predicate Valid()
      reads this, cards, Descriptors(), NameBuffers()
    {
      && cards.Length == MAX_CARDS && |kept| == numCards <= MAX_CARDS
      && (forall k :: 0 <= k < numCards ==>
            && cards[k].fd == kept[k].fd
            && cards[k].descriptor != null
            && cards[k].descriptor.Describes(kept[k].info))
    }

    ghost function Descriptors(): set<object>
      reads this, cards
    {
      set k | 0 <= k < numCards && k < cards.Length && cards[k].descriptor != null
        :: cards[k].descriptor
    }

    ghost function NameBuffers(): set<object>
      reads this, cards
    {
      set k | 0 <= k < numCards && k < cards.Length && cards[k].descriptor != null
        :: cards[k].descriptor.name
    }

    /**
     One turn of the loop in AiowdmInit.  A card that does not open or does not answer leaves its
     partial data in the slot, which the next one uses again.
     */
    method TryEntry(entry: Entry, heap: string, stack: string)
      requires Valid() && (Matches(entry) ==> numCards < MAX_CARDS)
      requires GoodInfo(entry.info) && |heap| == NAME_SIZE && |stack| == NAME_SIZE
      modifies this`numCards, this`kept, cards
      ensures Valid()
      ensures kept == old(kept)
                + if Contains(entry.name, "pci") && entry.fd >= 0 && entry.copyOut then [entry] else []
      ensures forall k :: 0 <= k < old(numCards) ==> cards[k] == old(cards[k])
    {
      var isCard := Strstr(entry.name, "pci");
      if !isCard {
        return;
      }
      cards[numCards] := Slot(entry.fd, cards[numCards].descriptor);
      if entry.fd < 0 {
        return;
      }
      var descriptor: CardDescriptor := new CardDescriptor(heap);
      cards[numCards] := Slot(cards[numCards].fd, descriptor);
      var status := CardDescriptorGet(entry.info, descriptor, stack, entry.copyOut);
      if SystemCall(status) != 0 {
        return;
      }
      kept := kept + [entry];
      numCards := numCards + 1;
    }

    /**
     AiowdmInit over the entries that readdir gives, if opendir succeeded.  heap and stack are
     what the memory for descriptors held before.
     */
    method AiowdmInit(dirOpen: bool, entries: seq<Entry>, heap: string, stack: string)
      requires Valid() && Room(entries, numCards)
      requires forall i :: 0 <= i < |entries| ==> GoodInfo(entries[i].info)
      requires |heap| == NAME_SIZE && |stack| == NAME_SIZE
      modifies this`numCards, this`kept, this`initComplete, cards
      ensures Valid() && initComplete == (old(initComplete) || dirOpen)
      ensures kept == old(kept) + if dirOpen then Filter(entries) else []
      ensures forall k :: 0 <= k < old(numCards) ==> cards[k] == old(cards[k])
    {
      if !dirOpen {
        return;
      }
      for n := 0 to |entries|
        invariant Valid() && kept == old(kept) + Filter(entries[..n])
        invariant forall k :: 0 <= k < old(numCards) ==> cards[k] == old(cards[k])
      {
        assert entries[..n + 1][..n] == entries[..n];
        TryEntry(entries[n], heap, stack);
      }
      assert entries[..|entries|] == entries;
      initComplete := true;
    }

    /** The name's part of QueryCardInfo: strncpy out of the kept descriptor. */
    method CopyName(k: nat, pName: array<char>, n: nat)
      requires Valid() && k < numCards && n <= pName.Length
      requires forall i :: 0 <= i < numCards ==> cards[i].descriptor.name != pName
      modifies pName
      ensures Valid()
      ensures pName[n..] == old(pName[..])[n..]
      ensures GivesName(pName[..n], kept[k].info.name)
    {
      var descriptor := cards[k].descriptor;
      SpelledName(descriptor.name[..], kept[k].info.name);
      NameSurvives(descriptor.name[..], kept[k].info.name, n);
      Strncpy(pName, descriptor.name, n);
      assert pName[..n] == Padded(descriptor.name[..], n);
    }

    /**
     QueryCardInfo.  Null out-parameters are skipped; a name without a size is refused, after the
     first two were written; a size of zero asks for the length of the name.
     */
    method QueryCardInfo(cardNum: nat, pDeviceID: Ref?, pBase: Ref?, pNameSize: Ref?,
                         pName: array?<char>) returns (status: nat)
      requires Valid()
      requires pDeviceID != null ==> pDeviceID != pBase && pDeviceID != pNameSize
      requires pBase != null ==> pBase != pNameSize
      requires pName != null ==>
                 forall k :: 0 <= k < numCards ==> cards[k].descriptor.name != pName
      requires pName != null && pNameSize != null && cardNum < numCards ==>
                 NameRoom(kept[cardNum].info, pNameSize.value) <= pName.Length
      modifies if pDeviceID != null then {pDeviceID} else {}
      modifies if pBase != null then {pBase} else {}
      modifies if pNameSize != null then {pNameSize} else {}
      modifies if pName != null then {pName} else {}
      ensures Valid()
      ensures status ==
              if cardNum >= numCards || (pNameSize == null && pName != null)
              then 0x1_0000_0000 - EINVAL else 0
      ensures pDeviceID != null ==>
                pDeviceID.value == if cardNum < numCards then kept[cardNum].info.pid % 0x1_0000
                                   else old(pDeviceID.value)
      ensures pBase != null ==>
                pBase.value == if cardNum < numCards then kept[cardNum].info.portBase
                               else old(pBase.value)
      ensures pNameSize != null ==>
                pNameSize.value == if cardNum < numCards && old(pNameSize.value) == 0
                                   then |kept[cardNum].info.name| else old(pNameSize.value)
      ensures pName != null && (cardNum >= numCards || pNameSize == null) ==>
                pName[..] == old(pName[..])
      ensures pName != null && cardNum < numCards && pNameSize != null ==>
                && pNameSize.value <= pName.Length
                && pName[pNameSize.value..] == old(pName[..])[pNameSize.value..]
                && GivesName(pName[..pNameSize.value], kept[cardNum].info.name)
    {
      if cardNum >= numCards {
        return 0x1_0000_0000 - EINVAL;
      }
      var descriptor := cards[cardNum].descriptor;
      if pDeviceID != null {
        pDeviceID.value := descriptor.deviceId;
      }
      if pBase != null {
        pBase.value := descriptor.portBase;
      }
      if pNameSize == null && pName != null {
        return 0x1_0000_0000 - EINVAL;
      }
      if pNameSize != null && pNameSize.value == 0 {
        pNameSize.value := descriptor.nameSize;
      }
      if pName != null {
        CopyName(cardNum, pName, pNameSize.value);
      }
      status := 0;
    }
  }

  /**
   The buffer is the name's beginning, padded with NULs; with room to spare it spells the name.
   */
  predicate GivesName(buffer: string, name: string) {
    && (forall i :: 0 <= i < |buffer| ==> buffer[i] == if i < |name| then name[i] else NUL)
    && (|buffer| > |name| ==> Decode(buffer) == name)
  }

  /** How many characters QueryCardInfo writes for a given size: zero asks for the name's length. */
  function NameRoom(info: CardInfo, size: nat): nat {
    if size == 0 then |info.name| else size
  }
}
