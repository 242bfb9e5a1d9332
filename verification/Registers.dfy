/**
 The register path: RelIn and RelOut of the user library pack a request, the driver unpacks it by
 its size and performs one 8, 16 or 32 bit access to the card's default BAR, a memory-like region.
 */
module Registers {
  import opened Linux

  type Byte = x: int | 0 <= x < 0x100
  type Uint16 = x: int | 0 <= x < 0x1_0000
  type Uint32 = x: int | 0 <= x < 0x1_0000_0000

  // ---------- bytes and values ----------

  /** The little-endian value of some bytes. */
  function Value(bytes: seq<Byte>): nat {
    if bytes == [] then 0 else bytes[0] + 0x100 * Value(bytes[1..])
  }

  /** The low n bytes of a value, lowest first. */
  function Bytes(v: nat, n: nat): (bytes: seq<Byte>)
    ensures |bytes| == n
  {
    if n == 0 then [] else [v % 0x100] + Bytes(v / 0x100, n - 1)
  }

  function Limit(n: nat): (limit: nat)
    ensures limit > 0
  {
    if n == 0 then 1 else 0x100 * Limit(n - 1)
  }

  lemma {:induction false} ValueOfBytes(v: nat, n: nat)
    requires v < Limit(n)
    ensures Value(Bytes(v, n)) == v
  {
    if n > 0 {
      ValueOfBytes(v / 0x100, n - 1);
      assert Bytes(v, n)[1..] == Bytes(v / 0x100, n - 1);
    }
  }

  lemma {:induction false} BytesOfValue(bytes: seq<Byte>)
    ensures Value(bytes) < Limit(|bytes|)
    ensures Bytes(Value(bytes), |bytes|) == bytes
  {
    if bytes != [] {
      BytesOfValue(bytes[1..]);
      assert Value(bytes) / 0x100 == Value(bytes[1..]);
      assert bytes == [bytes[0]] + bytes[1..];
    }
  }

  // ---------- the reference: one byte map per card ----------

  type Memory = seq<Byte>

  predicate IsWidth(w: int) {
    w == 1 || w == 2 || w == 4
  }

  predicate Fits(mem: Memory, offset: int, w: int) {
    IsWidth(w) && 0 <= offset <= offset + w <= |mem|
  }

  function ReadAt(mem: Memory, offset: int, w: int): nat
    requires Fits(mem, offset, w)
  {
    Value(mem[offset..offset + w])
  }

  function WriteAt(mem: Memory, offset: int, w: int, v: nat): (after: Memory)
    requires Fits(mem, offset, w)
    ensures |after| == |mem|
  {
    mem[..offset] + Bytes(v, w) + mem[offset + w..]
  }

  // ---------- the card ----------

  /** A mapped BAR that behaves as memory. */
  class Bar {
    const mem: array<Byte>

    constructor (size: nat)
      ensures fresh(mem) && mem.Length == size
    {
      mem := new Byte[size](_ => 0);
    }

    method Ioread8(offset: int) returns (v: Byte)
      requires Fits(mem[..], offset, 1)
      ensures v == ReadAt(mem[..], offset, 1)
    {
      v := mem[offset];
      assert mem[..][offset..offset + 1] == [mem[offset]];
      assert Value([mem[offset]]) == v;
    }

    method Ioread16(offset: int) returns (v: Uint16)
      requires Fits(mem[..], offset, 2)
      ensures v == ReadAt(mem[..], offset, 2)
      ensures v as int == mem[offset] as int + 0x100 * mem[offset + 1] as int
    {
      var lo: int, hi: int := mem[offset], mem[offset + 1];
      v := lo + 0x100 * hi;
      ValueOfPair(mem[offset], mem[offset + 1]);
      assert mem[..][offset..offset + 2] == [mem[offset], mem[offset + 1]];
    }

    method Ioread32(offset: int) returns (v: Uint32)
      requires Fits(mem[..], offset, 4)
      ensures v == ReadAt(mem[..], offset, 4)
      ensures v as int == mem[offset] as int + 0x100 * mem[offset + 1] as int
                          + 0x1_0000 * mem[offset + 2] as int + 0x100_0000 * mem[offset + 3] as int
    {
      var a: int, b: int, c: int, d: int :=
        mem[offset], mem[offset + 1], mem[offset + 2], mem[offset + 3];
      v := a + 0x100 * b + 0x1_0000 * c + 0x100_0000 * d;
      ValueOfQuad(mem[offset], mem[offset + 1], mem[offset + 2], mem[offset + 3]);
      assert mem[..][offset..offset + 4]
          == [mem[offset], mem[offset + 1], mem[offset + 2], mem[offset + 3]];
    }

    method Iowrite8(v: Byte, offset: int)
      requires Fits(mem[..], offset, 1)
      modifies mem
      ensures mem[..] == WriteAt(old(mem[..]), offset, 1, v)
    {
      mem[offset] := v;
      assert Bytes(v, 1) == [v];
    }

    method Iowrite16(v: Uint16, offset: int)
      requires Fits(mem[..], offset, 2)
      modifies mem
      ensures mem[..] == WriteAt(old(mem[..]), offset, 2, v)
      ensures mem[offset] == v % 0x100 && mem[offset + 1] == v / 0x100
      ensures forall k :: 0 <= k < mem.Length && !(offset <= k < offset + 2) ==>
                mem[k] == old(mem[k])
    {
      mem[offset] := v % 0x100;
      mem[offset + 1] := v / 0x100;
      BytesOfPair(v);
    }

    method Iowrite32(v: Uint32, offset: int)
      requires Fits(mem[..], offset, 4)
      modifies mem
      ensures mem[..] == WriteAt(old(mem[..]), offset, 4, v)
      ensures mem[offset] == v % 0x100 && mem[offset + 1] == v / 0x100 % 0x100
      ensures mem[offset + 2] == v / 0x1_0000 % 0x100 && mem[offset + 3] == v / 0x100_0000
      ensures forall k :: 0 <= k < mem.Length && !(offset <= k < offset + 4) ==>
                mem[k] == old(mem[k])
    {
      mem[offset] := v % 0x100;
      mem[offset + 1] := v / 0x100 % 0x100;
      mem[offset + 2] := v / 0x1_0000 % 0x100;
      mem[offset + 3] := v / 0x100_0000;
      BytesOfQuad(v);
    }
  }

  lemma ValueOfPair(a: Byte, b: Byte)
    ensures Value([a, b]) == a + 0x100 * b
  {
    assert [a, b][1..] == [b];
    assert Value([b]) == b + 0x100 * Value([b][1..]);
  }

  lemma ValueOfQuad(a: Byte, b: Byte, c: Byte, d: Byte)
    ensures Value([a, b, c, d]) == a + 0x100 * b + 0x1_0000 * c + 0x100_0000 * d
  {
    assert [a, b, c, d][1..] == [b, c, d];
    assert [b, c, d][1..] == [c, d];
    ValueOfPair(c, d);
  }

  lemma BytesOfPair(v: Uint16)
    ensures Bytes(v, 2) == [v % 0x100, v / 0x100]
  {
    assert Bytes(v / 0x100, 1) == [v / 0x100];
  }

  lemma BytesOfQuad(v: Uint32)
    ensures Bytes(v, 4)
         == [v % 0x100, v / 0x100 % 0x100, v / 0x1_0000 % 0x100, v / 0x100_0000]
  {
    assert v / 0x100 / 0x100 == v / 0x1_0000;
    BytesOfPair(v / 0x1_0000);
    assert v / 0x1_0000 / 0x100 == v / 0x100_0000;
    assert Bytes(v / 0x100, 3) == [v / 0x100 % 0x100] + Bytes(v / 0x1_0000, 2);
  }

  // ---------- the request ----------

  /**
   struct accesio_pci_register_io_context.  data is the union: byte, word and dword are views of
   the same four bytes on a little-endian host.
   */
  class IoContext {
    var read: bool
    var offset: int
    var size: int
    var data: seq<Byte>

    /** struct accesio_pci_register_io_context context = {0}. */
    constructor ()
      ensures !read && offset == 0 && size == 0 && data == [0, 0, 0, 0]
    {
      read, offset, size, data := false, 0, 0, [0, 0, 0, 0];
    }

    function View(n: nat): nat
      requires n <= |data|
      reads this`data
    {
      Value(data[..n])
    }

    /** Store to the union member of n bytes; the other bytes keep their values. */
    method SetMember(v: nat, n: nat)
      requires n <= |data|
      modifies this`data
      ensures data == Bytes(v, n) + old(data)[n..]
    {
      data := Bytes(v, n) + data[n..];
    }

    method CopyFrom(other: IoContext)
      modifies this
      ensures read == other.read && offset == other.offset && size == other.size
      ensures data == other.data
    {
      read, offset, size, data := other.read, other.offset, other.size, other.data;
    }
  }

  /** The driver's context of one card: its mapped BARs and the one the library's calls use. */
  class Card {
    const bars: seq<Bar?>
    const defaultBar: nat

    constructor (bars: seq<Bar?>, defaultBar: nat)
      ensures this.bars == bars && this.defaultBar == defaultBar
    {
      this.bars, this.defaultBar := bars, defaultBar;
    }

    predicate Ready() {
      defaultBar < |bars| && bars[defaultBar] != null
    }

    function DefaultMem(): array<Byte>
      requires Ready()
    {
      bars[defaultBar].mem
    }

    /**
     ioctl_ACCESIO_PCI_REGISTER_IO.  copyIn and copyOut say whether copy_from_user and
     copy_to_user moved every byte.
     */
    method RegisterIo(arg: IoContext, copyIn: bool, copyOut: bool) returns (status: int)
      requires Ready() && |arg.data| == 4
      requires copyIn && IsWidth(arg.size) ==> Fits(DefaultMem()[..], arg.offset, arg.size)
      modifies arg, DefaultMem()
      ensures arg.read == old(arg.read) && arg.offset == old(arg.offset)
      ensures arg.size == old(arg.size) && |arg.data| == 4
      ensures status == (if copyIn && (copyOut || !old(arg.read)) then 0 else -EIO)
      ensures DefaultMem()[..] ==
              if copyIn && !old(arg.read) && IsWidth(old(arg.size)) then
                WriteAt(old(DefaultMem()[..]), old(arg.offset), old(arg.size),
                        Value(old(arg.data)[..old(arg.size)]))
              else old(DefaultMem()[..])
      ensures arg.data ==
              if copyIn && copyOut && old(arg.read) && IsWidth(old(arg.size)) then
                Bytes(ReadAt(old(DefaultMem()[..]), old(arg.offset), old(arg.size)), old(arg.size))
                + old(arg.data)[old(arg.size)..]
              else old(arg.data)
    {
      if !copyIn {
        return -EIO;
      }
      var context := new IoContext();
      context.CopyFrom(arg);
      var bar := bars[defaultBar];
      if context.read {
        match context.size {
          case 1 =>
            var b := bar.Ioread8(context.offset);
            context.SetMember(b, 1);
          case 2 =>
            var w := bar.Ioread16(context.offset);
            context.SetMember(w, 2);
          case 4 =>
            var d := bar.Ioread32(context.offset);
            context.SetMember(d, 4);
          case _ =>
        }
        if !copyOut {
          return -EIO;
        }
        arg.CopyFrom(context);
      } else {
        match context.size {
          case 1 =>
            BytesOfValue(context.data[..1]);
            assert Limit(1) == 0x100;
            bar.Iowrite8(context.View(1), context.offset);
          case 2 =>
            BytesOfValue(context.data[..2]);
            assert Limit(2) == 0x1_0000;
            bar.Iowrite16(context.View(2), context.offset);
          case 4 =>
            BytesOfValue(context.data[..4]);
            assert Limit(4) == 0x1_0000_0000;
            bar.Iowrite32(context.View(4), context.offset);
          case _ =>
        }
      }
      status := 0;
    }
  }

  // ---------- the user library ----------

  /** A uint32_t stored in an int: the same number, or the one that wraps to it below zero. */
  function AsInt(r: Uint32): (i: int)
    ensures -0x8000_0000 <= i < 0x8000_0000
    ensures i == r || i == r - 0x1_0000_0000
  {
    if r < 0x8000_0000 then r else r - 0x1_0000_0000
  }

  /** The w bytes from the register on lie in the region, and the register is an int. */
  predicate InRegion(mem: Memory, register: Uint32, w: int) {
    IsWidth(w) && register + w <= |mem| && register < 0x8000_0000
  }

  /** The library and the cards behind its file descriptors. */
  class Library {
    const cards: seq<Card>

    constructor (cards: seq<Card>)
      ensures this.cards == cards
    {
      this.cards := cards;
    }

    /** Every card has its default BAR mapped, and no two cards share one. */
    ghost predicate Valid() {
      && (forall i :: 0 <= i < |cards| ==> cards[i].Ready())
      && (forall i, j :: 0 <= i < j < |cards| ==> cards[i].DefaultMem() != cards[j].DefaultMem())
    }

    ghost function Regions(): set<array<Byte>>
      requires Valid()
    {
      set i | 0 <= i < |cards| :: cards[i].DefaultMem()
    }

    /** The byte maps of the cards. */
    ghost function Mems(): (mems: seq<Memory>)
      requires Valid()
      reads Regions()
      ensures |mems| == |cards|
      ensures forall i :: 0 <= i < |cards| ==> mems[i] == cards[i].DefaultMem()[..]
    {
      seq(|cards|, i requires 0 <= i < |cards| && Valid() reads Regions()
                   => cards[i].DefaultMem()[..])
    }

    /** The common part of RelInPortB, RelInPort and RelInPortL; the answer is the union read back. */
    method RelIn(cardNum: nat, register: Uint32, w: int, copyIn: bool, copyOut: bool)
      returns (v: nat)
      requires Valid() && cardNum < |cards| && IsWidth(w)
      requires copyIn ==> InRegion(Mems()[cardNum], register, w)
      modifies cards[cardNum].DefaultMem()
      ensures v < Limit(w) && Mems() == old(Mems())
      ensures v == if copyIn && copyOut then ReadAt(old(Mems())[cardNum], register, w) else 0
    {
      var context := new IoContext();
      context.size := w;
      context.read := true;
      context.offset := AsInt(register);
      var _ := cards[cardNum].RegisterIo(context, copyIn, copyOut);
      v := context.View(w);
      BytesOfValue(context.data[..w]);
      if copyIn && copyOut {
        BytesOfValue(old(Mems())[cardNum][register..register + w]);
        assert context.data[..w]
            == Bytes(ReadAt(old(Mems())[cardNum], register, w), w);
      } else {
        ValueOfZeros(w);
        assert context.data[..w] == [0, 0, 0, 0][..w];
      }
      assert Mems() == old(Mems());
    }

    method RelInPortB(cardNum: nat, register: Uint32, copyIn: bool, copyOut: bool) returns (v: Byte)
      requires Valid() && cardNum < |cards|
      requires copyIn ==> InRegion(Mems()[cardNum], register, 1)
      modifies cards[cardNum].DefaultMem()
      ensures Mems() == old(Mems())
      ensures v == if copyIn && copyOut then ReadAt(old(Mems())[cardNum], register, 1) else 0
    {
      var value := RelIn(cardNum, register, 1, copyIn, copyOut);
      assert Limit(1) == 0x100;
      v := value;
    }

    method RelInPort(cardNum: nat, register: Uint32, copyIn: bool, copyOut: bool)
      returns (v: Uint16)
      requires Valid() && cardNum < |cards|
      requires copyIn ==> InRegion(Mems()[cardNum], register, 2)
      modifies cards[cardNum].DefaultMem()
      ensures Mems() == old(Mems())
      ensures v == if copyIn && copyOut then ReadAt(old(Mems())[cardNum], register, 2) else 0
    {
      var value := RelIn(cardNum, register, 2, copyIn, copyOut);
      assert Limit(2) == 0x1_0000;
      v := value;
    }

    method RelInPortL(cardNum: nat, register: Uint32, copyIn: bool, copyOut: bool)
      returns (v: Uint32)
      requires Valid() && cardNum < |cards|
      requires copyIn ==> InRegion(Mems()[cardNum], register, 4)
      modifies cards[cardNum].DefaultMem()
      ensures Mems() == old(Mems())
      ensures v == if copyIn && copyOut then ReadAt(old(Mems())[cardNum], register, 4) else 0
    {
      var value := RelIn(cardNum, register, 4, copyIn, copyOut);
      assert Limit(4) == 0x1_0000_0000;
      v := value;
    }

    /** The common part of RelOutPortB, RelOutPort and RelOutPortL. */
    method RelOut(cardNum: nat, register: Uint32, w: int, v: nat, copyIn: bool)
      returns (status: int)
      requires Valid() && cardNum < |cards| && IsWidth(w) && v < Limit(w)
      requires copyIn ==> InRegion(Mems()[cardNum], register, w)
      modifies cards[cardNum].DefaultMem()
      ensures status == if copyIn then 0 else -1
      ensures Mems() ==
              if copyIn then
                old(Mems())[cardNum := WriteAt(old(Mems())[cardNum], register, w, v)]
              else old(Mems())
    {
      var context := new IoContext();
      context.read := false;
      context.size := w;
      context.offset := AsInt(register);
      context.SetMember(v, w);
      ValueOfBytes(v, w);
      assert context.data[..w] == Bytes(v, w);
      var answer := cards[cardNum].RegisterIo(context, copyIn, true);
      status := SystemCall(answer);
    }

    method RelOutPortB(cardNum: nat, register: Uint32, v: Byte, copyIn: bool)
      returns (status: int)
      requires Valid() && cardNum < |cards|
      requires copyIn ==> InRegion(Mems()[cardNum], register, 1)
      modifies cards[cardNum].DefaultMem()
      ensures status == if copyIn then 0 else -1
      ensures Mems() ==
              if copyIn then
                old(Mems())[cardNum := WriteAt(old(Mems())[cardNum], register, 1, v)]
              else old(Mems())
    {
      assert Limit(1) == 0x100;
      status := RelOut(cardNum, register, 1, v, copyIn);
    }

    method RelOutPort(cardNum: nat, register: Uint32, v: Uint16, copyIn: bool)
      returns (status: int)
      requires Valid() && cardNum < |cards|
      requires copyIn ==> InRegion(Mems()[cardNum], register, 2)
      modifies cards[cardNum].DefaultMem()
      ensures status == if copyIn then 0 else -1
      ensures Mems() ==
              if copyIn then
                old(Mems())[cardNum := WriteAt(old(Mems())[cardNum], register, 2, v)]
              else old(Mems())
    {
      assert Limit(2) == 0x1_0000;
      status := RelOut(cardNum, register, 2, v, copyIn);
    }

    method RelOutPortL(cardNum: nat, register: Uint32, v: Uint32, copyIn: bool)
      returns (status: int)
      requires Valid() && cardNum < |cards|
      requires copyIn ==> InRegion(Mems()[cardNum], register, 4)
      modifies cards[cardNum].DefaultMem()
      ensures status == if copyIn then 0 else -1
      ensures Mems() ==
              if copyIn then
                old(Mems())[cardNum := WriteAt(old(Mems())[cardNum], register, 4, v)]
              else old(Mems())
    {
      assert Limit(4) == 0x1_0000_0000;
      status := RelOut(cardNum, register, 4, v, copyIn);
    }
  }

  lemma ValueOfZeros(n: nat)
    requires n <= 4
    ensures Value([0, 0, 0, 0][..n]) == 0
  {
    if n > 0 {
      ValueOfZeros(n - 1);
      assert [0, 0, 0, 0][..n][1..] == [0, 0, 0, 0][..n - 1];
    }
  }
}
