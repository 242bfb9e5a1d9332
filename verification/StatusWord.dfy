/**
 Words of the card's status register as sets of bit positions: the driver's & of two words is the
 intersection of their sets.
 */
module StatusWord {
  type Word = set<nat>

  /** The positions of the ones in the binary form of n, counting up from position i. */
  function BitsFrom(n: nat, i: nat): Word {
    if n == 0 then {}
    else (if n % 2 == 1 then {i} else {}) + BitsFrom(n / 2, i + 1)
  }

  /** All the bits that can indicate an interrupt, as the driver writes them. */
  const ADIO16F_INTERRUPT_MASK := 0x81FF0000

  const INTERRUPT_BITS: Word := BitsFrom(ADIO16F_INTERRUPT_MASK, 0)

  lemma MaskBits()
    ensures INTERRUPT_BITS == {16, 17, 18, 19, 20, 21, 22, 23, 24, 31}
  {
    var all: Word := {16, 17, 18, 19, 20, 21, 22, 23, 24, 31};
    assert BitsFrom(0x1, 31) == {31};
    assert BitsFrom(0x2, 30) == {31};
    assert BitsFrom(0x4, 29) == {31};
    assert BitsFrom(0x8, 28) == {31};
    assert BitsFrom(0x10, 27) == {31};
    assert BitsFrom(0x20, 26) == {31};
    assert BitsFrom(0x40, 25) == {31};
    assert BitsFrom(0x81, 24) == {24, 31};
    assert BitsFrom(0x103, 23) == {23, 24, 31};
    assert BitsFrom(0x207, 22) == {22, 23, 24, 31};
    assert BitsFrom(0x40F, 21) == {21, 22, 23, 24, 31};
    assert BitsFrom(0x81F, 20) == {20, 21, 22, 23, 24, 31};
    assert BitsFrom(0x103F, 19) == {19, 20, 21, 22, 23, 24, 31};
    assert BitsFrom(0x207F, 18) == {18, 19, 20, 21, 22, 23, 24, 31};
    assert BitsFrom(0x40FF, 17) == {17, 18, 19, 20, 21, 22, 23, 24, 31};
    assert BitsFrom(0x81FF, 16) == all;
    assert BitsFrom(0x103FE, 15) == all;
    assert BitsFrom(0x207FC, 14) == all;
    assert BitsFrom(0x40FF8, 13) == all;
    assert BitsFrom(0x81FF0, 12) == all;
    assert BitsFrom(0x103FE0, 11) == all;
    assert BitsFrom(0x207FC0, 10) == all;
    assert BitsFrom(0x40FF80, 9) == all;
    assert BitsFrom(0x81FF00, 8) == all;
    assert BitsFrom(0x103FE00, 7) == all;
    assert BitsFrom(0x207FC00, 6) == all;
    assert BitsFrom(0x40FF800, 5) == all;
    assert BitsFrom(0x81FF000, 4) == all;
    assert BitsFrom(0x103FE000, 3) == all;
    assert BitsFrom(0x207FC000, 2) == all;
    assert BitsFrom(0x40FF8000, 1) == all;
  }
}
