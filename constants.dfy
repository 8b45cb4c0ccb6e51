/** The definitions of 25AA1024.h: result codes, device geometry, the
    block-protection bounds, the control-line pin map, the instruction set,
    the status-register bit positions and the signature byte. */
module Constants {
  import opened Machine

  // Result codes. MEMFALSE shares its value with MEMSUCC.
  const MEMSUCC: int := 0
  const MEMFAIL: int := 2
  const MEMTRUE: int := 1
  const MEMFALSE: int := 0

  /** Whether the microcontroller drives the !WP pins; fixed to MEMFALSE, so the
      `if( WP_USED )` branches of SleepMem and InitMem are never taken. */
  const WP_USED: int := MEMFALSE

  // Geometry. MEMSIZE is the highest address, not the number of bytes.
  const PAGE_SIZE: int := 256
  const NUM_PAGES: int := 512
  const MEMSIZE: int := 0x01FFFF

  // Highest unprotected address for each block-protection setting (BP1 BP0).
  const BP00: int := 0x01FFFF
  const BP01: int := 0x017FFF
  const BP10: int := 0x00FFFF
  const BP11: int := 0x000000

  // Control lines: PORTAn is bit n of port A, so CSn is pin n and WPn is pin n + 4.
  const CS0: nat := 0
  const CS1: nat := 1
  const CS2: nat := 2
  const CS3: nat := 3
  const WP0: nat := 4
  const WP1: nat := 5
  const WP2: nat := 6
  const WP3: nat := 7

  // Instruction set.
  const MREAD: int := 0x03
  const MWRITE: int := 0x02
  const MWREN: int := 0x06
  const MWRDI: int := 0x04
  const MRDSR: int := 0x05
  const MWRSR: int := 0x01
  const MPE: int := 0x42
  const MSE: int := 0xD8
  const MCE: int := 0xC7
  const MRDID: int := 0xAB
  const MDPD: int := 0xB9

  // Status-register bit positions.
  const MWIP: nat := 0
  const MWEL: nat := 1
  const MBP0: nat := 2
  const MBP1: nat := 3

  /** The signature byte the device answers to RDID with. */
  const MDEVICE: int := 0x29

  /** The bits WriteMemStatus compares after writing the status register
      (the literal 0x8C of its read-back check). */
  const STATUS_VERIFY_MASK: bv8 := 0x8C

  /** What `v & 0x8C` keeps of a status value: its bits 7, 3 (BP1) and 2 (BP0).
      ProtectionBitsAreMask proves that two values agree under the mask iff
      these agree. */
  function ProtectionBits(v: int): seq<bool>
  {
    [BitSet(v, 7), BitSet(v, MBP1), BitSet(v, MBP0)]
  }

  /** The code a step returns: MEMSUCC when it succeeded, MEMFAIL otherwise. */
  function ResultCode(ok: bool): int
  {
    if ok then MEMSUCC else MEMFAIL
  }

  const Opcodes: seq<int> := [MREAD, MWRITE, MWREN, MWRDI, MRDSR, MWRSR, MPE, MSE, MCE, MRDID, MDPD]

  const ControlPins: seq<nat> := [CS0, CS1, CS2, CS3, WP0, WP1, WP2, WP3]

  /** The eleven instruction bytes are single bytes and pairwise distinct. */
  lemma OpcodesDistinct()
    ensures |Opcodes| == 11
    ensures forall i :: 0 <= i < |Opcodes| ==> 0 <= Opcodes[i] < 0x100
    ensures forall i, j :: 0 <= i < j < |Opcodes| ==> Opcodes[i] != Opcodes[j]
  {
  }

  /** The eight control lines are eight distinct bits of one 8-bit port. */
  lemma ControlPinsDistinct()
    ensures |ControlPins| == 8
    ensures forall i :: 0 <= i < |ControlPins| ==> ControlPins[i] < 8
    ensures forall i, j :: 0 <= i < j < |ControlPins| ==> ControlPins[i] != ControlPins[j]
  {
  }

  /** The page count times the page size is one more than MEMSIZE, so MEMSIZE is the
      highest address and lies in the last page. */
  lemma GeometryConsistent()
    ensures NUM_PAGES * PAGE_SIZE == MEMSIZE + 1
    ensures MEMSIZE / PAGE_SIZE == NUM_PAGES - 1
  {
  }

  /** The protection bounds fall strictly: the whole array, its lower three quarters,
      its lower half, nothing. */
  lemma ProtectBoundsOrdered()
    ensures BP00 > BP01 > BP10 > BP11
    ensures BP00 == MEMSIZE
    ensures 4 * (BP01 + 1) == 3 * (MEMSIZE + 1)
    ensures 2 * (BP10 + 1) == MEMSIZE + 1
    ensures BP11 == 0
  {
  }

  /** WIP, WEL, BP0 and BP1 are bits 0..3; the verify mask is BP0, BP1 and bit 7
      and leaves out the two read-only bits WIP and WEL. */
  lemma VerifyMaskBits()
    ensures MWIP == 0 && MWEL == 1 && MBP0 == 2 && MBP1 == 3
    ensures STATUS_VERIFY_MASK == Mask(MBP0) | Mask(MBP1) | Mask(7)
    ensures STATUS_VERIFY_MASK & Mask(MWIP) == 0 && STATUS_VERIFY_MASK & Mask(MWEL) == 0
  {
  }

  /** The read-back comparison `(temp & 0x8C) != (new_status & 0x8C)` of
      WriteMemStatus is a comparison of ProtectionBits, for every pair of values,
      negative ones included: x and y are the bytes holding their low eight bits. */
  lemma ProtectionBitsAreMask(v: int, w: int, x: bv8, y: bv8)
    requires x as int == v % 0x100 && y as int == w % 0x100
    ensures ProtectionBits(v) == ProtectionBits(w) <==>
              x & STATUS_VERIFY_MASK == y & STATUS_VERIFY_MASK
  {
    ProtectionBitsOfByte(v, x);
    ProtectionBitsOfByte(w, y);
    MaskedEqual(x, y);
  }

  /** The protection bits of a value are bits 7, 3 and 2 of its low byte x. */
  lemma ProtectionBitsOfByte(v: int, x: bv8)
    requires x as int == v % 0x100
    ensures ProtectionBits(v) == [x & Mask(7) != 0, x & Mask(MBP1) != 0, x & Mask(MBP0) != 0]
  {
    BitSetLowByte(v, x, 7);
    BitSetLowByte(v, x, MBP1);
    BitSetLowByte(v, x, MBP0);
  }

  /** Two bytes agree under 0x8C iff they agree on bits 7, 3 and 2. */
  lemma MaskedEqual(x: bv8, y: bv8)
    ensures x & STATUS_VERIFY_MASK == y & STATUS_VERIFY_MASK <==>
              && (x & Mask(7) != 0 <==> y & Mask(7) != 0)
              && (x & Mask(MBP1) != 0 <==> y & Mask(MBP1) != 0)
              && (x & Mask(MBP0) != 0 <==> y & Mask(MBP0) != 0)
  {
  }

  /** Success and failure differ; MEMFALSE equals MEMSUCC, so a "no" from a predicate
      such as CheckWIP is never mistaken for a failure, and neither is MEMTRUE. */
  lemma ResultCodesDistinct()
    ensures MEMSUCC != MEMFAIL
    ensures MEMFALSE == MEMSUCC && MEMTRUE == 1
    ensures MEMTRUE != MEMFAIL && MEMFALSE != MEMFAIL && MEMTRUE != MEMFALSE
    ensures ResultCode(true) == MEMSUCC && ResultCode(false) == MEMFAIL
  {
  }
}
