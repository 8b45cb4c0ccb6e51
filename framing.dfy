/** Command framing: an instruction byte followed by a 24-bit address sent
    most significant byte first. */
module Framing {
  import opened Machine

  /** The three bytes SendAddress transmits: `(A >> 16) & 0xFF`,
      `(A >> 8) & 0xFF` and `A & 0xFF`. On a two's-complement `long` with an
      arithmetic shift these are bits 23..16, 15..8 and 7..0, which floor
      division and a non-negative remainder compute for every A. */
  function AddressBytes(address: int): (bs: seq<int>)
    ensures |bs| == 3
    ensures forall i :: 0 <= i < 3 ==> 0 <= bs[i] < 0x100
  {
    [(address / 0x1_0000) % 0x100, (address / 0x100) % 0x100, address % 0x100]
  }

  /** The address a device reassembles from three address bytes. */
  function DecodeAddress(bs: seq<int>): int
    requires |bs| == 3
  {
    bs[0] * 0x1_0000 + bs[1] * 0x100 + bs[2]
  }

  /** An instruction followed by its address bytes, as SendCommandAndAddress sends them. */
  function Frame(command: int, address: int): seq<int>
  {
    [command] + AddressBytes(address)
  }

  /** The three bytes reassemble to the low 24 bits of the address. */
  lemma AddressBytesDecode(address: int)
    ensures DecodeAddress(AddressBytes(address)) == address % 0x100_0000
  {
    var lo, q1 := address % 0x100, address / 0x100;
    var mid, q2 := q1 % 0x100, q1 / 0x100;
    var hi, q3 := q2 % 0x100, q2 / 0x100;
    assert address == q2 * 0x1_0000 + (mid * 0x100 + lo);
    DivModUnique(address, 0x1_0000, q2, mid * 0x100 + lo);
    assert address == q3 * 0x100_0000 + (hi * 0x1_0000 + mid * 0x100 + lo);
    DivModUnique(address, 0x100_0000, q3, hi * 0x1_0000 + mid * 0x100 + lo);
  }

  /** Round trip: every address of the 24-bit space is sent so that it decodes to itself. */
  lemma AddressRoundTrip(address: int)
    requires 0 <= address < 0x100_0000
    ensures DecodeAddress(AddressBytes(address)) == address
  {
    AddressBytesDecode(address);
  }

  /** Round trip the other way: three bytes, decoded and split again, give the same bytes. */
  lemma BytesRoundTrip(bs: seq<int>)
    requires |bs| == 3 && forall i :: 0 <= i < 3 ==> 0 <= bs[i] < 0x100
    ensures AddressBytes(DecodeAddress(bs)) == bs
  {
    var a := DecodeAddress(bs);
    DivModUnique(a, 0x100, bs[0] * 0x100 + bs[1], bs[2]);
    DivModUnique(bs[0] * 0x100 + bs[1], 0x100, bs[0], bs[1]);
    DivModUnique(a, 0x1_0000, bs[0], bs[1] * 0x100 + bs[2]);
    DivModUnique(bs[0], 0x100, 0, bs[0]);
  }

  /** A frame is the instruction byte and then an address that decodes to the one given. */
  lemma FrameDecodes(command: int, address: int)
    requires 0 <= address < 0x100_0000
    ensures |Frame(command, address)| == 4 && Frame(command, address)[0] == command
    ensures DecodeAddress(Frame(command, address)[1..]) == address
  {
    assert Frame(command, address)[1..] == AddressBytes(address);
    AddressRoundTrip(address);
  }
}
