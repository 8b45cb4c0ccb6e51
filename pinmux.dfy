/** The pin map of the control port: which PORTA bit drives each chip's !CS
    and !WP line. The verified level changes live in Eeprom.Driver. */
module PinMux {
  import opened Constants

  /** The !CS pin of a chip: pin n for chip n in 0..3; any other chip number
      falls back to chip 0's pin. */
  function GetCS(chip: int): (pin: nat)
    ensures pin < 4
    ensures pin == if 0 <= chip < 4 then chip else 0
  {
    match chip
    case 0 => CS0
    case 1 => CS1
    case 2 => CS2
    case 3 => CS3
    case _ => CS0
  }

  /** The !WP pin of a chip: pin n + 4 for chip n in 0..3; any other chip
      number falls back to chip 0's pin. */
  function GetWP(chip: int): (pin: nat)
    ensures 4 <= pin < 8
    ensures pin == if 0 <= chip < 4 then chip + 4 else 4
  {
    match chip
    case 0 => WP0
    case 1 => WP1
    case 2 => WP2
    case 3 => WP3
    case _ => WP0
  }

  /** The four chips use eight different lines: no chip's !CS is another line's pin. */
  lemma ChipLinesDistinct(c: int, d: int)
    requires 0 <= c < 4 && 0 <= d < 4
    ensures GetCS(c) != GetWP(d)
    ensures c != d ==> GetCS(c) != GetCS(d) && GetWP(c) != GetWP(d)
  {
  }

  /** A chip number outside 0..3 is not rejected by the pin map: it selects chip 0's lines. */
  lemma InvalidChipSelectsChipZero(chip: int)
    requires !(0 <= chip < 4)
    ensures GetCS(chip) == GetCS(0) && GetWP(chip) == GetWP(0)
  {
  }
}
