# 25AA1024 SPI EEPROM driver: protocol layer

This project models the protocol layer of a driver for the Microchip 25AA1024,
a 1-Mbit SPI EEPROM. The driver runs on an AVR microcontroller and can drive up
to four chips. Each chip has a !CS (chip select) line and a !WP (write protect)
line on control port A.

The model covers:

- the constants of `25AA1024.h`;
- the pin map (`GetCS`, `GetWP`);
- the verified level changes on the control port (`SetCS`, `ClearCS`, `SetWP`, `ClearWP`);
- the direction-register setup (`InitMem`, `CloseMem`);
- the byte framer (`SendByte`, `ReadByte`, `SendCommand`, `SendAddress`, `SendCommandAndAddress`);
- the device operations (`ReadData`, `ReadMemStatus`, `WriteMemStatus`, `CheckWIP`, `WakeMem`, `SleepMem`);
- the page helpers (`GetPage`, `Min`).

Files and modules:

- `machine.dfy` (`Machine`): the AVR integer widths, C's truncating division, the bit operations on 8-bit I/O registers and the PINA read-back. It also proves that the integer bit test used for status values agrees with the bit-vector test on the low byte.
- `constants.dfy` (`Constants`): result codes, geometry, protection bounds, pin map, opcodes and status bits.
- `transport.dfy` (`Transport`): the SPI transport as the driver sees it.
  - A transmit appends its byte to a trace. Attempt number i fails iff i is in a fixed set.
  - A receive takes the next entry of a scripted queue. An entry is a byte or a fault, and an empty queue also fails.
  - `Wire` is the trace after sending several bytes, stopping at the first failure. `Delivered` says that every attempt succeeded.
- `pinmux.dfy` (`PinMux`): which port bit belongs to which chip.
- `framing.dfy` (`Framing`): the instruction-plus-24-bit-address frame and its decoding.
- `paging.dfy` (`Paging`): `GetPage` as written, `Min`, and the corrected page computation `PageOf`.
- `eeprom.dfy` (`Eeprom`): the class `Driver`. Its state:
  - the transmit trace `sent`, the failure set `txFail` and the receive script `rx`;
  - the port latch `port` (PORTA) and the direction register `ddr` (DDRA);
  - how each control line reads back, as two masks. Bit k of `highReads` is what pin k shows on PINA while PORTA drives it high, and bit k of `lowReads` is what it shows while driven low (`Machine.ReadBack`). A healthy line is 1/0, a line stuck high 1/1, stuck low 0/0, inverted 0/1.

  Because a stuck-high !CS is representable, the ignored `ClearCS` in `SendCommand` is visible in the contracts. In `ReadData` and `WakeMem` that `ClearCS` can fail while the closing `SetCS` succeeds, and the result is then MEMSUCC: their `ensures` give the result without any condition on the lowering read-back.

  Every operation is a method whose `ensures` gives the complete new state and the result code, expressed in the transport's functions.

Behaviour of the code worth knowing, which the contracts keep:

- The bus operations leave !CS low when they fail before their closing `SetCS`. `ReadMemStatus`, `SendCommand` and `SendCommandAndAddress` announce this in their header comments (25AA1024.c:234, 445, 470), and the early `return MEMFAIL`s of `ReadData`, `CheckWIP`, `WriteMemStatus`, `WakeMem` and `SleepMem` do the same.
- A failing read-back in a closing `SetCS` (25AA1024.c:92-93, 144-145) returns with the latch high, and so does `WakeMem`'s signature check, which comes after it (25AA1024.c:148-149).
- `WriteMemStatus` returns on a failing `SetWP` before !CS is touched (25AA1024.c:292-293).
- `InitMem` returns MEMFAIL for an invalid chip without touching DDRA (25AA1024.c:390-391).
- `GetCS` and `GetWP` map a chip number outside 0..3 to chip 0's lines (25AA1024.c:325-358). Only `InitMem` rejects such a number.
- Every failure returns the one code `MEMFAIL` (25AA1024.h:49-52).
- `SendCommand` calls `ClearCS` and ignores its result (25AA1024.c:475).
- `WakeMem` passes the four-byte literal `0x00A5A5A5` as its dummy address (25AA1024.c:136). Only its low three bytes are sent (25AA1024.c:530-532), so the frame is `0xAB 0xA5 0xA5 0xA5`.

## Model

| member | source | states |
|---|---|---|
| Machine.Mask | 25AA1024.c:597 | the pin mask `1 << k` of pin k; its contract is in MaskIsShift |
| Machine.MaskIsShift | 25AA1024.c:597 | the mask of pin k is `1 << k`, and the masks of different pins share no bit |
| Machine.SetBit | 25AA1024.c:375-376 | `p | (1 << k)`, the `|=` on PORTA and DDRA; its contract is in SetBitChangesOnlyPin |
| Machine.ClearBit | 25AA1024.c:411-412 | `p & ~(1 << k)`, the `&= ~` on PORTA and DDRA; its contract is in ClearBitChangesOnlyPin |
| Machine.SetBitChangesOnlyPin | 25AA1024.c:597 | raising pin k makes bit k one and leaves the other seven bits of the port as they were |
| Machine.ClearBitChangesOnlyPin | 25AA1024.c:635 | lowering pin k makes bit k zero and leaves the other seven bits as they were |
| Machine.SetAfterClear | 25AA1024.c:91-92 | raising !CS after it was lowered gives the same latch as raising it from the start |
| Machine.ClearTwice | 25AA1024.c:189-194 | lowering an already lowered pin changes nothing (SleepMem lowers !CS twice) |
| Machine.ClearUndoesSet | 25AA1024.c:291-305 | raising !WP, lowering !CS, then lowering !WP equals lowering both from the start |
| Machine.ClearAgain | 25AA1024.c:305-309 | lowering !CS again after !CS and !WP are low changes nothing (the RDSR in WriteMemStatus) |
| Machine.ReadBack | 25AA1024.c:603 | what `temp = RContPort` reads: each pin shows its line's behaviour at the level PORTA drives it |
| Machine.ReadBackHealthy | 25AA1024.c:603-605 | a healthy port reads back exactly the latch |
| Machine.StuckHighLine | 25AA1024.c:475 | a line stuck high reads back high after both a raise and a lower, so ClearCS fails and SetCS succeeds on it |
| Machine.Pow2IsMask | 25AA1024.c:738 | for the eight pins, 2^k is the value of the mask `1 << k` |
| Machine.BitSet | 25AA1024.c:738 | `v & (1 << k)` is non-zero, as a test on the integer v; its contract is in BitSetLowByte |
| Machine.BitSetByte | 25AA1024.c:738 | for a byte x, BitSet of its value is exactly the bit-vector test `x & (1 << k) != 0` |
| Machine.LowBitsOfLowByte | 25AA1024.c:738 | bits 0..7 of any integer, negative ones included, are those of its remainder modulo 256 |
| Machine.BitSetLowByte | 25AA1024.c:738 | bit k of any integer is bit k of the byte holding its low eight bits |
| Machine.CDiv | 25AA1024.c:752 | C's `/`: the remainder has the sign of the dividend and is below the divisor, which fixes the quotient |
| Machine.ToInt16 | 25AA1024.c:752 | the 16-bit conversion keeps the value modulo 2^16 and is the identity on 16-bit values |
| Constants.OpcodesDistinct | 25AA1024.h:100-110 | the eleven instruction bytes are single bytes and pairwise distinct |
| Constants.ControlPinsDistinct | 25AA1024.h:77-88 | CS0..CS3 and WP0..WP3 are eight distinct bits of one 8-bit port |
| Constants.GeometryConsistent | 25AA1024.h:57-59 | NUM_PAGES * PAGE_SIZE == MEMSIZE + 1 and MEMSIZE lies in the last page |
| Constants.ProtectBoundsOrdered | 25AA1024.h:63-66 | the protection bounds fall strictly: whole array, three quarters, half, nothing |
| Constants.VerifyMaskBits | 25AA1024.h:113-116 | WIP, WEL, BP0 and BP1 are bits 0..3; mask 0x8C is BP0, BP1 and bit 7 and excludes WIP and WEL |
| Constants.ProtectionBits | 25AA1024.c:311 | what `v & 0x8C` keeps of a status value: bits 7, BP1 and BP0; its contract is in ProtectionBitsAreMask |
| Constants.ProtectionBitsAreMask | 25AA1024.c:311 | for any two values, their ProtectionBits agree iff their low bytes agree under the mask 0x8C |
| Constants.ProtectionBitsOfByte | 25AA1024.c:311 | the protection bits of a value are bits 7, 3 and 2 of its low byte |
| Constants.MaskedEqual | 25AA1024.c:311 | two bytes agree under 0x8C iff they agree on bits 7, 3 and 2 |
| Constants.ResultCode | 25AA1024.h:49-50 | the code an operation returns: MEMSUCC when it succeeded, MEMFAIL otherwise; its contract is in ResultCodesDistinct |
| Constants.ResultCodesDistinct | 25AA1024.h:49-52 | MEMSUCC differs from MEMFAIL, MEMFALSE equals MEMSUCC, and MEMTRUE is neither failure nor MEMFALSE |
| Transport.Ready | 25AA1024.c:566-567 | a receive succeeds iff the next scripted entry is a byte rather than a fault or the end of the script; used by the contracts of ReadByte and everything built on it |
| Transport.Pop | 25AA1024.c:566-567 | a receive consumes exactly the head entry of the script, successful or not, and an empty script stays empty |
| Transport.Delivered | 25AA1024.c:535-542 | every transmit attempt of a byte chain succeeds; its contract is in WireAppend and WireDelivered |
| Transport.Wire | 25AA1024.c:535-542 | the trace of a fail-fast chain of SendByte calls; its contract is in WireDelivered, WireStopsAtFailure and WireIsPrefix |
| Transport.WireDelivered | 25AA1024.c:499-506 | when no attempt fails, all the bytes go out in order |
| Transport.WireStopsAtFailure | 25AA1024.c:535-542 | when attempt k is the first to fail, bytes 0..k go out and nothing after them |
| Transport.WireIsPrefix | 25AA1024.c:535-542 | whatever fails, the trace grows by a prefix of the bytes, and by at least one byte on failure |
| Transport.WireAppend | 25AA1024.c:450-454 | sending a and then b (only when a went through) is sending a + b, and delivers a + b iff both parts are delivered |
| Transport.LeadingBytes | 25AA1024.c:82-89 | the count of successful receives is at most n, covers only bytes, and when below n the next receive fails |
| PinMux.GetCS | 25AA1024.c:325-337 | chip n in 0..3 selects pin n; any other chip number selects chip 0's pin |
| PinMux.GetWP | 25AA1024.c:346-358 | chip n in 0..3 selects pin n + 4; any other chip number selects pin 4 |
| PinMux.ChipLinesDistinct | 25AA1024.h:77-88 | no chip's !CS is any chip's !WP, and different chips have different lines |
| PinMux.InvalidChipSelectsChipZero | 25AA1024.c:325-358 | a chip number outside 0..3 is not rejected; it gets chip 0's lines |
| Framing.AddressBytes | 25AA1024.c:530-532 | the address split gives three bytes, each in 0..255 |
| Framing.AddressBytesDecode | 25AA1024.c:530-532 | the three bytes reassemble to the address modulo 2^24 |
| Framing.AddressRoundTrip | 25AA1024.c:530-542 | every 24-bit address is sent so that it decodes to itself |
| Framing.BytesRoundTrip | 25AA1024.c:530-532 | three bytes, decoded and split again, give the same bytes |
| Framing.Frame | 25AA1024.c:447-457 | the bytes SendCommandAndAddress sends: the instruction and then the address bytes; its contract is in FrameDecodes |
| Framing.FrameDecodes | 25AA1024.c:447-457 | a frame is the instruction and then an address that decodes to the one given |
| Paging.GetPage | 25AA1024.c:748-762 | the caller's page is handed back unchanged; the code is MEMSUCC or MEMFAIL, and within +/-2^23 it fails iff the address is above MEMSIZE |
| Paging.Min | 25AA1024.c:765-771 | the result is at most both arguments and is one of them |
| Paging.PageOf | 25AA1024.c:748-762 | there is a page iff the address is in 0..MEMSIZE; it is below NUM_PAGES and its 256-byte range holds the address |
| Paging.GetPageAgreesWithPageOf | 25AA1024.c:752-759 | for addresses 0..0x7FFFFF, GetPage succeeds exactly when PageOf finds a page |
| Paging.GetPageNeverStoresPage | 25AA1024.c:754-756 | for an address in page 1 the caller's page variable keeps its old value |
| Paging.GetPageAcceptsInvalidAddresses | 25AA1024.c:752-759 | 0x800000 and -1 are accepted although neither is in the array |
| Eeprom.Driver.ReadsHigh | 25AA1024.c:603-605 | PINA shows the pin high while PORTA holds the latch; its contract is in ReadsHighWhenRaised and ReadsHighWhenLowered |
| Eeprom.Driver.ReadsHighWhenRaised | 25AA1024.c:597-605 | after a raise, the pin reads high iff its line follows a high drive, whatever the rest of the latch |
| Eeprom.Driver.ReadsHighWhenLowered | 25AA1024.c:635-643 | after a lower, the pin reads high iff its line shows high when driven low (stuck high or inverted) |
| Eeprom.Driver.SpiWriteByte | 25AA1024.c:502-503 | the byte is appended to the trace; the attempt fails iff its number is in the failure set |
| Eeprom.Driver.SpiReadByte | 25AA1024.c:566-567 | one script entry is consumed; the receive succeeds iff it is a byte, which is returned |
| Eeprom.Driver.SetCS | 25AA1024.c:588-609 | only the chip's !CS bit is raised; the result is MEMSUCC iff PINA shows it high |
| Eeprom.Driver.ClearCS | 25AA1024.c:626-647 | only the chip's !CS bit is lowered; the result is MEMSUCC iff PINA shows it low |
| Eeprom.Driver.SetWP | 25AA1024.c:665-686 | only the chip's !WP bit is raised; the result is MEMSUCC iff PINA shows it high |
| Eeprom.Driver.ClearWP | 25AA1024.c:703-724 | only the chip's !WP bit is lowered; the result is MEMSUCC iff PINA shows it low |
| Eeprom.Driver.InitMem | 25AA1024.c:369-404 | a chip outside 0..3 fails and leaves DDRA alone; otherwise the chip's !CS and !WP bits become outputs |
| Eeprom.Driver.CloseMem | 25AA1024.c:406-430 | the chip's !CS and !WP direction bits are cleared; a chip outside 0..3 changes nothing |
| Eeprom.Driver.SendByte | 25AA1024.c:499-506 | the byte is transmitted; the result reports whether that attempt succeeded |
| Eeprom.Driver.ReadByte | 25AA1024.c:563-570 | one receive; on success the byte is the head of the script |
| Eeprom.Driver.SendCommand | 25AA1024.c:472-482 | !CS is lowered and the instruction transmitted; the result reports the transmit only |
| Eeprom.Driver.SendAddress | 25AA1024.c:523-545 | the address bytes go out high to low, stopping at the first failed byte; succeeds iff all three are delivered |
| Eeprom.Driver.SendCommandAndAddress | 25AA1024.c:447-457 | the trace grows by the frame up to and including its first failed byte; succeeds iff the whole frame is delivered; !CS stays low |
| Eeprom.Driver.ReadData | 25AA1024.c:71-97 | sends READ and the address; on success data[i] is the i-th received byte for each i before the first failed receive, the rest of data is unchanged, !CS is raised after a full read, and the result is MEMSUCC iff frame, all reads and the !CS read-back succeed |
| Eeprom.Driver.ReadMemStatus | 25AA1024.c:236-252 | sends only RDSR, returns the received byte as the status (the old value on failure) and leaves !CS low |
| Eeprom.Driver.WriteMemStatus | 25AA1024.c:284-315 | raises !WP, sends WRSR then the value, lowers !WP, then sends RDSR; each failing step leaves the stated trace and latch; succeeds iff every step does and the read-back agrees with the value on the bits of 0x8C |
| Eeprom.Driver.CheckWIP | 25AA1024.c:730-742 | MEMFAIL when the status cannot be read, else MEMTRUE iff bit WIP of the status byte is set, else MEMFALSE |
| Eeprom.Driver.WakeMem | 25AA1024.c:130-152 | sends RDID with the dummy address, reads one byte, raises !CS; succeeds iff the bus steps succeed and the byte is 0x29 |
| Eeprom.Driver.SleepMem | 25AA1024.c:181-203 | lowers !CS, sends DPD and raises !CS; succeeds iff each level change reads back right and DPD is delivered |
| Eeprom.WakeFrame | 25AA1024.c:136 | the wake frame is 0xAB 0xA5 0xA5 0xA5 |
| Eeprom.ReadFrame | 25AA1024.c:78 | the read frame is 0x03 and then the address, most significant byte first |

## Left out

- The SPI primitives `SPI_Write_Byte` and `SPI_Read_Byte` come from TinySPI, which is not part of this model. They are represented by the trace with its failure set and by the receive script.
- The electrical behaviour of PORTA/PINA/DDRA is not modelled. Each line's read-back depends only on the level its own pin drives and is fixed for the life of the driver. The model therefore cannot express a read-back that changes over time, for example a line that settles late, or a line whose reading depends on another pin. The `_NOP` settling delays and the inline assembly are not modelled either.
- Timing is not modelled (`IO_SPEED`, the write burn time, the !HOLD line); the code does not implement it.
- `WriteData`, `WriteEnable`, `WriteDisable`, `ErasePage`, `EraseSector`, `EraseChip` and `CheckProtect` are declared at 25AA1024.h:127-141 but have no body in the source, so they are not modelled.
- The `WP_USED` branches of `SleepMem` and `InitMem` are not modelled. `WP_USED` is fixed to `MEMFALSE`, so those branches are never taken.
- Eeprom.Driver.ReadData: requires `0 <= numBytes <= data.Length`. In C the loop compares an `unsigned long` counter with the signed count, so a negative count becomes a huge bound. The loop would then write past the caller's buffer, which Dafny arrays cannot represent.
- Values passed as C `short` are integers in the 16-bit range. A byte handed to the transmitter is recorded as that integer, without truncating it to 8 bits.
- Only the final port latch is modelled, not the sequence of intermediate latch writes.
- Eeprom.Driver.WriteMemStatus: the status variable that ReadMemStatus fills is uninitialised in C. The model passes 0; that value is never observed, because every path on which the read fails returns before using it.

## Findings

| source | as written | input that shows it | evidently intended | confidence | as-written member | corrected member |
|---|---|---|---|---|---|---|
| 25AA1024.c:754-756 | `page = &temp; page--;` retargets the local pointer, so the caller's `*page` is never written | address 0x100 with `*page` holding 7: MEMSUCC is returned and `*page` is still 7, not 1 | store the page index, `address / PAGE_SIZE`, in `*page` | not executed | Paging.GetPageNeverStoresPage | Paging.PageOf |
| 25AA1024.c:752-759 | only `temp > 511` is tested, after a truncating 16-bit conversion | address 0x800000 (page 32768 wraps to -32768) and address -1 (page 0) both give MEMSUCC | succeed exactly for addresses 0..MEMSIZE | not executed | Paging.GetPageAcceptsInvalidAddresses | Paging.PageOf |
