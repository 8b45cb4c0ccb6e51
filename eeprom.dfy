/** The stateful part of the 25AA1024 driver: the verified chip-select and
    write-protect line changes on the control port, the byte framer, and the
    device operations built on them. */
module Eeprom {
  import opened Machine
  import opened Constants
  import opened Transport
  import opened PinMux
  import opened Framing

  /** The dummy address WakeMem sends after RDID. */
  const WAKE_ADDRESS: int := 0x00A5A5A5

  /** The microcontroller's side of the bus: the SPI transmit trace and
      receive script, and the control port's output latch, its direction register
      and how each of its lines reads back. */
  class Driver {
    /** Every byte handed to the transmit primitive, in order. */
    var sent: seq<int>
    /** Transmit attempt number i (its position in `sent`) reports failure iff i is in txFail. */
    const txFail: set<nat>
    /** What the next receives yield. */
    var rx: seq<RxEvent>
    /** The control port's output latch (PORTA). */
    var port: bv8
    /** The control port's direction register (DDRA). */
    var ddr: bv8
    /** What each line reads back on PINA when its pin is driven high, and when it
        is driven low (see Machine.ReadBack); 0xFF and 0x00 are a healthy port. */
    const highReads: bv8
    const lowReads: bv8

    constructor (txFail: set<nat>, rx: seq<RxEvent>, port: bv8, ddr: bv8, highReads: bv8, lowReads: bv8)
      ensures this.txFail == txFail && this.rx == rx && this.highReads == highReads && this.lowReads == lowReads
      ensures this.port == port && this.ddr == ddr && sent == []
    {
      this.txFail := txFail;
      this.rx := rx;
      this.port := port;
      this.ddr := ddr;
      this.highReads := highReads;
      this.lowReads := lowReads;
      sent := [];
    }

    /** PINA shows pin `pin` high while PORTA holds `latch`. */
    predicate ReadsHigh(latch: bv8, pin: nat)
      requires pin < 8
    {
      ReadBack(latch, highReads, lowReads) & Mask(pin) != 0
    }

    /** Once pin `pin` is raised, what it reads back is that line's own behaviour
        when driven high, whatever the rest of the latch holds. */
    lemma ReadsHighWhenRaised(p: bv8, pin: nat)
      requires pin < 8
      ensures ReadsHigh(SetBit(p, pin), pin) <==> highReads & Mask(pin) != 0
    {
    }

    /** Once pin `pin` is lowered, it reads back high iff that line shows high when
        driven low (stuck high or inverted). So a stuck-high !CS makes ClearCS fail
        while SetCS succeeds. */
    lemma ReadsHighWhenLowered(p: bv8, pin: nat)
      requires pin < 8
      ensures ReadsHigh(ClearBit(p, pin), pin) <==> lowReads & Mask(pin) != 0
    {
    }

    // ---------------------------------------------------------------- transport

    /** The transmit primitive `SPI_Write_Byte`. */
    method SpiWriteByte(b: int) returns (failed: bool)
      modifies this`sent
      ensures sent == old(sent) + [b]
      ensures failed <==> |old(sent)| in txFail
    {
      failed := |sent| in txFail;
      sent := sent + [b];
    }

    /** The receive primitive `SPI_Read_Byte`. */
    method SpiReadByte() returns (failed: bool, b: Int16)
      modifies this`rx
      ensures rx == Pop(old(rx))
      ensures failed <==> !Ready(old(rx))
      ensures !failed ==> b == old(rx)[0].value
    {
      if Ready(rx) {
        failed, b := false, rx[0].value;
      } else {
        failed, b := true, 0;
      }
      rx := Pop(rx);
    }

    // ---------------------------------------------------------------- pin mux

    /** Drives the chip's !CS high and succeeds iff PINA shows it high. */
    method SetCS(chip: Int16) returns (r: int)
      modifies this`port
      ensures port == SetBit(old(port), GetCS(chip))
      ensures r == ResultCode(ReadsHigh(port, GetCS(chip)))
    {
      var ccs := GetCS(chip);
      port := SetBit(port, ccs);
      var temp := ReadBack(port, highReads, lowReads);
      if temp & Mask(ccs) != 0 {
        return MEMSUCC;
      }
      return MEMFAIL;
    }

    /** Drives the chip's !CS low and succeeds iff PINA shows it low. */
    method ClearCS(chip: Int16) returns (r: int)
      modifies this`port
      ensures port == ClearBit(old(port), GetCS(chip))
      ensures r == ResultCode(!ReadsHigh(port, GetCS(chip)))
    {
      var ccs := GetCS(chip);
      port := ClearBit(port, ccs);
      var temp := ReadBack(port, highReads, lowReads);
      if temp & Mask(ccs) == 0 {
        return MEMSUCC;
      }
      return MEMFAIL;
    }

    /** Drives the chip's !WP high (writes allowed) and succeeds iff PINA shows it high. */
    method SetWP(chip: Int16) returns (r: int)
      modifies this`port
      ensures port == SetBit(old(port), GetWP(chip))
      ensures r == ResultCode(ReadsHigh(port, GetWP(chip)))
    {
      var cwp := GetWP(chip);
      port := SetBit(port, cwp);
      var temp := ReadBack(port, highReads, lowReads);
      if temp & Mask(cwp) != 0 {
        return MEMSUCC;
      }
      return MEMFAIL;
    }

    /** Drives the chip's !WP low (write protect) and succeeds iff PINA shows it low. */
    method ClearWP(chip: Int16) returns (r: int)
      modifies this`port
      ensures port == ClearBit(old(port), GetWP(chip))
      ensures r == ResultCode(!ReadsHigh(port, GetWP(chip)))
    {
      var cwp := GetWP(chip);
      port := ClearBit(port, cwp);
      var temp := ReadBack(port, highReads, lowReads);
      if temp & Mask(cwp) == 0 {
        return MEMSUCC;
      }
      return MEMFAIL;
    }

    /** Makes the chip's !CS and !WP pins outputs; a chip outside 0..3 fails and
        leaves the direction register alone. */
    method InitMem(chip: Int16) returns (r: int)
      modifies this`ddr
      ensures r == ResultCode(0 <= chip < 4)
      ensures ddr == if 0 <= chip < 4 then SetBit(SetBit(old(ddr), GetCS(chip)), GetWP(chip)) else old(ddr)
    {
      if chip == 0 {
        ddr := SetBit(ddr, CS0);
        ddr := SetBit(ddr, WP0);
      } else if chip == 1 {
        ddr := SetBit(ddr, CS1);
        ddr := SetBit(ddr, WP1);
      } else if chip == 2 {
        ddr := SetBit(ddr, CS2);
        ddr := SetBit(ddr, WP2);
      } else if chip == 3 {
        ddr := SetBit(ddr, CS3);
        ddr := SetBit(ddr, WP3);
      } else {
        return MEMFAIL;
      }
      // WP_USED is MEMFALSE: the !WP line is not lowered here.
      return MEMSUCC;
    }

    /** Makes the chip's !CS and !WP pins inputs again; a chip outside 0..3 changes nothing. */
    method CloseMem(chip: Int16)
      modifies this`ddr
      ensures ddr == if 0 <= chip < 4 then ClearBit(ClearBit(old(ddr), GetCS(chip)), GetWP(chip)) else old(ddr)
    {
      if chip == 0 {
        ddr := ClearBit(ddr, CS0);
        ddr := ClearBit(ddr, WP0);
      } else if chip == 1 {
        ddr := ClearBit(ddr, CS1);
        ddr := ClearBit(ddr, WP1);
      } else if chip == 2 {
        ddr := ClearBit(ddr, CS2);
        ddr := ClearBit(ddr, WP2);
      } else if chip == 3 {
        ddr := ClearBit(ddr, CS3);
        ddr := ClearBit(ddr, WP3);
      }
    }

    // ---------------------------------------------------------------- byte framer

    /** Sends one byte; assumes the chip is already selected. */
    method SendByte(b: Int16) returns (r: int)
      modifies this`sent
      ensures sent == old(sent) + [b]
      ensures r == ResultCode(|old(sent)| !in txFail)
    {
      var failed := SpiWriteByte(b);
      if failed {
        return MEMFAIL;
      }
      return MEMSUCC;
    }

    /** Receives one byte; assumes the chip is already selected. */
    method ReadByte() returns (r: int, b: Int16)
      modifies this`rx
      ensures rx == Pop(old(rx))
      ensures r == ResultCode(Ready(old(rx)))
      ensures r == MEMSUCC ==> b == old(rx)[0].value
    {
      var failed;
      failed, b := SpiReadByte();
      if failed {
        return MEMFAIL, b;
      }
      return MEMSUCC, b;
    }

    /** Lowers the chip's !CS and sends the instruction. The outcome of lowering
        !CS is not checked: the result reports the transmit alone. !CS stays low. */
    method SendCommand(chip: Int16, command: Int16) returns (r: int)
      modifies this`port, this`sent
      ensures port == ClearBit(old(port), GetCS(chip))
      ensures sent == old(sent) + [command]
      ensures r == ResultCode(|old(sent)| !in txFail)
    {
      var ignored := ClearCS(chip);
      var res := SendByte(command);
      if res != MEMSUCC {
        return MEMFAIL;
      }
      return MEMSUCC;
    }

    /** Sends the three address bytes, most significant first, stopping at the
        first byte the transmitter fails on. */
    method SendAddress(chip: Int16, address: Int32) returns (r: int)
      modifies this`sent
      ensures sent == Wire(old(sent), txFail, AddressBytes(address))
      ensures r == ResultCode(Delivered(old(sent), txFail, AddressBytes(address)))
    {
      ghost var t := sent;
      var bytes := AddressBytes(address);
      var hi, loHi, loLo := bytes[0], bytes[1], bytes[2];
      assert bytes == [hi] + ([loHi] + [loLo]);
      WireAppend(t, txFail, [hi], [loHi] + [loLo]);
      WireAppend(t + [hi], txFail, [loHi], [loLo]);
      assert t + [hi] + [loHi] == t + [hi, loHi];
      var res := SendByte(hi);
      if res != MEMSUCC {
        return MEMFAIL;
      }
      res := SendByte(loHi);
      if res != MEMSUCC {
        return MEMFAIL;
      }
      res := SendByte(loLo);
      if res != MEMSUCC {
        return MEMFAIL;
      }
      return MEMSUCC;
    }

    /** Lowers !CS and sends an instruction and its address; !CS stays low. */
    method SendCommandAndAddress(chip: Int16, command: Int16, address: Int32) returns (r: int)
      modifies this`port, this`sent
      ensures port == ClearBit(old(port), GetCS(chip))
      ensures sent == Wire(old(sent), txFail, Frame(command, address))
      ensures r == ResultCode(Delivered(old(sent), txFail, Frame(command, address)))
    {
      ghost var t := sent;
      WireAppend(t, txFail, [command], AddressBytes(address));
      var res := SendCommand(chip, command);
      if res != MEMSUCC {
        return MEMFAIL;
      }
      res := SendAddress(chip, address);
      if res != MEMSUCC {
        return MEMFAIL;
      }
      return MEMSUCC;
    }

    // ---------------------------------------------------------------- device operations

    /** Sequential read of numBytes bytes from address into data[0 .. numBytes).
        A failure returns at once, leaving !CS low. */
    method ReadData(chip: Int16, address: Int32, numBytes: Int32, data: array<Int16>) returns (r: int)
      requires 0 <= numBytes <= data.Length
      modifies this`port, this`sent, this`rx, data
      ensures sent == Wire(old(sent), txFail, Frame(MREAD, address))
      ensures !Delivered(old(sent), txFail, Frame(MREAD, address)) ==>
                && r == MEMFAIL && port == ClearBit(old(port), GetCS(chip))
                && rx == old(rx) && data[..] == old(data[..])
      ensures Delivered(old(sent), txFail, Frame(MREAD, address)) ==>
                var k := LeadingBytes(old(rx), numBytes);
                && (forall i :: 0 <= i < k ==> data[i] == old(rx)[i].value)
                && (forall i :: k <= i < data.Length ==> data[i] == old(data[i]))
                && rx == (if k < numBytes then Pop(old(rx)[k..]) else old(rx)[k..])
                && port == (if k < numBytes then ClearBit(old(port), GetCS(chip)) else SetBit(old(port), GetCS(chip)))
                && r == ResultCode(k == numBytes && ReadsHigh(SetBit(old(port), GetCS(chip)), GetCS(chip)))
    {
      var res := SendCommandAndAddress(chip, MREAD, address);
      if res != MEMSUCC {
        return MEMFAIL;
      }
      ghost var framedPort := port;
      ghost var k := LeadingBytes(old(rx), numBytes);
      var count := 0;
      while count < numBytes
        invariant 0 <= count <= k
        invariant rx == old(rx)[count..]
        invariant forall i :: 0 <= i < count ==> data[i] == old(rx)[i].value
        invariant forall i :: count <= i < data.Length ==> data[i] == old(data[i])
        invariant sent == Wire(old(sent), txFail, Frame(MREAD, address)) && port == framedPort
      {
        var rres, tdata := ReadByte();
        if rres != MEMSUCC {
          return MEMFAIL;
        }
        data[count] := tdata;
        count := count + 1;
      }
      SetAfterClear(old(port), GetCS(chip));
      res := SetCS(chip);
      if res != MEMSUCC {
        return MEMFAIL;
      }
      return MEMSUCC;
    }

    /** Sends RDSR and receives the status byte into the result (the caller's
        value is handed back when the read fails). !CS is left low on every path. */
    method ReadMemStatus(chip: Int16, status: Int16) returns (r: int, statusOut: Int16)
      modifies this`port, this`sent, this`rx
      ensures port == ClearBit(old(port), GetCS(chip))
      ensures sent == old(sent) + [MRDSR]
      ensures rx == if |old(sent)| in txFail then old(rx) else Pop(old(rx))
      ensures r == ResultCode(|old(sent)| !in txFail && Ready(old(rx)))
      ensures statusOut == if r == MEMSUCC then old(rx)[0].value else status
    {
      statusOut := status;
      var res := SendCommand(chip, MRDSR);
      if res != MEMSUCC {
        return MEMFAIL, statusOut;
      }
      var temp;
      res, temp := ReadByte();
      if res != MEMSUCC {
        return MEMFAIL, statusOut;
      }
      statusOut := temp;
      return MEMSUCC, statusOut;
    }

    /** Raising the chip's !WP from latch p reads back high. */
    predicate WpRaises(p: bv8, chip: Int16)
    {
      ReadsHigh(SetBit(p, GetWP(chip)), GetWP(chip))
    }

    /** Lowering the chip's !CS and then its !WP from latch p reads !WP back low. */
    predicate WpLowers(p: bv8, chip: Int16)
    {
      !ReadsHigh(ClearBit(ClearBit(p, GetCS(chip)), GetWP(chip)), GetWP(chip))
    }

    /** Writes the status register and reads it back: raise !WP, send WRSR and the
        value, lower !WP, then RDSR without raising !CS in between. Succeeds iff every
        step does and the read-back agrees with the value on the bits of 0x8C. The
        contract follows the steps: each clause says where a failure at one step
        leaves the bus. */
    method WriteMemStatus(chip: Int16, status: Int16) returns (r: int)
      modifies this`port, this`sent, this`rx
      // !WP does not read back high: nothing is sent.
      ensures !WpRaises(old(port), chip) ==>
                && r == MEMFAIL && sent == old(sent) && rx == old(rx)
                && port == SetBit(old(port), GetWP(chip))
      // WRSR or the value fails on the wire.
      ensures WpRaises(old(port), chip) && |old(sent)| in txFail ==>
                && r == MEMFAIL && sent == old(sent) + [MWRSR] && rx == old(rx)
                && port == ClearBit(SetBit(old(port), GetWP(chip)), GetCS(chip))
      ensures WpRaises(old(port), chip) && |old(sent)| !in txFail && |old(sent)| + 1 in txFail ==>
                && r == MEMFAIL && sent == old(sent) + [MWRSR, status] && rx == old(rx)
                && port == ClearBit(SetBit(old(port), GetWP(chip)), GetCS(chip))
      // Both bytes went out: !CS and !WP end low, whatever follows.
      ensures WpRaises(old(port), chip) && |old(sent)| !in txFail && |old(sent)| + 1 !in txFail ==>
                port == ClearBit(ClearBit(old(port), GetCS(chip)), GetWP(chip))
      ensures WpRaises(old(port), chip) && |old(sent)| !in txFail && |old(sent)| + 1 !in txFail
              && !WpLowers(old(port), chip) ==>
                r == MEMFAIL && sent == old(sent) + [MWRSR, status] && rx == old(rx)
      // The read-back: RDSR, one byte, and the comparison under 0x8C.
      ensures WpRaises(old(port), chip) && |old(sent)| !in txFail && |old(sent)| + 1 !in txFail
              && WpLowers(old(port), chip) ==>
                && sent == old(sent) + [MWRSR, status, MRDSR]
                && rx == (if |old(sent)| + 2 in txFail then old(rx) else Pop(old(rx)))
                && r == ResultCode(|old(sent)| + 2 !in txFail && Ready(old(rx))
                                   && ProtectionBits(status) == ProtectionBits(old(rx)[0].value))
    {
      ghost var cs, wp := GetCS(chip), GetWP(chip);
      ghost var p0, s0, rx0, n := port, sent, rx, |sent|;
      var temp := status;
      var res := SetWP(chip);
      if res != MEMSUCC {
        assert !WpRaises(p0, chip);
        return MEMFAIL;
      }
      assert WpRaises(p0, chip);
      res := SendCommand(chip, MWRSR);
      assert sent == s0 + [MWRSR] && port == ClearBit(SetBit(p0, wp), cs);
      if res != MEMSUCC {
        assert n in txFail;
        return MEMFAIL;
      }
      assert n !in txFail;
      res := SendByte(temp);
      assert sent == s0 + [MWRSR, status];
      if res != MEMSUCC {
        assert n !in txFail && n + 1 in txFail;
        return MEMFAIL;
      }
      assert n !in txFail && n + 1 !in txFail;
      ghost var lowered := ClearBit(ClearBit(p0, cs), wp);
      ClearUndoesSet(p0, wp, cs);
      res := ClearWP(chip);
      assert port == lowered;
      if res != MEMSUCC {
        assert !WpLowers(p0, chip);
        return MEMFAIL;
      }
      assert WpLowers(p0, chip);
      ClearAgain(p0, cs, wp);
      var newStatus;
      res, newStatus := ReadMemStatus(chip, 0);
      assert port == lowered && sent == s0 + [MWRSR, status, MRDSR];
      if res != MEMSUCC {
        assert !(n + 2 !in txFail && Ready(rx0));
        return MEMFAIL;
      }
      assert n + 2 !in txFail && Ready(rx0) && newStatus == rx0[0].value;
      if ProtectionBits(temp) != ProtectionBits(newStatus) {
        return MEMFAIL;
      }
      return MEMSUCC;
    }

    /** The busy test: MEMTRUE while bit WIP of the status byte is set, MEMFALSE
        once it is clear, MEMFAIL when the status cannot be read. !CS is left low. */
    method CheckWIP(chip: Int16) returns (r: int)
      modifies this`port, this`sent, this`rx
      ensures port == ClearBit(old(port), GetCS(chip))
      ensures sent == old(sent) + [MRDSR]
      ensures rx == if |old(sent)| in txFail then old(rx) else Pop(old(rx))
      ensures r == if |old(sent)| in txFail || !Ready(old(rx)) then MEMFAIL
                   else if BitSet(old(rx)[0].value, MWIP) then MEMTRUE
                   else MEMFALSE
    {
      var res, status := ReadMemStatus(chip, 0);
      if res != MEMSUCC {
        return MEMFAIL;
      }
      if BitSet(status, MWIP) {
        return MEMTRUE;
      }
      return MEMFALSE;
    }

    /** Release from deep power-down: RDID with a dummy address, one signature byte,
        raise !CS; fails unless the signature is MDEVICE, even when the bus did not fail. */
    method WakeMem(chip: Int16) returns (r: int)
      modifies this`port, this`sent, this`rx
      ensures var cs, frame := GetCS(chip), Frame(MRDID, WAKE_ADDRESS);
              var framed := Delivered(old(sent), txFail, frame);
              && sent == Wire(old(sent), txFail, frame)
              && rx == (if framed then Pop(old(rx)) else old(rx))
              && port == (if framed && Ready(old(rx)) then SetBit(old(port), cs) else ClearBit(old(port), cs))
              && r == ResultCode(framed && Ready(old(rx)) && ReadsHigh(SetBit(old(port), cs), cs)
                                 && old(rx)[0].value == MDEVICE)
    {
      var res := SendCommandAndAddress(chip, MRDID, WAKE_ADDRESS);
      if res != MEMSUCC {
        return MEMFAIL;
      }
      var tdata;
      res, tdata := ReadByte();
      if res != MEMSUCC {
        return MEMFAIL;
      }
      SetAfterClear(old(port), GetCS(chip));
      res := SetCS(chip);
      if res != MEMSUCC {
        return MEMFAIL;
      }
      if tdata != MDEVICE {
        return MEMFAIL;
      }
      return MEMSUCC;
    }

    /** Deep power-down: lower !CS, send DPD, raise !CS. */
    method SleepMem(chip: Int16) returns (r: int)
      modifies this`port, this`sent
      ensures var cs := GetCS(chip);
              var low := !ReadsHigh(ClearBit(old(port), cs), cs);
              var delivered := |old(sent)| !in txFail;
              && sent == (if low then old(sent) + [MDPD] else old(sent))
              && port == (if low && delivered then SetBit(old(port), cs) else ClearBit(old(port), cs))
              && r == ResultCode(low && delivered && ReadsHigh(SetBit(old(port), cs), cs))
    {
      // WP_USED is MEMFALSE: the !WP line is not lowered here.
      var res := ClearCS(chip);
      if res != MEMSUCC {
        return MEMFAIL;
      }
      ClearTwice(old(port), GetCS(chip));
      res := SendCommand(chip, MDPD);
      if res != MEMSUCC {
        return MEMFAIL;
      }
      SetAfterClear(old(port), GetCS(chip));
      res := SetCS(chip);
      if res != MEMSUCC {
        return MEMFAIL;
      }
      return MEMSUCC;
    }
  }

  /** WakeMem's frame is RDID followed by 0xA5 0xA5 0xA5: the dummy address
      0x00A5A5A5 masks to 0xA5 in each of the three address bytes. */
  lemma WakeFrame()
    ensures Frame(MRDID, WAKE_ADDRESS) == [0xAB, 0xA5, 0xA5, 0xA5]
  {
  }

  /** ReadData's frame is READ followed by the address, most significant byte first. */
  lemma ReadFrame(address: int)
    requires 0 <= address < 0x100_0000
    ensures Frame(MREAD, address)[0] == 0x03 && |Frame(MREAD, address)| == 4
    ensures DecodeAddress(Frame(MREAD, address)[1..]) == address
  {
    FrameDecodes(MREAD, address);
  }
}
