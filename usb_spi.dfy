/** The flash programmer's pin-level driver: the cable's bit-bang port, the two
    pin masks the programmer keeps (directions and output levels), and the
    bit-banged SPI routines built on them. */
module UsbSpi {
  import opened UsbPins

  /** The FTDI cable in asynchronous bit-bang mode as the programmer uses it:
      every direction change, output write and pin read is appended to `trace`,
      and the k-th pin read returns `InputAt(input, k)`. */
  class FtdiPort {
    var trace: seq<PinOp>
    const input: seq<bv8>
    var readCount: nat

    constructor (input: seq<bv8>)
      ensures trace == [] && this.input == input && readCount == 0
    {
      trace := [];
      this.input := input;
      readCount := 0;
    }

    /** Sets the direction mask (a set bit is an output). */
    method SetBitMode(direction: bv8)
      modifies this
      ensures trace == old(trace) + [SetMode(direction)] && readCount == old(readCount)
    {
      trace := trace + [SetMode(direction)];
    }

    /** Writes the output levels of all eight pins at once. */
    method Write(level: bv8)
      modifies this
      ensures trace == old(trace) + [PinOp.Write(level)] && readCount == old(readCount)
    {
      trace := trace + [PinOp.Write(level)];
    }

    /** Reads the current level of all eight pins. */
    method GetBitMode() returns (value: bv8)
      modifies this
      ensures value == InputAt(input, old(readCount))
      ensures trace == old(trace) + [Sample(value)] && readCount == old(readCount) + 1
    {
      value := InputAt(input, readCount);
      trace := trace + [Sample(value)];
      readCount := readCount + 1;
    }
  }

  /** Direction of a pin. */
  datatype IoMode = In | Out

  /** The four direction changes and three writes of bringing up the SPI pins:
      SSEL, SCK and MOSI become outputs, MISO an input, then SSEL, SCK and MOSI
      are driven low in that order. */
  function InitOps(ddrout: bv8, dataOut: bv8): seq<PinOp>
  {
    var d1 := SetBits(ddrout, IO_FPGA_SSEL, true);
    var d2 := SetBits(d1, IO_SPI_SCK, true);
    var d3 := SetBits(d2, IO_SPI_MOSI, true);
    var d4 := SetBits(d3, IO_SPI_MISO, false);
    var o1 := SetBits(dataOut, IO_FPGA_SSEL, false);
    var o2 := SetBits(o1, IO_SPI_SCK, false);
    var o3 := SetBits(o2, IO_SPI_MOSI, false);
    [SetMode(d1), SetMode(d2), SetMode(d3), SetMode(d4), Write(o1), Write(o2), Write(o3)]
  }

  /** The SPI pins: the three outputs and the input. */
  const SPI_OUTPUTS: bv8 := IO_FPGA_SSEL | IO_SPI_SCK | IO_SPI_MOSI
  const SPI_PINS: bv8 := SPI_OUTPUTS | IO_SPI_MISO

  /** After bring-up SSEL, SCK and MOSI are outputs driven low and MISO is an input;
      every other pin keeps its direction and level. */
  lemma InitEffect(ddrout: bv8, dataOut: bv8)
    ensures |InitOps(ddrout, dataOut)| == 7
    ensures InitOps(ddrout, dataOut)[3].SetMode? && InitOps(ddrout, dataOut)[6].Write?
    ensures InitOps(ddrout, dataOut)[3].direction & SPI_PINS == SPI_OUTPUTS
    ensures InitOps(ddrout, dataOut)[3].direction & !SPI_PINS == ddrout & !SPI_PINS
    ensures InitOps(ddrout, dataOut)[6].level & SPI_OUTPUTS == 0
    ensures InitOps(ddrout, dataOut)[6].level & !SPI_OUTPUTS == dataOut & !SPI_OUTPUTS
  {
  }

  /** From the program's initial direction mask bring-up leaves the directions as they were. */
  lemma InitKeepsInitialDirections()
    ensures InitOps(INITIAL_DDROUT, 0)[3].direction == INITIAL_DDROUT
    ensures InitOps(INITIAL_DDROUT, 0)[6].level == 0
  {
  }

  /** Seven single appends make one append of all seven. */
  lemma AppendSeven<T>(t: seq<T>, ops: seq<T>)
    requires |ops| == 7
    ensures t + [ops[0]] + [ops[1]] + [ops[2]] + [ops[3]] + [ops[4]] + [ops[5]] + [ops[6]] == t + ops
  {
  }

  /** The programmer's pin state: the direction mask and output levels it last gave
      the cable, and whether the SPI pins have been brought up. */
  class Programmer {
    const port: FtdiPort
    var ddrout: bv8
    var dataOut: bv8
    var spiActive: bool

    constructor (port: FtdiPort)
      ensures this.port == port
      ensures ddrout == INITIAL_DDROUT && dataOut == 0 && !spiActive
    {
      this.port := port;
      ddrout := INITIAL_DDROUT;
      dataOut := 0;
      spiActive := false;
    }

    /** Makes the `pin` bits inputs or outputs, leaving the other directions, and
      sends the whole mask to the cable. */
    method IoSetMode(pin: bv8, mode: IoMode)
      modifies this, port
      ensures ddrout == SetBits(old(ddrout), pin, mode == Out)
      ensures port.trace == old(port.trace) + [SetMode(ddrout)]
      ensures dataOut == old(dataOut) && spiActive == old(spiActive) && port.readCount == old(port.readCount)
    {
      if mode == In {
        ddrout := ddrout & !pin;
      } else {
        ddrout := ddrout | pin;
      }
      port.SetBitMode(ddrout);
    }

    /** Drives the `pin` bits high or low, leaving the other levels, and writes the
      whole level byte to the cable once. */
    method IoOut(pin: bv8, state: bool)
      modifies this, port
      ensures dataOut == SetBits(old(dataOut), pin, state)
      ensures port.trace == old(port.trace) + [PinOp.Write(dataOut)]
      ensures ddrout == old(ddrout) && spiActive == old(spiActive) && port.readCount == old(port.readCount)
    {
      if state {
        dataOut := dataOut | pin;
      } else {
        dataOut := dataOut & !pin;
      }
      port.Write(dataOut);
    }

    /** Reads the pins once and reports whether any of the `pin` bits is high. */
    method IoIn(pin: bv8) returns (high: bool)
      modifies port
      ensures high == (InputAt(port.input, old(port.readCount)) & pin != 0)
      ensures port.trace == old(port.trace) + [Sample(InputAt(port.input, old(port.readCount)))]
      ensures port.readCount == old(port.readCount) + 1
    {
      var data := port.GetBitMode();
      high := data & pin != 0;
    }

    /** Brings up the SPI pins once; while they are up it does nothing. */
    method SpiInit()
      modifies this, port
      ensures old(spiActive) ==> ddrout == old(ddrout) && dataOut == old(dataOut) && port.trace == old(port.trace)
      ensures !old(spiActive) ==> port.trace == old(port.trace) + InitOps(old(ddrout), old(dataOut))
      ensures !old(spiActive) ==> ddrout == InitOps(old(ddrout), old(dataOut))[3].direction
      ensures !old(spiActive) ==> dataOut == InitOps(old(ddrout), old(dataOut))[6].level
      ensures spiActive && port.readCount == old(port.readCount)
    {
      if spiActive {
        return;
      }
      ghost var ops := InitOps(ddrout, dataOut);
      AppendSeven(port.trace, ops);
      IoSetMode(IO_FPGA_SSEL, Out);
      IoSetMode(IO_SPI_SCK, Out);
      IoSetMode(IO_SPI_MOSI, Out);
      IoSetMode(IO_SPI_MISO, In);
      IoOut(IO_FPGA_SSEL, false);
      IoOut(IO_SPI_SCK, false);
      IoOut(IO_SPI_MOSI, false);
      spiActive := true;
    }

    /** Marks the SPI pins as no longer brought up; nothing goes to the cable. */
    method UsbDeinit()
      modifies this
      ensures !spiActive && ddrout == old(ddrout) && dataOut == old(dataOut)
    {
      spiActive := false;
    }

    /** Selects (`on`) or releases the flash. The select line is active low and is
      also the FPGA's reset line. */
    method SpiSelect(on: bool)
      modifies this, port
      ensures dataOut == SetBits(old(dataOut), IO_FPGA_SSEL, !on)
      ensures port.trace == old(port.trace) + [PinOp.Write(dataOut)]
      ensures ddrout == old(ddrout) && spiActive == old(spiActive) && port.readCount == old(port.readCount)
    {
      IoOut(IO_FPGA_SSEL, !on);
    }

    /** One clock slot, the three writes of every iteration of the byte loops:
      SCK low, MOSI to `bit`, SCK high. */
    method ClockBit(bit: bool)
      modifies this, port
      ensures port.trace == old(port.trace) + SlotOps(old(dataOut), bit)
      ensures dataOut == SlotLevel(old(dataOut), bit)
      ensures ddrout == old(ddrout) && spiActive == old(spiActive) && port.readCount == old(port.readCount)
    {
      IoOut(IO_SPI_SCK, false);
      IoOut(IO_SPI_MOSI, bit);
      IoOut(IO_SPI_SCK, true);
    }

    /** One clock slot of an exchange: the slot's three writes, then MISO read
      while SCK is high. */
    method XferBit(bit: bool) returns (high: bool)
      modifies this, port
      ensures port.trace == old(port.trace) + XferSlotOps(old(dataOut), bit, InputAt(port.input, old(port.readCount)))
      ensures high == Miso(InputAt(port.input, old(port.readCount)))
      ensures dataOut == SlotLevel(old(dataOut), bit)
      ensures ddrout == old(ddrout) && spiActive == old(spiActive) && port.readCount == old(port.readCount) + 1
    {
      ghost var t0 := port.trace;
      ClockBit(bit);
      high := IoIn(IO_SPI_MISO);
      AppendAssoc(t0, SlotOps(old(dataOut), bit), [Sample(InputAt(port.input, old(port.readCount)))]);
    }

    /** Clocks out byte d, most significant bit first, without reading. */
    method SpiTxByte(d: bv8)
      modifies this, port
      ensures port.trace == old(port.trace) + TxOps(old(dataOut), Bits(d))
      ensures dataOut == TxLevel(old(dataOut), Bits(d))
      ensures ddrout == old(ddrout) && spiActive == old(spiActive) && port.readCount == old(port.readCount)
    {
      ghost var t0, level := port.trace, dataOut;
      for i := 0 to 8
        invariant TxProgress(t0, level, d, i, port.trace, dataOut)
        invariant ddrout == old(ddrout) && spiActive == old(spiActive) && port.readCount == old(port.readCount)
      {
        ghost var trace, out := port.trace, dataOut;
        ClockBit(Bit(d, 7 - i));
        TxProgressStep(t0, level, d, i, trace, out, port.trace, dataOut);
      }
      TxProgressDone(t0, level, d, port.trace, dataOut);
    }

    /** Exchanges byte d: clocks it out MSB first, reading MISO after every rising
      edge, and returns the bits read, the first in bit 7. */
    method SpiXferByte(d: bv8) returns (rdata: bv8)
      modifies this, port
      ensures rdata == Assemble(MisoBits(port.input, old(port.readCount)))
      ensures port.trace == old(port.trace) + XferOps(old(dataOut), Bits(d), port.input, old(port.readCount))
      ensures port.readCount == old(port.readCount) + 8
      ensures dataOut == TxLevel(old(dataOut), Bits(d))
      ensures ddrout == old(ddrout) && spiActive == old(spiActive)
    {
      ghost var t0, level, k := port.trace, dataOut, port.readCount;
      rdata := 0;
      for i := 0 to 8
        invariant XferProgress(t0, level, d, port.input, k, i, port.trace, dataOut, port.readCount, rdata)
        invariant ddrout == old(ddrout) && spiActive == old(spiActive)
      {
        ghost var trace, out, count, r := port.trace, dataOut, port.readCount, rdata;
        var high := XferBit(Bit(d, 7 - i));
        rdata := Shift(rdata, high);
        XferProgressStep(t0, level, d, port.input, k, i, trace, out, count, r, port.trace, dataOut, port.readCount, rdata);
      }
      XferProgressDone(t0, level, d, port.input, k, port.trace, dataOut, port.readCount, rdata);
    }

    /** Exchanges the first `length` bytes of buf in place, in index order: each
      byte is replaced by the byte received while it was clocked out. */
    method SpiXfer(buf: array<bv8>, length: nat)
      requires length <= buf.Length
      modifies this, port, buf
      ensures buf[..length] == Received(port.input, old(port.readCount), length)
      ensures buf[length..] == old(buf[length..])
      ensures port.trace == old(port.trace) + XferOps(old(dataOut), Flatten(old(buf[..length])), port.input, old(port.readCount))
      ensures port.readCount == old(port.readCount) + 8 * length
      ensures dataOut == TxLevel(old(dataOut), Flatten(old(buf[..length])))
      ensures ddrout == old(ddrout) && spiActive == old(spiActive)
    {
      ghost var t0, level, k := port.trace, dataOut, port.readCount;
      ghost var data := buf[..length];
      var j := 0;
      while j < length
        invariant 0 <= j <= length
        invariant XferBytesProgress(t0, level, data, port.input, k, j, port.trace, dataOut, port.readCount, buf[..j])
        invariant buf[j..] == old(buf[j..])
        invariant ddrout == old(ddrout) && spiActive == old(spiActive)
      {
        XferByteAt(buf, j, t0, level, data, k);
        j := j + 1;
      }
      XferBytesProgressDone(t0, level, data, port.input, k, port.trace, dataOut, port.readCount, buf[..length]);
    }

    /** Exchanges buf[j] in place: one step of SpiXfer. */
    method XferByteAt(buf: array<bv8>, j: nat, ghost t0: seq<PinOp>, ghost level: bv8, ghost data: seq<bv8>, ghost k: nat)
      requires j < |data| && j < buf.Length && buf[j] == data[j]
      requires XferBytesProgress(t0, level, data, port.input, k, j, port.trace, dataOut, port.readCount, buf[..j])
      modifies this, port, buf
      ensures XferBytesProgress(t0, level, data, port.input, k, j + 1, port.trace, dataOut, port.readCount, buf[..j + 1])
      ensures buf[j + 1..] == old(buf[j + 1..])
      ensures ddrout == old(ddrout) && spiActive == old(spiActive)
    {
      ghost var trace, out, count, got := port.trace, dataOut, port.readCount, buf[..j];
      var b := SpiXferByte(buf[j]);
      XferBytesProgressStep(t0, level, data, port.input, k, j, trace, out, count, got, port.trace, dataOut, port.readCount, b);
      buf[j] := b;
      assert buf[..j + 1] == got + [b];
    }

    /** Clocks out the first `length` bytes of tx in index order without reading. */
    method SpiTx(tx: array<bv8>, length: nat)
      requires length <= tx.Length
      modifies this, port
      ensures port.trace == old(port.trace) + TxOps(old(dataOut), Flatten(tx[..length]))
      ensures dataOut == TxLevel(old(dataOut), Flatten(tx[..length]))
      ensures ddrout == old(ddrout) && spiActive == old(spiActive) && port.readCount == old(port.readCount)
    {
      ghost var t0, level, data := port.trace, dataOut, tx[..length];
      var j := 0;
      while j < length
        invariant 0 <= j <= length
        invariant TxBytesProgress(t0, level, data, j, port.trace, dataOut)
        invariant ddrout == old(ddrout) && spiActive == old(spiActive) && port.readCount == old(port.readCount)
      {
        ghost var trace, out := port.trace, dataOut;
        SpiTxByte(tx[j]);
        TxBytesProgressStep(t0, level, data, j, trace, out, port.trace, dataOut);
        j := j + 1;
      }
      TxBytesProgressDone(t0, level, data, port.trace, dataOut);
    }

    /** Clocks out `length` bytes of 0xFF without reading. */
    method SpiTxFF(length: nat)
      modifies this, port
      ensures port.trace == old(port.trace) + TxOps(old(dataOut), Flatten(Filler(length)))
      ensures dataOut == TxLevel(old(dataOut), Flatten(Filler(length)))
      ensures ddrout == old(ddrout) && spiActive == old(spiActive) && port.readCount == old(port.readCount)
    {
      ghost var t0, level, data := port.trace, dataOut, Filler(length);
      var j := 0;
      while j < length
        invariant 0 <= j <= length
        invariant TxBytesProgress(t0, level, data, j, port.trace, dataOut)
        invariant ddrout == old(ddrout) && spiActive == old(spiActive) && port.readCount == old(port.readCount)
      {
        ghost var trace, out := port.trace, dataOut;
        assert data[j] == 0xFF;
        SpiTxByte(0xFF);
        TxBytesProgressStep(t0, level, data, j, trace, out, port.trace, dataOut);
        j := j + 1;
      }
      TxBytesProgressDone(t0, level, data, port.trace, dataOut);
    }

    /** One SPI transfer of `length` bytes. Nothing happens for length 0. With the
      SPI pins up: both buffers (which must be one buffer) is a full exchange in
      place, a transmit buffer alone is sent, a receive buffer alone is ignored,
      and no buffer at all clocks out 0xFF filler. With the pins not brought up,
      only a transmit buffer is sent. */
    method SpiTransfer(tx: array?<bv8>, rx: array?<bv8>, length: nat)
      requires tx != null ==> length <= tx.Length
      requires rx != null ==> length <= rx.Length
      requires length > 0 && spiActive && tx != null && rx != null ==> tx == rx
      modifies this, port, rx
      ensures ddrout == old(ddrout) && spiActive == old(spiActive)
      ensures length == 0 || (tx == null && (rx != null || !spiActive)) ==>
        port.trace == old(port.trace) && dataOut == old(dataOut) && port.readCount == old(port.readCount)
      ensures length > 0 && spiActive && tx != null && rx != null ==>
        rx[..length] == Received(port.input, old(port.readCount), length) && rx[length..] == old(rx[length..]) &&
        port.trace == old(port.trace) + XferOps(old(dataOut), Flatten(old(tx[..length])), port.input, old(port.readCount)) &&
        port.readCount == old(port.readCount) + 8 * length && dataOut == TxLevel(old(dataOut), Flatten(old(tx[..length])))
      ensures length > 0 && tx != null && (rx == null || !spiActive) ==>
        port.trace == old(port.trace) + TxOps(old(dataOut), Flatten(tx[..length])) && port.readCount == old(port.readCount) &&
        dataOut == TxLevel(old(dataOut), Flatten(tx[..length]))
      ensures length > 0 && spiActive && tx == null && rx == null ==>
        port.trace == old(port.trace) + TxOps(old(dataOut), Flatten(Filler(length))) && port.readCount == old(port.readCount) &&
        dataOut == TxLevel(old(dataOut), Flatten(Filler(length)))
      ensures rx != null && !(length > 0 && spiActive && tx != null) ==> rx[..] == old(rx[..])
    {
      if length == 0 {
        return;
      }
      if spiActive {
        if tx != null && rx != null {
          SpiXfer(rx, length);
        } else if tx != null {
          SpiTx(tx, length);
        } else if rx != null {
        } else {
          SpiTxFF(length);
        }
      } else {
        if tx != null {
          SpiTx(tx, length);
        }
      }
    }
  }
}
