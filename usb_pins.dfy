/** Pin assignment, pin naming and the clocking patterns of the bit-banged SPI
    link that the flash programmer drives through the eight bit-bang pins of an
    FTDI USB-serial cable. Everything here is a value; the stateful port and
    programmer are in UsbSpi. */
module UsbPins {

  // The cable's signals as bits of the bit-bang port.
  const PIN_TX: bv8 := 0x01
  const PIN_RX: bv8 := 0x02
  const PIN_RTS: bv8 := 0x04
  const PIN_CTS: bv8 := 0x08
  const PIN_DTR: bv8 := 0x10
  const PIN_DSR: bv8 := 0x20
  const PIN_DCD: bv8 := 0x40
  const PIN_RI: bv8 := 0x80

  // What each signal is wired to on the VERA board.
  const IO_FPGA_CDONE: bv8 := PIN_DCD
  const IO_FPGA_RESET: bv8 := PIN_RTS
  const IO_FPGA_SSEL: bv8 := PIN_RTS
  const IO_SPI_SCK: bv8 := PIN_TX
  const IO_SPI_MISO: bv8 := PIN_RX
  const IO_SPI_MOSI: bv8 := PIN_DTR

  /** The pins the programmer drives as outputs before anything else happens. */
  const INITIAL_DDROUT: bv8 := IO_FPGA_RESET | IO_FPGA_SSEL | IO_SPI_SCK | IO_SPI_MOSI

  /** The single-bit masks, as the C `int` the naming routine takes, in bit order. */
  const PIN_MASKS: seq<bv32> := [
    PIN_TX as bv32, PIN_RX as bv32, PIN_RTS as bv32, PIN_CTS as bv32,
    PIN_DTR as bv32, PIN_DSR as bv32, PIN_DCD as bv32, PIN_RI as bv32]

  /** The display name of each pin, in bit order. */
  const PIN_NAMES: seq<string> := [
    "01 TXD-SCK", "02 RXD-MISO", "04 RTS-SSEL", "08 CTS",
    "10 DTR-MOSI", "20 DSR", "40 DCD", "80 RI"]

  /** Reset and flash select share one pin; the SPI signals and CDONE are distinct
      pins; the initial outputs are the SPI outputs, with MISO and CDONE inputs. */
  lemma PinAssignment()
    ensures INITIAL_DDROUT == 0x15
    ensures IO_FPGA_RESET == IO_FPGA_SSEL
    ensures IO_SPI_SCK & IO_SPI_MOSI == 0 && IO_SPI_SCK & IO_SPI_MISO == 0 && IO_SPI_MOSI & IO_SPI_MISO == 0
    ensures (IO_SPI_SCK | IO_SPI_MOSI | IO_SPI_MISO) & IO_FPGA_SSEL == 0
    ensures (IO_SPI_SCK | IO_SPI_MOSI | IO_SPI_MISO | IO_FPGA_SSEL) & IO_FPGA_CDONE == 0
    ensures INITIAL_DDROUT & (IO_SPI_MISO | IO_FPGA_CDONE) == 0
  {
  }

  /** The program's ordinary shift `1 << i`, for a bit of the low byte, is the i-th mask. */
  lemma MaskOfIndex(i: nat)
    requires i < 8
    ensures (1 as bv32) << i == PIN_MASKS[i]
  {
    if i == 0 {
    } else if i == 1 {
    } else if i == 2 {
    } else if i == 3 {
    } else if i == 4 {
    } else if i == 5 {
    } else if i == 6 {
    } else {
    }
  }

  /** The pin bits below bit i, for i from 0 to 8. */
  const LOW_MASKS: seq<bv32> := [0x00, 0x01, 0x03, 0x07, 0x0F, 0x1F, 0x3F, 0x7F, 0xFF]

  /** Pin bit i clear on top of the bits below it clears the bits below i+1. */
  lemma LowStep(p: bv32, i: nat)
    requires i < 8 && p & LOW_MASKS[i] == 0 && p & PIN_MASKS[i] == 0
    ensures p & LOW_MASKS[i + 1] == 0
  {
    if i == 0 {
    } else if i == 1 {
    } else if i == 2 {
    } else if i == 3 {
    } else if i == 4 {
    } else if i == 5 {
    } else if i == 6 {
    } else {
    }
  }

  /** A mask with pin bit i set: it has a pin bit, and it is pin i when no other
      bit is set and no pin's mask at all otherwise. */
  lemma PinBit(p: bv32, i: nat)
    requires i < 8 && p & PIN_MASKS[i] != 0
    ensures p & 0xFF != 0
    ensures p & !PIN_MASKS[i] == 0 ==> p == PIN_MASKS[i]
    ensures p & !PIN_MASKS[i] != 0 ==> forall j :: 0 <= j < 8 ==> p != PIN_MASKS[j]
  {
    if i == 0 {
    } else if i == 1 {
    } else if i == 2 {
    } else if i == 3 {
    } else if i == 4 {
    } else if i == 5 {
    } else if i == 6 {
    } else {
    }
  }

  /** A mask with no pin bit is no pin's mask. */
  lemma NoPinBit(p: bv32)
    requires p & 0xFF == 0
    ensures forall j :: 0 <= j < 8 ==> p != PIN_MASKS[j]
  {
  }

  /** Pin i's mask names pin i only. */
  lemma MaskNames(i: nat)
    requires i < 8
    ensures forall j :: 0 <= j < 8 && PIN_MASKS[i] == PIN_MASKS[j] ==> PIN_NAMES[j] == PIN_NAMES[i]
  {
  }

  /** Names a pin mask for diagnostics: the table entry of a mask that is exactly
      one of the eight pins, "MULTI" when the lowest set pin bit comes with any
      other set bit (above bit 7 too), "???" when no pin bit is set. */
  method PinName(p: bv32) returns (name: string)
    ensures forall i :: 0 <= i < 8 && p == PIN_MASKS[i] ==> name == PIN_NAMES[i]
    ensures p & 0xFF == 0 ==> name == "???"
    ensures p & 0xFF != 0 && (forall i :: 0 <= i < 8 ==> p != PIN_MASKS[i]) ==> name == "MULTI"
  {
    for i := 0 to 8
      invariant p & LOW_MASKS[i] == 0
    {
      MaskOfIndex(i);
      var bit: bv32 := 1 << i;
      if p & bit != 0 {
        PinBit(p, i);
        if p & !bit != 0 {
          return "MULTI";
        }
        MaskNames(i);
        return PIN_NAMES[i];
      }
      LowStep(p, i);
    }
    NoPinBit(p);
    return "???";
  }

  /** `byte` with the bits of `pins` set (`on`) or cleared: the update shared by
      the direction mask and the output-level mask. */
  function SetBits(byte: bv8, pins: bv8, on: bool): (r: bv8)
    ensures r & pins == (if on then pins else 0)
    ensures r & !pins == byte & !pins
  {
    if on then byte | pins else byte & !pins
  }

  /** Bit j of d, counted from the least significant end. */
  function Bit(d: bv8, j: nat): bool
    requires j < 8
  {
    d & (1 << j) != 0
  }

  /** The bits of d in the order they go on the wire: most significant first. */
  function Bits(d: bv8): seq<bool>
  {
    seq(8, i requires 0 <= i < 8 => Bit(d, 7 - i))
  }

  /** r shifted up one place with b as its new bit 0. */
  function Shift(r: bv8, b: bool): bv8
  {
    (r << 1) | (if b then 1 else 0)
  }

  /** The byte whose wire bits are bs, shifted in one at a time. */
  function Assemble(bs: seq<bool>): bv8
  {
    if |bs| == 0 then 0 else Shift(Assemble(bs[..|bs| - 1]), bs[|bs| - 1])
  }

  /** Shifting a bit in from the right moves every bit up by one. */
  lemma ShiftIn(a: bv8, b: bool, j: nat)
    requires j < 8
    ensures Bit(Shift(a, b), j) == if j == 0 then b else Bit(a, j - 1)
  {
    if j == 0 {
    } else if j == 1 {
    } else if j == 2 {
    } else if j == 3 {
    } else if j == 4 {
    } else if j == 5 {
    } else if j == 6 {
    } else {
    }
  }

  /** After n shifts the last bit shifted in is bit 0 and nothing reaches above bit n-1. */
  lemma {:induction false} AssembleBit(bs: seq<bool>, j: nat)
    requires |bs| <= 8 && j < 8
    ensures Bit(Assemble(bs), j) == (j < |bs| && bs[|bs| - 1 - j])
    decreases |bs|
  {
    if |bs| > 0 {
      var front := bs[..|bs| - 1];
      ShiftIn(Assemble(front), bs[|bs| - 1], j);
      if j > 0 {
        AssembleBit(front, j - 1);
      }
    }
  }

  /** Two bytes that agree bit by bit are equal. */
  lemma BitsDetermine(x: bv8, y: bv8)
    requires forall j :: 0 <= j < 8 ==> Bit(x, j) == Bit(y, j)
    ensures x == y
  {
    assert Bit(x, 0) == Bit(y, 0) && Bit(x, 1) == Bit(y, 1) && Bit(x, 2) == Bit(y, 2) && Bit(x, 3) == Bit(y, 3);
    assert Bit(x, 4) == Bit(y, 4) && Bit(x, 5) == Bit(y, 5) && Bit(x, 6) == Bit(y, 6) && Bit(x, 7) == Bit(y, 7);
  }

  /** Eight wire bits shifted in MSB first read back as the same eight bits. */
  lemma BitsOfAssemble(bs: seq<bool>)
    requires |bs| == 8
    ensures Bits(Assemble(bs)) == bs
  {
    forall i | 0 <= i < 8
      ensures Bits(Assemble(bs))[i] == bs[i]
    {
      AssembleBit(bs, 7 - i);
    }
  }

  /** Serialising a byte MSB first and shifting the bits back in gives the byte. */
  lemma AssembleOfBits(d: bv8)
    ensures Assemble(Bits(d)) == d
  {
    forall j | 0 <= j < 8
      ensures Bit(Assemble(Bits(d)), j) == Bit(d, j)
    {
      AssembleBit(Bits(d), j);
    }
    BitsDetermine(Assemble(Bits(d)), d);
  }

  /** One operation on the bit-bang port, in the order the programmer issues them:
      writing all eight output levels, setting the direction mask, or reading the pins. */
  datatype PinOp = Write(level: bv8) | SetMode(direction: bv8) | Sample(value: bv8)

  /** The pin byte the k-th read returns; a read past the end of what the cable
      supplies leaves the zero the program initialises its buffer with. */
  function InputAt(input: seq<bv8>, k: nat): bv8
  {
    if k < |input| then input[k] else 0
  }

  /** MISO as seen in a pin byte read from the port. */
  predicate Miso(v: bv8)
  {
    v & IO_SPI_MISO != 0
  }

  /** The eight MISO bits of the pin bytes read from index k on. */
  function MisoBits(input: seq<bv8>, k: nat): seq<bool>
  {
    seq(8, i requires 0 <= i < 8 => Miso(InputAt(input, k + i)))
  }

  /** The n bytes received when the reads start at index k of input, eight reads a byte. */
  function Received(input: seq<bv8>, k: nat, n: nat): seq<bv8>
  {
    seq(n, j requires 0 <= j < n => Assemble(MisoBits(input, k + 8 * j)))
  }

  /** The wire bits of every byte of data, in order. */
  function Flatten(data: seq<bv8>): seq<bool>
  {
    if |data| == 0 then [] else Flatten(data[..|data| - 1]) + Bits(data[|data| - 1])
  }

  /** Groups wire bits into bytes, eight at a time; a trailing partial byte is dropped. */
  function Unpack(bits: seq<bool>): seq<bv8>
  {
    if |bits| < 8 then [] else Unpack(bits[..|bits| - 8]) + [Assemble(bits[|bits| - 8..])]
  }

  /** n bytes of all ones, the filler clocked out when there is nothing to send. */
  function Filler(n: nat): seq<bv8>
  {
    seq(n, _ => 0xFF)
  }

  /** The three port writes of one clock slot from output levels `level`:
      clock low, data bit on MOSI, clock high. */
  function SlotOps(level: bv8, bit: bool): seq<PinOp>
  {
    var low := SetBits(level, IO_SPI_SCK, false);
    var data := SetBits(low, IO_SPI_MOSI, bit);
    [Write(low), Write(data), Write(SetBits(data, IO_SPI_SCK, true))]
  }

  /** The output levels a clock slot leaves behind. */
  function SlotLevel(level: bv8, bit: bool): bv8
  {
    SetBits(SetBits(SetBits(level, IO_SPI_SCK, false), IO_SPI_MOSI, bit), IO_SPI_SCK, true)
  }

  /** The output levels after clocking out the wire bits `bits`. */
  function TxLevel(level: bv8, bits: seq<bool>): bv8
  {
    if |bits| == 0 then level else SlotLevel(TxLevel(level, bits[..|bits| - 1]), bits[|bits| - 1])
  }

  /** The port writes of clocking out the wire bits `bits`, one slot each. */
  function TxOps(level: bv8, bits: seq<bool>): seq<PinOp>
  {
    if |bits| == 0 then []
    else
      var front := bits[..|bits| - 1];
      TxOps(level, front) + SlotOps(TxLevel(level, front), bits[|bits| - 1])
  }

  /** One exchanged slot: the slot's writes, then a read of the pins that returns v. */
  function XferSlotOps(level: bv8, bit: bool, v: bv8): seq<PinOp>
  {
    SlotOps(level, bit) + [Sample(v)]
  }

  /** The port operations of exchanging the wire bits `bits`: each slot followed by
      a read of the pins, the reads starting at index k of input. */
  function XferOps(level: bv8, bits: seq<bool>, input: seq<bv8>, k: nat): seq<PinOp>
  {
    if |bits| == 0 then []
    else
      var front := bits[..|bits| - 1];
      XferOps(level, front, input, k) + XferSlotOps(TxLevel(level, front), bits[|bits| - 1], InputAt(input, k + |front|))
  }

  /** The clock level after the writes among ops, starting from clock level sck. */
  function SckAfter(sck: bool, ops: seq<PinOp>): bool
    decreases |ops|
  {
    if |ops| == 0 then sck
    else SckAfter(if ops[0].Write? then ops[0].level & IO_SPI_SCK != 0 else sck, ops[1..])
  }

  /** What an SPI mode-0 device receives from a sequence of port operations: the
      MOSI level at every rising edge of SCK, starting from clock level sck.
      Direction changes and reads do not move the wire. */
  function Decode(sck: bool, ops: seq<PinOp>): seq<bool>
    decreases |ops|
  {
    if |ops| == 0 then []
    else if ops[0].Write? then
      var high := ops[0].level & IO_SPI_SCK != 0;
      (if high && !sck then [ops[0].level & IO_SPI_MOSI != 0] else []) + Decode(high, ops[1..])
    else Decode(sck, ops[1..])
  }

  /** The port operations of ops other than reads. */
  function Writes(ops: seq<PinOp>): seq<PinOp>
  {
    if |ops| == 0 then [] else (if ops[0].Sample? then [] else [ops[0]]) + Writes(ops[1..])
  }

  /** The writes of ops change no pin other than SCK and MOSI relative to `level`. */
  predicate KeepsOtherPins(level: bv8, ops: seq<PinOp>)
  {
    forall i :: 0 <= i < |ops| && ops[i].Write? ==>
      ops[i].level & !(IO_SPI_SCK | IO_SPI_MOSI) == level & !(IO_SPI_SCK | IO_SPI_MOSI)
  }

  // ---------------------------------------------------------------------------
  // Sequence plumbing

  lemma SliceLeft<T>(a: seq<T>, b: seq<T>, lo: nat, hi: nat)
    requires lo <= hi <= |a|
    ensures (a + b)[lo..hi] == a[lo..hi]
  {
  }

  lemma SliceRight<T>(a: seq<T>, b: seq<T>)
    ensures (a + b)[|a|..] == b
  {
  }

  lemma PrefixOfAppend<T>(a: seq<T>, b: seq<T>)
    ensures (a + b)[..|a|] == a
  {
  }

  lemma SliceOfPrefix<T>(s: seq<T>, lo: nat, hi: nat)
    requires lo <= hi <= |s|
    ensures s[lo..hi] == s[..hi][lo..]
  {
  }

  lemma {:induction false} FlattenLength(data: seq<bv8>)
    ensures |Flatten(data)| == 8 * |data|
  {
    if |data| > 0 {
      FlattenLength(data[..|data| - 1]);
    }
  }

  /** Flattening one more byte appends its wire bits. */
  lemma FlattenSnoc(data: seq<bv8>, j: nat)
    requires j < |data|
    ensures Flatten(data[..j + 1]) == Flatten(data[..j]) + Bits(data[j])
  {
    assert data[..j + 1][..j] == data[..j];
  }

  // ---------------------------------------------------------------------------
  // One slot

  /** The three writes of a slot: SCK low with the other outputs kept; then MOSI
      set to the bit with SCK still low; then SCK high with MOSI held. */
  lemma SlotShape(level: bv8, bit: bool)
    ensures |SlotOps(level, bit)| == 3
    ensures forall i :: 0 <= i < 3 ==> SlotOps(level, bit)[i].Write?
    ensures SlotOps(level, bit)[0].level & IO_SPI_SCK == 0
    ensures SlotOps(level, bit)[0].level & !IO_SPI_SCK == level & !IO_SPI_SCK
    ensures SlotOps(level, bit)[1].level & IO_SPI_SCK == 0
    ensures SlotOps(level, bit)[1].level & IO_SPI_MOSI == (if bit then IO_SPI_MOSI else 0)
    ensures SlotOps(level, bit)[1].level & !IO_SPI_MOSI == SlotOps(level, bit)[0].level & !IO_SPI_MOSI
    ensures SlotOps(level, bit)[2].level & IO_SPI_SCK == IO_SPI_SCK
    ensures SlotOps(level, bit)[2].level & !IO_SPI_SCK == SlotOps(level, bit)[1].level & !IO_SPI_SCK
    ensures SlotLevel(level, bit) == SlotOps(level, bit)[2].level
  {
  }

  /** A device sees exactly one bit per slot, the data bit, and the clock ends high. */
  lemma SlotDecode(sck: bool, level: bv8, bit: bool)
    ensures Decode(sck, SlotOps(level, bit)) == [bit]
    ensures SckAfter(sck, SlotOps(level, bit)) == true
  {
    var ops := SlotOps(level, bit);
    assert ops[1..][1..][1..] == [];
    assert Decode(false, ops[2..]) == [bit] + Decode(true, ops[3..]);
    assert Decode(false, ops[1..]) == Decode(false, ops[2..]);
    assert Decode(sck, ops) == Decode(false, ops[1..]);
    assert SckAfter(sck, ops) == SckAfter(false, ops[1..]) == SckAfter(false, ops[2..]) == SckAfter(true, ops[3..]);
  }

  /** The writes a slot leaves in a trace are the slot itself. */
  lemma SlotWrites(level: bv8, bit: bool)
    ensures Writes(SlotOps(level, bit)) == SlotOps(level, bit)
  {
    var ops := SlotOps(level, bit);
    assert ops[1..][1..][1..] == [];
    assert Writes(ops[2..]) == [ops[2]] + Writes(ops[3..]);
    assert Writes(ops[1..]) == [ops[1]] + Writes(ops[2..]);
    assert Writes(ops) == [ops[0]] + Writes(ops[1..]);
  }

  /** A slot run from levels that agree with `level` on the non-SPI pins keeps them. */
  lemma SlotKeepsOtherPins(level: bv8, l: bv8, bit: bool)
    requires l & !(IO_SPI_SCK | IO_SPI_MOSI) == level & !(IO_SPI_SCK | IO_SPI_MOSI)
    ensures KeepsOtherPins(level, SlotOps(l, bit))
    ensures SlotLevel(l, bit) & !(IO_SPI_SCK | IO_SPI_MOSI) == level & !(IO_SPI_SCK | IO_SPI_MOSI)
  {
  }

  // ---------------------------------------------------------------------------
  // Traces and their concatenation

  lemma {:induction false} DecodeAppend(sck: bool, a: seq<PinOp>, b: seq<PinOp>)
    ensures Decode(sck, a + b) == Decode(sck, a) + Decode(SckAfter(sck, a), b)
    ensures SckAfter(sck, a + b) == SckAfter(SckAfter(sck, a), b)
    decreases |a|
  {
    if |a| > 0 {
      assert (a + b)[1..] == a[1..] + b;
      var next := if a[0].Write? then a[0].level & IO_SPI_SCK != 0 else sck;
      DecodeAppend(next, a[1..], b);
    } else {
      assert a + b == b;
    }
  }

  lemma {:induction false} WritesAppend(a: seq<PinOp>, b: seq<PinOp>)
    ensures Writes(a + b) == Writes(a) + Writes(b)
    decreases |a|
  {
    if |a| > 0 {
      assert (a + b)[1..] == a[1..] + b;
      WritesAppend(a[1..], b);
    } else {
      assert a + b == b;
    }
  }

  lemma KeepsAppend(level: bv8, a: seq<PinOp>, b: seq<PinOp>)
    requires KeepsOtherPins(level, a) && KeepsOtherPins(level, b)
    ensures KeepsOtherPins(level, a + b)
  {
    forall i | 0 <= i < |a + b| && (a + b)[i].Write?
      ensures (a + b)[i].level & !(IO_SPI_SCK | IO_SPI_MOSI) == level & !(IO_SPI_SCK | IO_SPI_MOSI)
    {
      if i < |a| {
        assert (a + b)[i] == a[i];
      } else {
        assert (a + b)[i] == b[i - |a|];
      }
    }
  }

  /** Clocking out a + b is clocking out a, then b from where a left the outputs. */
  lemma {:induction false} TxAppend(level: bv8, a: seq<bool>, b: seq<bool>)
    ensures TxLevel(level, a + b) == TxLevel(TxLevel(level, a), b)
    ensures TxOps(level, a + b) == TxOps(level, a) + TxOps(TxLevel(level, a), b)
    decreases |b|
  {
    if |b| == 0 {
      assert a + b == a;
    } else {
      var front := b[..|b| - 1];
      assert (a + b)[..|a + b| - 1] == a + front;
      TxAppend(level, a, front);
    }
  }

  /** Exchanging a + b is exchanging a, then b with the reads continuing after a's. */
  lemma {:induction false} XferAppend(level: bv8, a: seq<bool>, b: seq<bool>, input: seq<bv8>, k: nat)
    ensures XferOps(level, a + b, input, k) == XferOps(level, a, input, k) + XferOps(TxLevel(level, a), b, input, k + |a|)
    decreases |b|
  {
    if |b| == 0 {
      assert a + b == a;
    } else {
      var front := b[..|b| - 1];
      assert (a + b)[..|a + b| - 1] == a + front;
      XferAppend(level, a, front, input, k);
      TxAppend(level, a, front);
    }
  }

  // ---------------------------------------------------------------------------
  // The steps of the programmer's loops, stated on values

  /** Appending twice to a trace that extends t0 extends t0. */
  lemma AppendAssoc<T>(t0: seq<T>, a: seq<T>, b: seq<T>)
    ensures t0 + a + b == t0 + (a + b)
  {
  }

  /** Clocking out one more bit appends its slot. */
  lemma TxSnoc(level: bv8, bits: seq<bool>, i: nat)
    requires i < |bits|
    ensures TxOps(level, bits[..i + 1]) == TxOps(level, bits[..i]) + SlotOps(TxLevel(level, bits[..i]), bits[i])
    ensures TxLevel(level, bits[..i + 1]) == SlotLevel(TxLevel(level, bits[..i]), bits[i])
  {
    assert bits[..i + 1][..i] == bits[..i];
  }

  /** Exchanging one more bit appends its slot and its read. */
  lemma XferSnoc(level: bv8, bits: seq<bool>, input: seq<bv8>, k: nat, i: nat)
    requires i < |bits|
    ensures XferOps(level, bits[..i + 1], input, k)
         == XferOps(level, bits[..i], input, k) + XferSlotOps(TxLevel(level, bits[..i]), bits[i], InputAt(input, k + i))
    ensures TxLevel(level, bits[..i + 1]) == SlotLevel(TxLevel(level, bits[..i]), bits[i])
  {
    assert bits[..i + 1][..i] == bits[..i];
  }

  /** The byte assembled from the first i+1 bits is that of the first i with bit i shifted in. */
  lemma AssembleSnoc(bs: seq<bool>, i: nat)
    requires i < |bs|
    ensures Assemble(bs[..i + 1]) == Shift(Assemble(bs[..i]), bs[i])
  {
    assert bs[..i + 1][..i] == bs[..i];
  }

  /** Where sending byte d stands after its first i slots, started on trace t0
      with output levels `level`: the trace and the output levels. */
  ghost predicate TxProgress(t0: seq<PinOp>, level: bv8, d: bv8, i: nat, trace: seq<PinOp>, out: bv8)
  {
    i <= 8
    && trace == t0 + TxOps(level, Bits(d)[..i])
    && out == TxLevel(level, Bits(d)[..i])
  }

  /** One more slot advances the sending of d by one. */
  lemma TxProgressStep(t0: seq<PinOp>, level: bv8, d: bv8, i: nat, trace: seq<PinOp>, out: bv8,
                       trace': seq<PinOp>, out': bv8)
    requires i < 8 && TxProgress(t0, level, d, i, trace, out)
    requires trace' == trace + SlotOps(out, Bit(d, 7 - i)) && out' == SlotLevel(out, Bit(d, 7 - i))
    ensures TxProgress(t0, level, d, i + 1, trace', out')
  {
    var bits := Bits(d);
    TxSnoc(level, bits, i);
    assert bits[i] == Bit(d, 7 - i);
    AppendAssoc(t0, TxOps(level, bits[..i]), SlotOps(out, bits[i]));
  }

  /** After all eight slots every bit of d has been sent. */
  lemma TxProgressDone(t0: seq<PinOp>, level: bv8, d: bv8, trace: seq<PinOp>, out: bv8)
    requires TxProgress(t0, level, d, 8, trace, out)
    ensures trace == t0 + TxOps(level, Bits(d)) && out == TxLevel(level, Bits(d))
  {
    assert Bits(d)[..8] == Bits(d);
  }

  /** Where an exchange of byte d stands after its first i slots, started on
      trace t0 with output levels `level` and read index k: the trace, the output
      levels, the read index and the byte assembled so far. */
  ghost predicate XferProgress(t0: seq<PinOp>, level: bv8, d: bv8, input: seq<bv8>, k: nat, i: nat,
                               trace: seq<PinOp>, out: bv8, count: nat, r: bv8)
  {
    i <= 8
    && trace == t0 + XferOps(level, Bits(d)[..i], input, k)
    && out == TxLevel(level, Bits(d)[..i])
    && count == k + i
    && r == Assemble(MisoBits(input, k)[..i])
  }

  /** One more exchanged slot, and the bit it read shifted in, advance the exchange by one. */
  lemma XferProgressStep(t0: seq<PinOp>, level: bv8, d: bv8, input: seq<bv8>, k: nat, i: nat,
                         trace: seq<PinOp>, out: bv8, count: nat, r: bv8,
                         trace': seq<PinOp>, out': bv8, count': nat, r': bv8)
    requires i < 8 && XferProgress(t0, level, d, input, k, i, trace, out, count, r)
    requires trace' == trace + XferSlotOps(out, Bit(d, 7 - i), InputAt(input, count))
    requires out' == SlotLevel(out, Bit(d, 7 - i)) && count' == count + 1
    requires r' == Shift(r, Miso(InputAt(input, count)))
    ensures XferProgress(t0, level, d, input, k, i + 1, trace', out', count', r')
  {
    var bits, miso := Bits(d), MisoBits(input, k);
    XferSnoc(level, bits, input, k, i);
    AssembleSnoc(miso, i);
    assert bits[i] == Bit(d, 7 - i);
    assert miso[i] == Miso(InputAt(input, count));
    AppendAssoc(t0, XferOps(level, bits[..i], input, k), XferSlotOps(out, bits[i], InputAt(input, count)));
  }

  /** After all eight slots the exchange has sent every bit of d and read a whole byte. */
  lemma XferProgressDone(t0: seq<PinOp>, level: bv8, d: bv8, input: seq<bv8>, k: nat,
                         trace: seq<PinOp>, out: bv8, count: nat, r: bv8)
    requires XferProgress(t0, level, d, input, k, 8, trace, out, count, r)
    ensures trace == t0 + XferOps(level, Bits(d), input, k)
    ensures out == TxLevel(level, Bits(d)) && count == k + 8
    ensures r == Assemble(MisoBits(input, k))
  {
    assert Bits(d)[..8] == Bits(d);
    assert MisoBits(input, k)[..8] == MisoBits(input, k);
  }

  /** Where sending the bytes of data stands after the first j, started on trace
      t0 with output levels `level`. */
  ghost predicate TxBytesProgress(t0: seq<PinOp>, level: bv8, data: seq<bv8>, j: nat, trace: seq<PinOp>, out: bv8)
  {
    j <= |data|
    && trace == t0 + TxOps(level, Flatten(data[..j]))
    && out == TxLevel(level, Flatten(data[..j]))
  }

  /** Sending one more byte advances the sending of data by one. */
  lemma TxBytesProgressStep(t0: seq<PinOp>, level: bv8, data: seq<bv8>, j: nat, trace: seq<PinOp>, out: bv8,
                            trace': seq<PinOp>, out': bv8)
    requires j < |data| && TxBytesProgress(t0, level, data, j, trace, out)
    requires trace' == trace + TxOps(out, Bits(data[j])) && out' == TxLevel(out, Bits(data[j]))
    ensures TxBytesProgress(t0, level, data, j + 1, trace', out')
  {
    FlattenSnoc(data, j);
    TxAppend(level, Flatten(data[..j]), Bits(data[j]));
    AppendAssoc(t0, TxOps(level, Flatten(data[..j])), TxOps(out, Bits(data[j])));
  }

  /** After every byte all of data has been sent. */
  lemma TxBytesProgressDone(t0: seq<PinOp>, level: bv8, data: seq<bv8>, trace: seq<PinOp>, out: bv8)
    requires TxBytesProgress(t0, level, data, |data|, trace, out)
    ensures trace == t0 + TxOps(level, Flatten(data)) && out == TxLevel(level, Flatten(data))
  {
    assert data[..|data|] == data;
  }

  /** Where exchanging the bytes of data stands after the first j, started on
      trace t0 with output levels `level` and read index k: the trace, the output
      levels, the read index and the bytes received. */
  ghost predicate XferBytesProgress(t0: seq<PinOp>, level: bv8, data: seq<bv8>, input: seq<bv8>, k: nat, j: nat,
                                    trace: seq<PinOp>, out: bv8, count: nat, got: seq<bv8>)
  {
    j <= |data|
    && trace == t0 + XferOps(level, Flatten(data[..j]), input, k)
    && out == TxLevel(level, Flatten(data[..j]))
    && count == k + 8 * j
    && got == Received(input, k, j)
  }

  /** Exchanging one more byte, and keeping what it received, advances the exchange by one. */
  lemma XferBytesProgressStep(t0: seq<PinOp>, level: bv8, data: seq<bv8>, input: seq<bv8>, k: nat, j: nat,
                              trace: seq<PinOp>, out: bv8, count: nat, got: seq<bv8>,
                              trace': seq<PinOp>, out': bv8, count': nat, b: bv8)
    requires j < |data| && XferBytesProgress(t0, level, data, input, k, j, trace, out, count, got)
    requires trace' == trace + XferOps(out, Bits(data[j]), input, count)
    requires out' == TxLevel(out, Bits(data[j])) && count' == count + 8
    requires b == Assemble(MisoBits(input, count))
    ensures XferBytesProgress(t0, level, data, input, k, j + 1, trace', out', count', got + [b])
  {
    FlattenSnoc(data, j);
    FlattenLength(data[..j]);
    XferAppend(level, Flatten(data[..j]), Bits(data[j]), input, k);
    TxAppend(level, Flatten(data[..j]), Bits(data[j]));
    AppendAssoc(t0, XferOps(level, Flatten(data[..j]), input, k), XferOps(out, Bits(data[j]), input, count));
    assert got + [b] == Received(input, k, j + 1);
  }

  /** After every byte all of data has been exchanged. */
  lemma XferBytesProgressDone(t0: seq<PinOp>, level: bv8, data: seq<bv8>, input: seq<bv8>, k: nat,
                              trace: seq<PinOp>, out: bv8, count: nat, got: seq<bv8>)
    requires XferBytesProgress(t0, level, data, input, k, |data|, trace, out, count, got)
    ensures trace == t0 + XferOps(level, Flatten(data), input, k) && out == TxLevel(level, Flatten(data))
    ensures count == k + 8 * |data| && got == Received(input, k, |data|)
  {
    assert data[..|data|] == data;
  }

  // ---------------------------------------------------------------------------
  // Shape of a transfer

  lemma {:induction false} TxLength(level: bv8, bits: seq<bool>)
    ensures |TxOps(level, bits)| == 3 * |bits|
  {
    if |bits| > 0 {
      TxLength(level, bits[..|bits| - 1]);
    }
  }

  lemma {:induction false} XferLength(level: bv8, bits: seq<bool>, input: seq<bv8>, k: nat)
    ensures |XferOps(level, bits, input, k)| == 4 * |bits|
  {
    if |bits| > 0 {
      XferLength(level, bits[..|bits| - 1], input, k);
    }
  }

  /** Clocking out bits is three writes per bit: slot i carries bits[i] from the
      levels the earlier slots left. */
  lemma TxSlot(level: bv8, bits: seq<bool>, i: nat)
    requires i < |bits|
    ensures |TxOps(level, bits)| == 3 * |bits|
    ensures TxOps(level, bits)[3 * i..3 * i + 3] == SlotOps(TxLevel(level, bits[..i]), bits[i])
  {
    var before, rest := bits[..i + 1], bits[i + 1..];
    var slot := SlotOps(TxLevel(level, bits[..i]), bits[i]);
    assert bits == before + rest;
    TxLength(level, bits);
    TxAppend(level, before, rest);
    TxSnoc(level, bits, i);
    TxLength(level, bits[..i]);
    SliceLeft(TxOps(level, before), TxOps(TxLevel(level, before), rest), 3 * i, 3 * i + 3);
    SliceRight(TxOps(level, bits[..i]), slot);
    assert TxOps(level, before)[3 * i..3 * i + 3] == TxOps(level, before)[3 * i..];
  }

  /** The first n exchanged slots are the exchange of the first n bits. */
  lemma XferPrefix(level: bv8, bits: seq<bool>, input: seq<bv8>, k: nat, n: nat)
    requires n <= |bits|
    ensures |XferOps(level, bits, input, k)| == 4 * |bits|
    ensures XferOps(level, bits, input, k)[..4 * n] == XferOps(level, bits[..n], input, k)
  {
    assert bits == bits[..n] + bits[n..];
    XferLength(level, bits, input, k);
    XferLength(level, bits[..n], input, k);
    XferAppend(level, bits[..n], bits[n..], input, k);
    PrefixOfAppend(XferOps(level, bits[..n], input, k), XferOps(TxLevel(level, bits[..n]), bits[n..], input, k + n));
  }

  /** Exchanging bits is four operations per bit: the three writes of slot i, then
      the i-th read of the pins. */
  lemma XferSlot(level: bv8, bits: seq<bool>, input: seq<bv8>, k: nat, i: nat)
    requires i < |bits|
    ensures |XferOps(level, bits, input, k)| == 4 * |bits|
    ensures XferOps(level, bits, input, k)[4 * i..4 * i + 4] == XferSlotOps(TxLevel(level, bits[..i]), bits[i], InputAt(input, k + i))
  {
    var ops := XferOps(level, bits, input, k);
    var slot := XferSlotOps(TxLevel(level, bits[..i]), bits[i], InputAt(input, k + i));
    XferPrefix(level, bits, input, k, i + 1);
    XferSnoc(level, bits, input, k, i);
    XferLength(level, bits[..i], input, k);
    SliceOfPrefix(ops, 4 * i, 4 * i + 4);
    SliceRight(XferOps(level, bits[..i], input, k), slot);
  }

  /** Sending byte d: 24 writes; slot i drives SCK low, then MOSI to bit 7-i of d,
      then SCK high, leaving the other pins as they were. */
  lemma TxByteShape(level: bv8, d: bv8, i: nat)
    requires i < 8
    ensures |TxOps(level, Bits(d))| == 24
    ensures TxOps(level, Bits(d))[3 * i..3 * i + 3] == SlotOps(TxLevel(level, Bits(d)[..i]), Bit(d, 7 - i))
  {
    TxSlot(level, Bits(d), i);
  }

  /** Op is a write that drives SCK high. */
  predicate SckHigh(op: PinOp)
  {
    op.Write? && op.level & IO_SPI_SCK != 0
  }

  /** An exchanged slot is four operations: the slot's three writes, the last of
      them raising SCK, then the read. */
  lemma XferSlotShape(level: bv8, bit: bool, v: bv8)
    ensures |XferSlotOps(level, bit, v)| == 4
    ensures XferSlotOps(level, bit, v)[..3] == SlotOps(level, bit)
    ensures SckHigh(XferSlotOps(level, bit, v)[2])
    ensures XferSlotOps(level, bit, v)[3] == Sample(v)
  {
    SlotShape(level, bit);
    assert XferSlotOps(level, bit, v)[2] == SlotOps(level, bit)[2];
  }

  /** Exchanging byte d: 32 operations; slot i carries bit 7-i of d and its read
      returns the i-th pin byte. */
  lemma XferByteShape(level: bv8, d: bv8, input: seq<bv8>, k: nat, i: nat)
    requires i < 8
    ensures |XferOps(level, Bits(d), input, k)| == 32
    ensures XferOps(level, Bits(d), input, k)[4 * i..4 * i + 4]
         == XferSlotOps(TxLevel(level, Bits(d)[..i]), Bit(d, 7 - i), InputAt(input, k + i))
  {
    XferSlot(level, Bits(d), input, k, i);
    assert Bits(d)[i] == Bit(d, 7 - i);
  }

  // ---------------------------------------------------------------------------
  // What the device on the wire sees

  /** A device sees exactly the bits clocked out; once a slot has run the clock is high. */
  lemma {:induction false} TxDecode(sck: bool, level: bv8, bits: seq<bool>)
    ensures Decode(sck, TxOps(level, bits)) == bits
    ensures SckAfter(sck, TxOps(level, bits)) == (|bits| > 0 || sck)
    decreases |bits|
  {
    if |bits| > 0 {
      var front := bits[..|bits| - 1];
      TxDecode(sck, level, front);
      DecodeAppend(sck, TxOps(level, front), SlotOps(TxLevel(level, front), bits[|bits| - 1]));
      SlotDecode(SckAfter(sck, TxOps(level, front)), TxLevel(level, front), bits[|bits| - 1]);
      assert bits == front + [bits[|bits| - 1]];
    }
  }

  /** An exchange drives exactly the writes of sending the same bits; the reads in
      between do not touch the wire. */
  lemma {:induction false} XferWrites(level: bv8, bits: seq<bool>, input: seq<bv8>, k: nat)
    ensures Writes(XferOps(level, bits, input, k)) == TxOps(level, bits)
    decreases |bits|
  {
    if |bits| > 0 {
      var front := bits[..|bits| - 1];
      var slot := SlotOps(TxLevel(level, front), bits[|bits| - 1]);
      var sample := [Sample(InputAt(input, k + |front|))];
      XferWrites(level, front, input, k);
      WritesAppend(XferOps(level, front, input, k), slot + sample);
      WritesAppend(slot, sample);
      SlotWrites(TxLevel(level, front), bits[|bits| - 1]);
      assert Writes(sample) == [];
    }
  }

  /** Reads do not move the wire: a device sees the same bits in ops as in its writes. */
  lemma {:induction false} DecodeOnlySeesWrites(sck: bool, ops: seq<PinOp>)
    ensures Decode(sck, Writes(ops)) == Decode(sck, ops)
    ensures SckAfter(sck, Writes(ops)) == SckAfter(sck, ops)
    decreases |ops|
  {
    if |ops| > 0 {
      var head := if ops[0].Sample? then [] else [ops[0]];
      var next := if ops[0].Write? then ops[0].level & IO_SPI_SCK != 0 else sck;
      DecodeOnlySeesWrites(next, ops[1..]);
      DecodeAppend(sck, head, Writes(ops[1..]));
      if head != [] {
        assert [ops[0]][1..] == [];
      }
    }
  }

  /** Every output level written while clocking keeps the non-SPI pins of the
      starting levels (the flash select among them), and so does the final level. */
  lemma {:induction false} TxKeepsOtherPins(level: bv8, bits: seq<bool>)
    ensures KeepsOtherPins(level, TxOps(level, bits))
    ensures TxLevel(level, bits) & !(IO_SPI_SCK | IO_SPI_MOSI) == level & !(IO_SPI_SCK | IO_SPI_MOSI)
    decreases |bits|
  {
    if |bits| > 0 {
      var front := bits[..|bits| - 1];
      TxKeepsOtherPins(level, front);
      SlotKeepsOtherPins(level, TxLevel(level, front), bits[|bits| - 1]);
      KeepsAppend(level, TxOps(level, front), SlotOps(TxLevel(level, front), bits[|bits| - 1]));
    }
  }

  /** After clocking out at least one bit, SCK is high and MOSI holds the last bit. */
  lemma ClockEndsHigh(level: bv8, bits: seq<bool>)
    requires |bits| > 0
    ensures TxLevel(level, bits) & IO_SPI_SCK == IO_SPI_SCK
    ensures TxLevel(level, bits) & IO_SPI_MOSI == if bits[|bits| - 1] then IO_SPI_MOSI else 0
  {
  }

  /** Grouping the wire bits of data eight at a time gives back data. */
  lemma {:induction false} UnpackFlatten(data: seq<bv8>)
    ensures Unpack(Flatten(data)) == data
  {
    if |data| > 0 {
      var front := data[..|data| - 1];
      var bits := Flatten(data);
      FlattenLength(front);
      assert bits[..|bits| - 8] == Flatten(front);
      assert bits[|bits| - 8..] == Bits(data[|data| - 1]);
      UnpackFlatten(front);
      AssembleOfBits(data[|data| - 1]);
    }
  }

  /** Round trip over the wire: a device that collects MOSI at every clock rise and
      groups the bits into bytes receives exactly the bytes sent. */
  lemma WireRoundTrip(sck: bool, level: bv8, data: seq<bv8>)
    ensures Unpack(Decode(sck, TxOps(level, Flatten(data)))) == data
  {
    TxDecode(sck, level, Flatten(data));
    UnpackFlatten(data);
  }

  /** Round trip of a full exchange: the device on the wire receives the bytes the
      buffer held before the exchange. */
  lemma XferWireRoundTrip(sck: bool, level: bv8, data: seq<bv8>, input: seq<bv8>, k: nat)
    ensures Unpack(Decode(sck, XferOps(level, Flatten(data), input, k))) == data
  {
    DecodeOnlySeesWrites(sck, XferOps(level, Flatten(data), input, k));
    XferWrites(level, Flatten(data), input, k);
    WireRoundTrip(sck, level, data);
  }

  /** The received byte holds the first read's MISO bit in bit 7 and the eighth
      read's in bit 0. */
  lemma ReceivedBits(input: seq<bv8>, k: nat, i: nat)
    requires i < 8
    ensures Bit(Assemble(MisoBits(input, k)), 7 - i) == Miso(InputAt(input, k + i))
  {
    AssembleBit(MisoBits(input, k), 7 - i);
  }

  /** Loopback: when every read shows on MISO the bit just put on MOSI, the bytes
      received are the bytes sent. */
  lemma Loopback(data: seq<bv8>, input: seq<bv8>, k: nat)
    requires forall j :: 0 <= j < |data| ==> MisoBits(input, k + 8 * j) == Bits(data[j])
    ensures Received(input, k, |data|) == data
  {
    forall j | 0 <= j < |data|
      ensures Received(input, k, |data|)[j] == data[j]
    {
      AssembleOfBits(data[j]);
    }
  }

  /** The filler holds MOSI high at every one of its 8n clock rises. */
  lemma FillerKeepsMosiHigh(sck: bool, level: bv8, n: nat)
    ensures Decode(sck, TxOps(level, Flatten(Filler(n)))) == seq(8 * n, _ => true)
  {
    TxDecode(sck, level, Flatten(Filler(n)));
    FillerBits(n);
  }

  lemma {:induction false} FillerBits(n: nat)
    ensures Flatten(Filler(n)) == seq(8 * n, _ => true)
  {
    if n > 0 {
      assert Filler(n)[..n - 1] == Filler(n - 1);
      FillerBits(n - 1);
      assert Bits(0xFF) == seq(8, _ => true);
    }
  }
}
