# VERA simulation frame detector and flash-programmer SPI driver

This project models two small pieces of the VERA video chip's tooling and
proves properties about them.

- **VeraVsim** (`vera_vsim.dfy`) is the frame detector in the Verilator
  simulation driver's tick loop. Each tick clocks the simulated chip through
  both phases and samples its horizontal and vertical sync pins. It reads them
  through the configured polarities and detects the end of every sync pulse.
  From those edges it counts columns, rows, pulse widths and sync lines, and
  records the widest line and the tallest frame. The frame number locks when
  a frame is exactly as tall as the VGA scan. A log line is kept for every
  frame past the first locked one. The loop stops when the operator's
  interrupt sets the stop flag, when the frame cap is reached, or when the
  simulated chip finishes.
  - The per-tick update is the pure function `Step` on a `Detector` value, and
    the whole loop is `Loop`.
  - The class `Driver` holds the driver's variables as fields. Its methods
    perform the same updates in place. Each method's contract ties the new
    state to the pure function applied to the old state.
- **VeraDefs** (`vera_defs.dfy`) holds the constants the detector uses: the
  5-bit register map, the VRAM region bases, and the 640x480@60 timing with
  its sync polarities.
- **UsbPins** and **UsbSpi** (`usb_pins.dfy`, `usb_spi.dfy`) are the
  programmer tool's pin-level driver. It bit-bangs SPI to the board's flash
  over the eight pins of an FTDI USB-serial cable in asynchronous bit-bang
  mode.
  - `FtdiPort` stands in for the cable. It records every direction change,
    output write and pin read in one trace, in order. Its k-th read returns
    the k-th byte of a given input sequence.
  - `Programmer` keeps the driver's direction mask, output-level mask and
    "SPI pins brought up" flag.
  - Each SPI routine is specified by the exact trace it appends. The trace is
    a pure function of the bits sent, the starting output levels and the pin
    bytes read.
  - Lemmas about those trace functions prove the following:
    - the clocking shape: each bit is SCK low, then MOSI, then SCK high, then
      the MISO read;
    - that a mode-0 device on the wire receives exactly the bytes sent;
    - that bytes are received MSB first;
    - that the other pins, flash select among them, are never disturbed;
    - that a loopback returns the bytes sent.

Where the system's design description and the code differ, the model follows
the code:

- A frame is logged only once the frame number is above 0. The design says a
  frame is logged for any frame number from 0 up.
- When a frame's height does not match the scan, a mismatch is logged only if
  the frame is taller than the scan. A shorter frame is passed over silently.
- At the frame cap the loop breaks at once, mid-tick, before the previous
  vsync level is stored. It does not go through the stop flag.
- The pulse widths are counted in ticks.

The code names the MISO pin's mask `PIX_RX`; here it is `PIN_RX`.

## Model

| member | source | states |
|---|---|---|
| VeraDefs.Geometry | fpga/source/sim/vera_defs.h:51-66 | the total scan is 800 by 525; the off-screen width 160 and height 45 are each the sum of their porches and sync pulse |
| VeraDefs.SyncPolarities | fpga/source/sim/vera_defs.h:61-62 | both sync pulses are configured active-low (polarity 0) |
| VeraDefs.RegisterMap | fpga/source/sim/vera_defs.h:3-45 | every register offset, aliases included, lies in 0x00..0x1F with SPI_CTRL = 0x1F the largest; without the four aliases the registers name each offset 0x00..0x1F exactly once, in order |
| VeraDefs.DisplayComposerAliases | fpga/source/sim/vera_defs.h:14-22 | DC_HSTART..DC_VSTOP alias DC_VIDEO..DC_BORDER pairwise at 0x09..0x0C |
| VeraDefs.RegisterWindow | fpga/source/sim/vera_defs.h:1-45 | the register window base is 32-byte aligned, so each register's host address is the base with the 5-bit offset in its low bits |
| VeraDefs.VramRegions | fpga/source/sim/vera_defs.h:47-49 | PSG < PALETTE < SPRITES < 0x20000 (the regions lie in 17-bit VRAM) |
| VeraVsim.SyncNormalisation | fpga/source/sim/vera_vsim.cpp:244-245 | with polarity 0 the active level is the inverse of the pin, with polarity 1 it is the pin; this mode's pulses are both read inverted |
| VeraVsim.LineStage | fpga/source/sim/vera_vsim.cpp:226-286 | a tick is the line stage followed by the frame stage; the line stage adds 2 to the time, counts a row and updates the widest line exactly at the end of an hsync pulse, and leaves the frame fields alone |
| VeraVsim.FrameStage | fpga/source/sim/vera_vsim.cpp:288-373 | field by field effect of the frame stage: at the end of a vsync pulse it records the tallest frame, logs a frame past frame 0, restarts the frame clock and counters, breaks at the cap, and otherwise locks or logs a mismatch; any other tick changes none of these |
| VeraVsim.StepClock | fpga/source/sim/vera_vsim.cpp:226-280 | each tick adds exactly 2 to the time, and 1 to the column unless it ends an hsync pulse, which leaves the column at 0 |
| VeraVsim.StepPulseWidth | fpga/source/sim/vera_vsim.cpp:262-275 | the pulse-width counter counts active ticks and is cleared only where an hsync pulse ends; there the frame's widest pulse becomes the max and the narrowest the smaller (or the count when none yet), unless the same tick ends the frame, which clears both |
| VeraVsim.StepLineEnd | fpga/source/sim/vera_vsim.cpp:268-285 | at the end of an hsync pulse the widest line becomes the max with the column, a row is counted, and a vsync line is counted exactly when vsync is active |
| VeraVsim.StepDetectFlags | fpga/source/sim/vera_vsim.cpp:265-297 | the hsync and vsync detect flags are set on exactly the ticks that end the respective pulse |
| VeraVsim.StepFrameEnd | fpga/source/sim/vera_vsim.cpp:295-356 | at the end of a vsync pulse the tallest frame becomes the max with the rows less one, the frame clock restarts and the row, pulse-width and vsync-line counters are cleared; otherwise the frame clock and tallest frame are unchanged |
| VeraVsim.StepFrameNumber | fpga/source/sim/vera_vsim.cpp:358-370 | the loop breaks exactly at a frame end with the frame number on the cap; otherwise the frame number rises by one exactly at a frame end whose tallest frame matches the scan height, and a taller frame is logged as a mismatch |
| VeraVsim.StepFrameLog | fpga/source/sim/vera_vsim.cpp:301-317 | a frame end with frame number above 0 appends one report carrying the frame number, the time, half the clock since the frame start and the height; no other tick logs; the first frame's start is taken only where frame 1 ends |
| VeraVsim.StepMonotone | fpga/source/sim/vera_vsim.cpp:268-299 | the widest line and the tallest frame never decrease in a tick |
| VeraVsim.InitialInv | fpga/source/sim/vera_vsim.cpp:203-211 | the initial state (frame number -1, all counters 0) satisfies the detector invariant |
| VeraVsim.StepInv | fpga/source/sim/vera_vsim.cpp:226-373 | every tick preserves the invariant: frame number in -1..cap, time ahead of the frame start by an even amount, counters non-negative, narrowest pulse at most the widest, vsync lines at most the rows |
| VeraVsim.LoopInv | fpga/source/sim/vera_vsim.cpp:223-373 | the invariant holds wherever the loop exits, so the frame number never exceeds the cap; the loop takes at most one tick per sample |
| VeraVsim.LoopFrameCap | fpga/source/sim/vera_vsim.cpp:358-361 | the loop breaks at the frame cap only with the frame number equal to the cap |
| VeraVsim.LoopMonotone | fpga/source/sim/vera_vsim.cpp:277-299 | over a whole run the widest line and the tallest frame never decrease |
| VeraVsim.MismatchIsPermanent | fpga/source/sim/vera_vsim.cpp:363-370 | once a frame taller than the scan has been seen the frame number never changes again |
| VeraVsim.QuietTicks | fpga/source/sim/vera_vsim.cpp:233-356 | ticks that end no frame add 2 each to the time and leave the frame clock, the frame number and the log unchanged |
| VeraVsim.FrameLength | fpga/source/sim/vera_vsim.cpp:301-307 | the logged frame length is the number of ticks since the previous end of frame: the quiet ticks plus the one ending the frame |
| VeraVsim.Driver.constructor | fpga/source/sim/vera_vsim.cpp:203-211 | the driver starts in the initial detector state with the stop flag clear |
| VeraVsim.Driver.CtrlC | fpga/source/sim/vera_vsim.cpp:63-67 | the interrupt handler sets the stop flag and changes nothing else |
| VeraVsim.Driver.Tick | fpga/source/sim/vera_vsim.cpp:226-373 | one loop iteration updates the fields exactly as Step does and reports its break |
| VeraVsim.Driver.ClockAndCount | fpga/source/sim/vera_vsim.cpp:226-263 | the two clock phases and the column and pulse-width counters, as Advance |
| VeraVsim.Driver.EndOfLine | fpga/source/sim/vera_vsim.cpp:265-286 | the hsync edge handling, as LineEnd |
| VeraVsim.Driver.EndOfPulse | fpga/source/sim/vera_vsim.cpp:270-275 | the pulse-width statistics at the end of a pulse, as PulseEnd |
| VeraVsim.Driver.NextLine | fpga/source/sim/vera_vsim.cpp:277-284 | the line counters at the end of a line, as NewLine |
| VeraVsim.Driver.EndOfFrame | fpga/source/sim/vera_vsim.cpp:288-373 | the vsync edge handling, including the break at the cap before the previous level is updated, as FrameEnd |
| VeraVsim.Driver.RecordFrame | fpga/source/sim/vera_vsim.cpp:298-317 | the tallest frame, first frame start and log line at a frame end, as FrameRecord |
| VeraVsim.Driver.ResetFrame | fpga/source/sim/vera_vsim.cpp:352-356 | the frame clock restart and counter clearing, as FrameReset |
| VeraVsim.Driver.LockFrame | fpga/source/sim/vera_vsim.cpp:363-370 | the frame lock or mismatch, as FrameLock |
| VeraVsim.Driver.Run | fpga/source/sim/vera_vsim.cpp:223-373 | the while loop over the samples ends in the state, stop flag, exit reason and tick count that Loop gives |
| UsbPins.PinAssignment | programmer/programmer_tool_win32/usb.c:35-77 | reset and flash select share one pin; SCK, MOSI, MISO, select and CDONE are otherwise distinct; the initial outputs 0x15 leave MISO and CDONE inputs |
| UsbPins.PinName | programmer/programmer_tool_win32/usb.c:51-75 | a mask equal to one pin's bit gets that pin's name; "???" when bits 0..7 are clear; "MULTI" when a low bit is set and the mask is no single pin's (other bits, above bit 7 too) |
| UsbPins.SetBits | programmer/programmer_tool_win32/usb.c:290-315 | setting or clearing the pin bits of a mask gives exactly those bits the new value and leaves every other bit as it was |
| UsbPins.AssembleOfBits | programmer/programmer_tool_win32/usb.c:445-458 | shifting a byte's MSB-first wire bits back in gives the byte |
| UsbPins.BitsOfAssemble | programmer/programmer_tool_win32/usb.c:445-458 | eight bits shifted in read back MSB first as the same eight bits |
| UsbPins.ReceivedBits | programmer/programmer_tool_win32/usb.c:445-458 | the byte received holds the i-th MISO sample in bit 7-i: the first sample becomes bit 7 |
| UsbPins.SlotShape | programmer/programmer_tool_win32/usb.c:451-453 | a slot is three writes: SCK low with the rest kept, MOSI set to the bit with SCK low, SCK high with MOSI held |
| UsbPins.SlotDecode | programmer/programmer_tool_win32/usb.c:451-453 | a mode-0 device sees exactly one bit per slot, the data bit, and the clock ends high |
| UsbPins.TxByteShape | programmer/programmer_tool_win32/usb.c:476-485 | sending a byte is 24 writes; slot i is SCK low, MOSI = bit 7-i, SCK high |
| UsbPins.XferSlotShape | programmer/programmer_tool_win32/usb.c:449-455 | an exchanged slot is the slot's three writes, the last raising SCK, then the pin read |
| UsbPins.XferByteShape | programmer/programmer_tool_win32/usb.c:445-458 | exchanging a byte is 32 operations; slot i carries bit 7-i and its read returns the i-th pin byte |
| UsbPins.TxDecode | programmer/programmer_tool_win32/usb.c:476-499 | a device collecting MOSI at each SCK rise receives exactly the bits clocked out |
| UsbPins.XferWrites | programmer/programmer_tool_win32/usb.c:445-458 | an exchange drives exactly the writes of sending the same bits |
| UsbPins.DecodeOnlySeesWrites | programmer/programmer_tool_win32/usb.c:317-324 | pin reads do not move the wire |
| UsbPins.TxKeepsOtherPins | programmer/programmer_tool_win32/usb.c:479-484 | clocking never changes a pin other than SCK and MOSI, flash select included |
| UsbPins.ClockEndsHigh | programmer/programmer_tool_win32/usb.c:479-484 | after at least one bit SCK is left high and MOSI holds the last bit |
| UsbPins.UnpackFlatten | programmer/programmer_tool_win32/usb.c:487-499 | grouping the wire bits of a byte sequence eight at a time gives it back |
| UsbPins.WireRoundTrip | programmer/programmer_tool_win32/usb.c:487-499 | the device receives exactly the bytes sent |
| UsbPins.XferWireRoundTrip | programmer/programmer_tool_win32/usb.c:460-474 | in an exchange the device receives exactly the bytes the buffer held before it |
| UsbPins.Loopback | programmer/programmer_tool_win32/usb.c:460-474 | when each read shows on MISO the bit just put on MOSI, the bytes received are the bytes sent |
| UsbPins.FillerKeepsMosiHigh | programmer/programmer_tool_win32/usb.c:501-511 | the 0xFF filler holds MOSI high at all of its 8n clock rises |
| UsbPins.FillerBits | programmer/programmer_tool_win32/usb.c:501-511 | the wire bits of n filler bytes are 8n ones |
| UsbSpi.InitEffect | programmer/programmer_tool_win32/usb.c:366-384 | bring-up is four direction changes and three writes; it leaves SSEL, SCK and MOSI outputs driven low, MISO an input, and every other pin's direction and level as before |
| UsbSpi.InitKeepsInitialDirections | programmer/programmer_tool_win32/usb.c:77-384 | from the program's initial masks bring-up keeps the directions and drives every pin low |
| UsbSpi.FtdiPort.SetBitMode | programmer/programmer_tool_win32/usb.c:298 | a direction change is appended to the trace |
| UsbSpi.FtdiPort.Write | programmer/programmer_tool_win32/usb.c:309 | an output write of the whole level byte is appended to the trace |
| UsbSpi.FtdiPort.GetBitMode | programmer/programmer_tool_win32/usb.c:321-322 | a read returns the next input byte (0 past the end) and is appended to the trace |
| UsbSpi.Programmer.constructor | programmer/programmer_tool_win32/usb.c:77-87 | initial direction mask 0x15, output levels 0, SPI pins not brought up |
| UsbSpi.Programmer.IoSetMode | programmer/programmer_tool_win32/usb.c:290-299 | IN clears exactly the pin bits of the direction mask, OUT sets them; the whole mask goes to the cable once |
| UsbSpi.Programmer.IoOut | programmer/programmer_tool_win32/usb.c:301-315 | sets or clears exactly the pin bits of the output levels and writes the whole byte once |
| UsbSpi.Programmer.IoIn | programmer/programmer_tool_win32/usb.c:317-324 | one pin read; the result is whether any of the pin bits is high |
| UsbSpi.Programmer.SpiInit | programmer/programmer_tool_win32/usb.c:366-384 | idempotent: while the pins are up nothing happens; otherwise the bring-up trace is appended and the flag set |
| UsbSpi.Programmer.UsbDeinit | programmer/programmer_tool_win32/usb.c:357-364 | clears the brought-up flag only |
| UsbSpi.Programmer.SpiSelect | programmer/programmer_tool_win32/usb.c:434-443 | drives the active-low select line to the inverse of `on` with one write |
| UsbSpi.Programmer.ClockBit | programmer/programmer_tool_win32/usb.c:451-453 | one slot's three writes |
| UsbSpi.Programmer.XferBit | programmer/programmer_tool_win32/usb.c:451-454 | one slot's writes then one read, returning MISO |
| UsbSpi.Programmer.SpiTxByte | programmer/programmer_tool_win32/usb.c:476-485 | appends the eight MSB-first slots of the byte, nothing more |
| UsbSpi.Programmer.SpiXferByte | programmer/programmer_tool_win32/usb.c:445-458 | appends the eight exchanged slots and returns the eight MISO samples assembled MSB first |
| UsbSpi.Programmer.SpiXfer | programmer/programmer_tool_win32/usb.c:460-474 | replaces each of the first `length` bytes in index order by the byte received while it was sent, leaves the rest of the buffer, and appends the exchange of the old contents |
| UsbSpi.Programmer.XferByteAt | programmer/programmer_tool_win32/usb.c:469-473 | one iteration of the exchange loop advances the exchange by one byte in place |
| UsbSpi.Programmer.SpiTx | programmer/programmer_tool_win32/usb.c:487-499 | appends the slots of the first `length` bytes in index order, no reads |
| UsbSpi.Programmer.SpiTxFF | programmer/programmer_tool_win32/usb.c:501-511 | appends the slots of `length` 0xFF bytes, no reads |
| UsbSpi.Programmer.SpiTransfer | programmer/programmer_tool_win32/usb.c:513-554 | length 0 does no I/O; with the pins up, both buffers exchange in place, tx alone transmits, rx alone does nothing, neither clocks out 0xFF filler; with the pins down only a tx buffer is sent |

## Left out

- Rendering, screenshots, window and keyboard polling, FST waveform tracing, log files and console output of the simulation driver are sinks or user interface. The frame log lines and the "line >= TOTAL_HEIGHT" messages are kept as the `reports` and `mismatches` sequences.
- The floating-point millisecond and frequency figures are not integer tick arithmetic, so they are left out. The pixel clock constant is left out with them.
- The Verilator chip model (`eval`, `final`) and the "finished" test are replaced by a sequence of sampled sync pin levels. The input running out stands for the chip finishing.
- Signal wiring and argument parsing are environment plumbing. The interrupt is an input flag that arrives during a tick and is read by the next loop test.
- The screenshot triggers are left out, and so is the window-closed break, because both belong to the rendering build.
- VeraVsim.Driver.Run: the counters are unbounded integers. The 64-bit `main_time` and `int` counters could wrap only after far more ticks than any run takes, so wrap-around is not modelled.
- FTDI device listing, opening, closing and latency setup are foreign library calls. So are the status codes, the short-write diagnostic and the `Sleep`/`udelay` delays. The cable is the `FtdiPort` trace instead, and a failed read returns 0, as the code's zero-initialised buffer does.
- `hexdump`, the `LOG` output, the commented-out libusb code, `usb_init`, `get_cdone`, `start_mass_erase` and `spi_set_mode` are logging, dead code or stubs.
- UsbSpi.Programmer.SpiSelect: the mode is a constant set to flash mode and nothing changes it, so the select is modelled as unconditional.
- UsbSpi.Programmer.SpiTransfer: the code asserts that the two buffers are the same buffer when both are given to an active exchange. This is a precondition here.
- UsbSpi.Programmer.SpiXfer: the code's early return for length 0 is not a separate branch. With length 0 the loop does nothing, which is the same effect.
- The `pin` and `int` parameters of the pin routines are bytes here. Every mask the code passes fits in a byte, and the masks it updates are `uint8_t`. Only the naming routine takes the full 32-bit `int`.
