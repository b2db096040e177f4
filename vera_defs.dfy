/** Register map and VGA 640x480@60 timing constants of the VERA video chip,
    as the simulation driver sees them. */
module VeraDefs {

  /** Width of the chip's external register address bus. */
  const BUS_ADDRESS_BITS := 5

  /** An offset on the 5-bit register bus. */
  type RegOffset = r: int | 0 <= r < 0x20

  /** An address in the chip's 17-bit video memory. */
  type VramAddress = a: int | 0 <= a < 0x20000

  /** Where the register window sits in the host CPU's address space. */
  const VERA_BASE := 0x9F20

  const VERA_ADDR_L: RegOffset := 0x00
  const VERA_ADDR_M: RegOffset := 0x01
  const VERA_ADDR_H: RegOffset := 0x02
  const VERA_DATA0: RegOffset := 0x03
  const VERA_DATA1: RegOffset := 0x04
  const VERA_CTRL: RegOffset := 0x05

  const VERA_IEN: RegOffset := 0x06
  const VERA_ISR: RegOffset := 0x07
  const VERA_IRQ_LINE_L: RegOffset := 0x08

  const VERA_DC_VIDEO: RegOffset := 0x09
  const VERA_DC_HSCALE: RegOffset := 0x0A
  const VERA_DC_VSCALE: RegOffset := 0x0B
  const VERA_DC_BORDER: RegOffset := 0x0C

  // The second display-composer bank shares the offsets of the first.
  const VERA_DC_HSTART: RegOffset := 0x09
  const VERA_DC_HSTOP: RegOffset := 0x0A
  const VERA_DC_VSTART: RegOffset := 0x0B
  const VERA_DC_VSTOP: RegOffset := 0x0C

  const VERA_L0_CONFIG: RegOffset := 0x0D
  const VERA_L0_MAPBASE: RegOffset := 0x0E
  const VERA_L0_TILEBASE: RegOffset := 0x0F
  const VERA_L0_HSCROLL_L: RegOffset := 0x10
  const VERA_L0_HSCROLL_H: RegOffset := 0x11
  const VERA_L0_VSCROLL_L: RegOffset := 0x12
  const VERA_L0_VSCROLL_H: RegOffset := 0x13

  const VERA_L1_CONFIG: RegOffset := 0x14
  const VERA_L1_MAPBASE: RegOffset := 0x15
  const VERA_L1_TILEBASE: RegOffset := 0x16
  const VERA_L1_HSCROLL_L: RegOffset := 0x17
  const VERA_L1_HSCROLL_H: RegOffset := 0x18
  const VERA_L1_VSCROLL_L: RegOffset := 0x19
  const VERA_L1_VSCROLL_H: RegOffset := 0x1A

  const VERA_AUDIO_CTRL: RegOffset := 0x1B
  const VERA_AUDIO_RATE: RegOffset := 0x1C
  const VERA_AUDIO_DATA: RegOffset := 0x1D

  const VERA_SPI_DATA: RegOffset := 0x1E
  const VERA_SPI_CTRL: RegOffset := 0x1F

  const VERA_PSG_BASE: VramAddress := 0x1F9C0
  const VERA_PALETTE_BASE: VramAddress := 0x1FA00
  const VERA_SPRITES_BASE: VramAddress := 0x1FC00

  /** Every register name, the display-composer aliases included, in header order. */
  const REGISTERS: seq<RegOffset> := [
    VERA_ADDR_L, VERA_ADDR_M, VERA_ADDR_H, VERA_DATA0, VERA_DATA1, VERA_CTRL,
    VERA_IEN, VERA_ISR, VERA_IRQ_LINE_L,
    VERA_DC_VIDEO, VERA_DC_HSCALE, VERA_DC_VSCALE, VERA_DC_BORDER,
    VERA_DC_HSTART, VERA_DC_HSTOP, VERA_DC_VSTART, VERA_DC_VSTOP,
    VERA_L0_CONFIG, VERA_L0_MAPBASE, VERA_L0_TILEBASE,
    VERA_L0_HSCROLL_L, VERA_L0_HSCROLL_H, VERA_L0_VSCROLL_L, VERA_L0_VSCROLL_H,
    VERA_L1_CONFIG, VERA_L1_MAPBASE, VERA_L1_TILEBASE,
    VERA_L1_HSCROLL_L, VERA_L1_HSCROLL_H, VERA_L1_VSCROLL_L, VERA_L1_VSCROLL_H,
    VERA_AUDIO_CTRL, VERA_AUDIO_RATE, VERA_AUDIO_DATA,
    VERA_SPI_DATA, VERA_SPI_CTRL]

  /** The registers without the four aliases: one name per bus offset. */
  const PRIMARY_REGISTERS: seq<RegOffset> := REGISTERS[..13] + REGISTERS[17..]

  // VGA mode 640x480 @ 60Hz
  const VISIBLE_WIDTH := 640
  const VISIBLE_HEIGHT := 480
  const H_FRONT_PORCH := 16
  const H_SYNC_PULSE := 96
  const H_BACK_PORCH := 48
  const V_FRONT_PORCH := 10
  const V_SYNC_PULSE := 2
  const V_BACK_PORCH := 33
  /** Active level of the sync pulses: 0 is active-low, anything else active-high. */
  const H_SYNC_POLARITY := 0
  const V_SYNC_POLARITY := 0
  const TOTAL_WIDTH := H_FRONT_PORCH + H_SYNC_PULSE + H_BACK_PORCH + VISIBLE_WIDTH
  const TOTAL_HEIGHT := V_FRONT_PORCH + V_SYNC_PULSE + V_BACK_PORCH + VISIBLE_HEIGHT
  const OFFSCREEN_WIDTH := TOTAL_WIDTH - VISIBLE_WIDTH
  const OFFSCREEN_HEIGHT := TOTAL_HEIGHT - VISIBLE_HEIGHT

  /** The scan geometry of the 640x480@60 mode. */
  lemma Geometry()
    ensures TOTAL_WIDTH == 800 && TOTAL_HEIGHT == 525
    ensures OFFSCREEN_WIDTH == 160 && OFFSCREEN_WIDTH == H_FRONT_PORCH + H_SYNC_PULSE + H_BACK_PORCH
    ensures OFFSCREEN_HEIGHT == 45 && OFFSCREEN_HEIGHT == V_FRONT_PORCH + V_SYNC_PULSE + V_BACK_PORCH
  {
  }

  /** Both sync pulses are active-low. */
  lemma SyncPolarities()
    ensures H_SYNC_POLARITY == 0 && V_SYNC_POLARITY == 0
  {
  }

  /** Every register offset fits the 5-bit bus, SPI_CTRL is the largest, and the
      primary registers name the offsets 0x00..0x1F once each, in order. */
  lemma RegisterMap()
    ensures forall k :: 0 <= k < |REGISTERS| ==> 0 <= REGISTERS[k] <= VERA_SPI_CTRL < 0x20
    ensures VERA_SPI_CTRL == 0x1F
    ensures |PRIMARY_REGISTERS| == 0x20
    ensures forall k :: 0 <= k < |PRIMARY_REGISTERS| ==> PRIMARY_REGISTERS[k] == k
  {
    assert REGISTERS[..13] == [0x00, 0x01, 0x02, 0x03, 0x04, 0x05, 0x06, 0x07, 0x08, 0x09, 0x0A, 0x0B, 0x0C];
    assert REGISTERS[17..] == [0x0D, 0x0E, 0x0F, 0x10, 0x11, 0x12, 0x13, 0x14, 0x15, 0x16, 0x17, 0x18, 0x19, 0x1A, 0x1B, 0x1C, 0x1D, 0x1E, 0x1F];
  }

  /** The second display-composer bank aliases the first pairwise. */
  lemma DisplayComposerAliases()
    ensures VERA_DC_HSTART == VERA_DC_VIDEO == 0x09
    ensures VERA_DC_HSTOP == VERA_DC_HSCALE == 0x0A
    ensures VERA_DC_VSTART == VERA_DC_VSCALE == 0x0B
    ensures VERA_DC_VSTOP == VERA_DC_BORDER == 0x0C
  {
  }

  /** The register window starts on a 32-byte boundary, so the host address of
      every register is the base with the 5-bit offset in its low bits. */
  lemma RegisterWindow(r: RegOffset)
    ensures VERA_BASE % 0x20 == 0
    ensures (VERA_BASE + r) / 0x20 == VERA_BASE / 0x20 && (VERA_BASE + r) % 0x20 == r
  {
  }

  /** The VRAM regions are strictly ordered and lie within 17-bit address space. */
  lemma VramRegions()
    ensures VERA_PSG_BASE < VERA_PALETTE_BASE < VERA_SPRITES_BASE < 0x20000
  {
  }
}
