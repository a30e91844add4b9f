/**
 * The register model of the Phytium DDMA controller: the bit-exact layout of
 * the global block and of the eight per-channel blocks, the named bit-fields of
 * each register, and the controller-side helpers that read or read-modify-write
 * one register word for one channel.
 */
module Reg {
  import opened Fields

  // ---------------------------------------------------------------------------
  // Layout (byte offsets from the controller's base)
  // ---------------------------------------------------------------------------

  const MAX_CHANNELS: nat := 8
  /** Size of one channel's register block. */
  const CHANNEL_REGISTER_SIZE: nat := 0x40
  /** Offset of channel 0's register block. */
  const CHANNEL_BASE_OFFSET: nat := 0x40
  /** End of the controller's register block. */
  const DDMA_REGISTER_END: nat := 0x224
  /** The reserved gap between the last global register and channel 0. */
  const GLOBAL_RESERVED_OFFSET: nat := 0x2C
  const GLOBAL_RESERVED_SIZE: nat := 0x14
  /** The byte array that covers the channel blocks up to the end of the controller's block. */
  const CHANNEL_AREA_SIZE: nat := 0x1E4
  /** The reserved tail of a channel block, after its last named register. */
  const CHANNEL_RESERVED_OFFSET: nat := 0x24
  const CHANNEL_RESERVED_SIZE: nat := 0x1C

  datatype GlobalRegister =
    | DmaCtl | DmaChalConfig | DmaStat | DmaMaskInt
    | DmaUpaxiAwconfig | DmaUpaxiArconfig | DmaDwnaxiAwconfig | DmaDwnaxiArconfig
    | DmaChannelBind | DmaGcap | DmaChalConfig1

  /** Where each global register lives; all are word-aligned and lie before the reserved gap. */
  function GlobalOffset(r: GlobalRegister): (off: nat)
    ensures off % 4 == 0 && off + 4 <= GLOBAL_RESERVED_OFFSET
  {
    match r
    case DmaCtl => 0x00
    case DmaChalConfig => 0x04
    case DmaStat => 0x08
    case DmaMaskInt => 0x0C
    case DmaUpaxiAwconfig => 0x10
    case DmaUpaxiArconfig => 0x14
    case DmaDwnaxiAwconfig => 0x18
    case DmaDwnaxiArconfig => 0x1C
    case DmaChannelBind => 0x20
    case DmaGcap => 0x24
    case DmaChalConfig1 => 0x28
  }

  datatype ChannelRegister =
    | DdrUpaddr | DdrLwaddr | DevAddr | Ts | CrtUpaddr | CrtLwaddr | Ctl | Sts | TimeoutCnt

  /** Where each register lives inside a channel block; all lie before the block's reserved tail. */
  function ChannelOffset(r: ChannelRegister): (off: nat)
    ensures off % 4 == 0 && off + 4 <= CHANNEL_RESERVED_OFFSET
  {
    match r
    case DdrUpaddr => 0x00
    case DdrLwaddr => 0x04
    case DevAddr => 0x08
    case Ts => 0x0C
    case CrtUpaddr => 0x10
    case CrtLwaddr => 0x14
    case Ctl => 0x18
    case Sts => 0x1C
    case TimeoutCnt => 0x20
  }

  /** Where channel `c`'s register block starts. */
  function ChannelBase(c: nat): nat
  {
    CHANNEL_BASE_OFFSET + CHANNEL_REGISTER_SIZE * c
  }

  /**
   * The byte offset of register `r` of channel `c`. It lies inside the
   * controller's block, after every global register, and determines both the
   * channel and the register, so no two channel registers overlap.
   */
  function ChannelRegisterAddress(c: nat, r: ChannelRegister): (off: nat)
    requires c < MAX_CHANNELS
    ensures GLOBAL_RESERVED_OFFSET + GLOBAL_RESERVED_SIZE <= off
    ensures off + 4 <= DDMA_REGISTER_END
    ensures off % 4 == 0
    ensures (off - CHANNEL_BASE_OFFSET) / CHANNEL_REGISTER_SIZE == c
    ensures (off - CHANNEL_BASE_OFFSET) % CHANNEL_REGISTER_SIZE == ChannelOffset(r)
  {
    ChannelBase(c) + ChannelOffset(r)
  }

  /**
   * The last named register of every channel block (the timeout counter) ends
   * at or before the end of the controller's block, exactly at it for channel 7;
   * only channel 7's reserved tail reaches past it.
   */
  lemma LastChannelRegisterEnd(c: nat)
    requires c < MAX_CHANNELS
    ensures ChannelRegisterAddress(c, TimeoutCnt) + 4 <= DDMA_REGISTER_END
    ensures ChannelRegisterAddress(c, TimeoutCnt) + 4 == DDMA_REGISTER_END <==> c == MAX_CHANNELS - 1
    ensures ChannelBase(c) + CHANNEL_REGISTER_SIZE <= DDMA_REGISTER_END <==> c < MAX_CHANNELS - 1
  {
  }

  /**
   * The reserved runs close the two register blocks: the channel area runs
   * from channel 0's block to the end of the controller's block, and a
   * channel block's reserved tail ends where the next block starts.
   */
  lemma ReservedRunsCloseBlocks()
    ensures GLOBAL_RESERVED_OFFSET + GLOBAL_RESERVED_SIZE == CHANNEL_BASE_OFFSET
    ensures CHANNEL_BASE_OFFSET + CHANNEL_AREA_SIZE == DDMA_REGISTER_END
    ensures CHANNEL_RESERVED_OFFSET + CHANNEL_RESERVED_SIZE == CHANNEL_REGISTER_SIZE
  {
  }

  /** No two registers of the same block share an offset. */
  lemma OffsetsDistinct()
    ensures forall a, b :: GlobalOffset(a) == GlobalOffset(b) ==> a == b
    ensures forall a, b :: ChannelOffset(a) == ChannelOffset(b) ==> a == b
  {
  }

  /** The channel offsets the register documentation quotes (0x58, 0x5C, 0x60 + 0x40 * x). */
  lemma DocumentedChannelAddresses(c: nat)
    requires c < MAX_CHANNELS
    ensures ChannelRegisterAddress(c, Ctl) == 0x58 + 0x40 * c
    ensures ChannelRegisterAddress(c, Sts) == 0x5C + 0x40 * c
    ensures ChannelRegisterAddress(c, TimeoutCnt) == 0x60 + 0x40 * c
  {
  }

  // ---------------------------------------------------------------------------
  // Bit-fields
  // ---------------------------------------------------------------------------

  /**
   * The fields `fs[i..]` partition the bits of a register from bit `start`
   * up: the first starts at `start`, each next one starts where the previous
   * one ends, and the last ends at bit 32.
   */
  predicate TilesFrom(fs: seq<Field>, i: nat, start: nat)
    requires i <= |fs|
    decreases |fs| - i
  {
    if i == |fs| then start == WIDTH
    else fs[i].Valid() && fs[i].shift == start && TilesFrom(fs, i + 1, fs[i].shift + fs[i].width)
  }

  /** The fields of a register partition its 32 bits. */
  predicate Tiles(fs: seq<Field>)
  {
    |fs| > 0 && TilesFrom(fs, 0, 0)
  }

  // DMA_CTL (0x00)
  const DMA_ENABLE := Field(0, 1)
  const DMA_SRST := Field(1, 1)
  const DMA_CTL_RESERVED := Field(2, 30)

  // DMA_CHAL_CONFIG (0x04): request-line select and its enable flag, channels 0-3
  const CHAL0_SEL := Field(0, 7)
  const CHAL0_SEL_EN := Field(7, 1)
  const CHAL1_SEL := Field(8, 7)
  const CHAL1_SEL_EN := Field(15, 1)
  const CHAL2_SEL := Field(16, 7)
  const CHAL2_SEL_EN := Field(23, 1)
  const CHAL3_SEL := Field(24, 7)
  const CHAL3_SEL_EN := Field(31, 1)

  // DMA_CHAL_CONFIG1 (0x28): the same layout for channels 4-7
  const CHAL4_SEL := Field(0, 7)
  const CHAL4_SEL_EN := Field(7, 1)
  const CHAL5_SEL := Field(8, 7)
  const CHAL5_SEL_EN := Field(15, 1)
  const CHAL6_SEL := Field(16, 7)
  const CHAL6_SEL_EN := Field(23, 1)
  const CHAL7_SEL := Field(24, 7)
  const CHAL7_SEL_EN := Field(31, 1)

  // DMA_STAT (0x08): one completion bit per channel, three reserved bits after each
  const STAT_CHAL0_SEL := Field(0, 1)
  const STAT_RESERVED0 := Field(1, 3)
  const STAT_CHAL1_SEL := Field(4, 1)
  const STAT_RESERVED1 := Field(5, 3)
  const STAT_CHAL2_SEL := Field(8, 1)
  const STAT_RESERVED2 := Field(9, 3)
  const STAT_CHAL3_SEL := Field(12, 1)
  const STAT_RESERVED3 := Field(13, 3)
  const STAT_CHAL4_SEL := Field(16, 1)
  const STAT_RESERVED4 := Field(17, 3)
  const STAT_CHAL5_SEL := Field(20, 1)
  const STAT_RESERVED5 := Field(21, 3)
  const STAT_CHAL6_SEL := Field(24, 1)
  const STAT_RESERVED6 := Field(25, 3)
  const STAT_CHAL7_SEL := Field(28, 1)
  const STAT_RESERVED7 := Field(29, 3)

  // DMA_MASK_INT (0x0C): one mask bit per channel and the global interrupt enable
  const CHAL0_MASK := Field(0, 1)
  const CHAL1_MASK := Field(1, 1)
  const CHAL2_MASK := Field(2, 1)
  const CHAL3_MASK := Field(3, 1)
  const CHAL4_MASK := Field(4, 1)
  const CHAL5_MASK := Field(5, 1)
  const CHAL6_MASK := Field(6, 1)
  const CHAL7_MASK := Field(7, 1)
  const MASK_INT_RESERVED := Field(8, 23)
  const GLOBAL_EN := Field(31, 1)

  // DMA_CHANNEL_BIND (0x20)
  const DMA_CHANNEL_BIND := Field(0, 8)
  const CHANNEL_BIND_RESERVED := Field(8, 24)

  // DMA_GCAP (0x24), read-only
  const DMA_GCAP := Field(0, 32)

  // DMA_CHALX_CTL (channel block + 0x18)
  const CHALX_EN := Field(0, 1)
  const CHALX_SRST := Field(1, 1)
  const CHALX_MODE := Field(2, 1)
  const CHALX_CTL_RESERVED := Field(3, 29)
  /** CHALX_MODE values: serve the peripheral's transmit or receive request. */
  const MODE_TX: Word := FromBool(false)
  const MODE_RX: Word := FromBool(true)

  // DMA_CHALX_STS (channel block + 0x1C)
  const FIFO_FULL := Field(0, 1)
  const FIFO_EMPTY := Field(1, 1)
  const CHALX_STS_RESERVED := Field(2, 30)

  // DMA_CHALX_TIMEOUT_CNT (channel block + 0x20)
  const TIMEOUT_CNT := Field(0, 30)
  const TIMEOUT_RESERVED := Field(30, 1)
  const TIMEOUT_EN := Field(31, 1)

  const DMA_CTL_FIELDS := [DMA_ENABLE, DMA_SRST, DMA_CTL_RESERVED]
  const DMA_CHAL_CONFIG_FIELDS :=
    [CHAL0_SEL, CHAL0_SEL_EN, CHAL1_SEL, CHAL1_SEL_EN, CHAL2_SEL, CHAL2_SEL_EN, CHAL3_SEL, CHAL3_SEL_EN]
  const DMA_CHAL_CONFIG1_FIELDS :=
    [CHAL4_SEL, CHAL4_SEL_EN, CHAL5_SEL, CHAL5_SEL_EN, CHAL6_SEL, CHAL6_SEL_EN, CHAL7_SEL, CHAL7_SEL_EN]
  const DMA_STAT_FIELDS :=
    [STAT_CHAL0_SEL, STAT_RESERVED0, STAT_CHAL1_SEL, STAT_RESERVED1,
     STAT_CHAL2_SEL, STAT_RESERVED2, STAT_CHAL3_SEL, STAT_RESERVED3,
     STAT_CHAL4_SEL, STAT_RESERVED4, STAT_CHAL5_SEL, STAT_RESERVED5,
     STAT_CHAL6_SEL, STAT_RESERVED6, STAT_CHAL7_SEL, STAT_RESERVED7]
  const DMA_MASK_INT_FIELDS :=
    [CHAL0_MASK, CHAL1_MASK, CHAL2_MASK, CHAL3_MASK, CHAL4_MASK, CHAL5_MASK, CHAL6_MASK, CHAL7_MASK,
     MASK_INT_RESERVED, GLOBAL_EN]
  const DMA_CHANNEL_BIND_FIELDS := [DMA_CHANNEL_BIND, CHANNEL_BIND_RESERVED]
  const DMA_GCAP_FIELDS := [DMA_GCAP]
  const DMA_CHALX_CTL_FIELDS := [CHALX_EN, CHALX_SRST, CHALX_MODE, CHALX_CTL_RESERVED]
  const DMA_CHALX_STS_FIELDS := [FIFO_FULL, FIFO_EMPTY, CHALX_STS_RESERVED]
  const DMA_CHALX_TIMEOUT_CNT_FIELDS := [TIMEOUT_CNT, TIMEOUT_RESERVED, TIMEOUT_EN]

  /** The fields of the DMA_CTL register cover its 32 bits exactly once. */
  lemma DmaCtlFieldsTile()
    ensures Tiles(DMA_CTL_FIELDS)
  {
    var fs := DMA_CTL_FIELDS;
    assert TilesFrom(fs, 3, 32);
    assert TilesFrom(fs, 2, 2);
    assert TilesFrom(fs, 1, 1);
  }

  /** The fields of the DMA_CHAL_CONFIG register cover its 32 bits exactly once. */
  lemma DmaChalConfigFieldsTile()
    ensures Tiles(DMA_CHAL_CONFIG_FIELDS)
  {
    var fs := DMA_CHAL_CONFIG_FIELDS;
    assert TilesFrom(fs, 8, 32);
    assert TilesFrom(fs, 7, 31);
    assert TilesFrom(fs, 6, 24);
    assert TilesFrom(fs, 5, 23);
    assert TilesFrom(fs, 4, 16);
    assert TilesFrom(fs, 3, 15);
    assert TilesFrom(fs, 2, 8);
    assert TilesFrom(fs, 1, 7);
  }

  /** The fields of the DMA_CHAL_CONFIG1 register cover its 32 bits exactly once. */
  lemma DmaChalConfig1FieldsTile()
    ensures Tiles(DMA_CHAL_CONFIG1_FIELDS)
  {
    var fs := DMA_CHAL_CONFIG1_FIELDS;
    assert TilesFrom(fs, 8, 32);
    assert TilesFrom(fs, 7, 31);
    assert TilesFrom(fs, 6, 24);
    assert TilesFrom(fs, 5, 23);
    assert TilesFrom(fs, 4, 16);
    assert TilesFrom(fs, 3, 15);
    assert TilesFrom(fs, 2, 8);
    assert TilesFrom(fs, 1, 7);
  }

  /** The fields of the DMA_STAT register cover its 32 bits exactly once. */
  lemma DmaStatFieldsTile()
    ensures Tiles(DMA_STAT_FIELDS)
  {
    var fs := DMA_STAT_FIELDS;
    assert TilesFrom(fs, 16, 32);
    assert TilesFrom(fs, 15, 29);
    assert TilesFrom(fs, 14, 28);
    assert TilesFrom(fs, 13, 25);
    assert TilesFrom(fs, 12, 24);
    assert TilesFrom(fs, 11, 21);
    assert TilesFrom(fs, 10, 20);
    assert TilesFrom(fs, 9, 17);
    assert TilesFrom(fs, 8, 16);
    assert TilesFrom(fs, 7, 13);
    assert TilesFrom(fs, 6, 12);
    assert TilesFrom(fs, 5, 9);
    assert TilesFrom(fs, 4, 8);
    assert TilesFrom(fs, 3, 5);
    assert TilesFrom(fs, 2, 4);
    assert TilesFrom(fs, 1, 1);
  }

  /** The fields of the DMA_MASK_INT register cover its 32 bits exactly once. */
  lemma DmaMaskIntFieldsTile()
    ensures Tiles(DMA_MASK_INT_FIELDS)
  {
    var fs := DMA_MASK_INT_FIELDS;
    assert TilesFrom(fs, 10, 32);
    assert TilesFrom(fs, 9, 31);
    assert TilesFrom(fs, 8, 8);
    assert TilesFrom(fs, 7, 7);
    assert TilesFrom(fs, 6, 6);
    assert TilesFrom(fs, 5, 5);
    assert TilesFrom(fs, 4, 4);
    assert TilesFrom(fs, 3, 3);
    assert TilesFrom(fs, 2, 2);
    assert TilesFrom(fs, 1, 1);
  }

  /** The fields of the DMA_CHANNEL_BIND register cover its 32 bits exactly once. */
  lemma DmaChannelBindFieldsTile()
    ensures Tiles(DMA_CHANNEL_BIND_FIELDS)
  {
    var fs := DMA_CHANNEL_BIND_FIELDS;
    assert TilesFrom(fs, 2, 32);
    assert TilesFrom(fs, 1, 8);
  }

  /** The fields of the DMA_GCAP register cover its 32 bits exactly once. */
  lemma DmaGcapFieldsTile()
    ensures Tiles(DMA_GCAP_FIELDS)
  {
    var fs := DMA_GCAP_FIELDS;
    assert TilesFrom(fs, 1, 32);
  }

  /** The fields of the DMA_CHALX_CTL register cover its 32 bits exactly once. */
  lemma ChalxCtlFieldsTile()
    ensures Tiles(DMA_CHALX_CTL_FIELDS)
  {
    var fs := DMA_CHALX_CTL_FIELDS;
    assert TilesFrom(fs, 4, 32);
    assert TilesFrom(fs, 3, 3);
    assert TilesFrom(fs, 2, 2);
    assert TilesFrom(fs, 1, 1);
  }

  /** The fields of the DMA_CHALX_STS register cover its 32 bits exactly once. */
  lemma ChalxStsFieldsTile()
    ensures Tiles(DMA_CHALX_STS_FIELDS)
  {
    var fs := DMA_CHALX_STS_FIELDS;
    assert TilesFrom(fs, 3, 32);
    assert TilesFrom(fs, 2, 2);
    assert TilesFrom(fs, 1, 1);
  }

  /** The fields of the DMA_CHALX_TIMEOUT_CNT register cover its 32 bits exactly once. */
  lemma ChalxTimeoutCntFieldsTile()
    ensures Tiles(DMA_CHALX_TIMEOUT_CNT_FIELDS)
  {
    var fs := DMA_CHALX_TIMEOUT_CNT_FIELDS;
    assert TilesFrom(fs, 3, 32);
    assert TilesFrom(fs, 2, 31);
    assert TilesFrom(fs, 1, 30);
  }

  /** A single-bit field is set exactly when its bit is. */
  lemma IsSetSingleBit(w: Word, f: Field)
    requires f.Valid() && f.width == 1
    ensures IsSet(w, f) <==> w[f.shift]
  {
    if w[f.shift] {
      assert f.shift <= f.shift < f.shift + f.width && w[f.shift];
    }
  }

  // ---------------------------------------------------------------------------
  // Per-channel fields: the named field each helper picks for channel `c`
  // ---------------------------------------------------------------------------

  /** Where channel `c`'s byte starts in its configuration register. */
  function SlotShift(c: nat): nat
    requires c < MAX_CHANNELS
  {
    8 * (c % 4)
  }

  /** The configuration register that holds channel `c`'s byte. */
  function ConfigRegister(c: nat): (r: GlobalRegister)
    requires c < MAX_CHANNELS
    ensures r == DmaChalConfig <==> c < 4
    ensures r == DmaChalConfig1 <==> 4 <= c
  {
    if c < 4 then DmaChalConfig else DmaChalConfig1
  }

  /** The request-line select field of channel `c`: the 7 low bits of its byte. */
  function ChalSel(c: nat): (f: Field)
    requires c < MAX_CHANNELS
    ensures f.Valid() && f == Field(SlotShift(c), 7)
  {
    match c
    case 0 => CHAL0_SEL
    case 1 => CHAL1_SEL
    case 2 => CHAL2_SEL
    case 3 => CHAL3_SEL
    case 4 => CHAL4_SEL
    case 5 => CHAL5_SEL
    case 6 => CHAL6_SEL
    case _ => CHAL7_SEL
  }

  /** The select-enable flag of channel `c`: the top bit of its byte. */
  function ChalSelEn(c: nat): (f: Field)
    requires c < MAX_CHANNELS
    ensures f.Valid() && f == Field(SlotShift(c) + 7, 1)
  {
    match c
    case 0 => CHAL0_SEL_EN
    case 1 => CHAL1_SEL_EN
    case 2 => CHAL2_SEL_EN
    case 3 => CHAL3_SEL_EN
    case 4 => CHAL4_SEL_EN
    case 5 => CHAL5_SEL_EN
    case 6 => CHAL6_SEL_EN
    case _ => CHAL7_SEL_EN
  }

  /** Channel `c`'s completion bit in DMA_STAT: bit 4c. */
  function StatChal(c: nat): (f: Field)
    requires c < MAX_CHANNELS
    ensures f.Valid() && f == Field(4 * c, 1)
  {
    match c
    case 0 => STAT_CHAL0_SEL
    case 1 => STAT_CHAL1_SEL
    case 2 => STAT_CHAL2_SEL
    case 3 => STAT_CHAL3_SEL
    case 4 => STAT_CHAL4_SEL
    case 5 => STAT_CHAL5_SEL
    case 6 => STAT_CHAL6_SEL
    case _ => STAT_CHAL7_SEL
  }

  /** Channel `c`'s interrupt mask bit in DMA_MASK_INT: bit c. */
  function ChalMask(c: nat): (f: Field)
    requires c < MAX_CHANNELS
    ensures f.Valid() && f == Field(c, 1)
  {
    match c
    case 0 => CHAL0_MASK
    case 1 => CHAL1_MASK
    case 2 => CHAL2_MASK
    case 3 => CHAL3_MASK
    case 4 => CHAL4_MASK
    case 5 => CHAL5_MASK
    case 6 => CHAL6_MASK
    case _ => CHAL7_MASK
  }

  // ---------------------------------------------------------------------------
  // Request-line selection
  // ---------------------------------------------------------------------------

  /** `CHALc_SEL.val(sel) + CHALc_SEL_EN.val(enable as u32)`. */
  function ConfigUpdate(c: nat, sel: Word, enable: bool): FieldValue
    requires c < MAX_CHANNELS
  {
    Combine(Val(ChalSel(c), sel), Val(ChalSelEn(c), FromBool(enable)))
  }

  /**
   * `after` is `before` with channel `c`'s byte programmed: the select field
   * holds the 7 low bits of `sel`, the enable flag is `enable`, and every bit
   * outside the byte is as it was.
   */
  predicate SlotProgrammed(before: Word, after: Word, c: nat, sel: Word, enable: bool)
    requires c < MAX_CHANNELS
  {
    && (forall k :: 0 <= k < WIDTH && !(SlotShift(c) <= k < SlotShift(c) + 8) ==> after[k] == before[k])
    && Read(after, ChalSel(c)) == Read(sel, Field(0, 7))
    && after[SlotShift(c) + 7] == enable
  }

  lemma ConfigUpdateProgramsSlot(w: Word, c: nat, sel: Word, enable: bool)
    requires c < MAX_CHANNELS
    ensures SlotProgrammed(w, Apply(w, ConfigUpdate(c, sel, enable)), c, sel, enable)
  {
  }

  // ---------------------------------------------------------------------------
  // Interrupt mask
  // ---------------------------------------------------------------------------

  /** `CHALc_MASK.val(mask as u32)`. */
  function MaskUpdate(c: nat, mask: bool): FieldValue
    requires c < MAX_CHANNELS
  {
    Val(ChalMask(c), FromBool(mask))
  }

  /** The mask update sets bit c to `mask` and keeps every other bit, GLOBAL_EN (bit 31) included. */
  lemma MaskUpdateBit(w: Word, c: nat, mask: bool)
    requires c < MAX_CHANNELS
    ensures var r := Apply(w, MaskUpdate(c, mask));
      && r[c] == mask
      && (forall k :: 0 <= k < WIDTH && k != c ==> r[k] == w[k])
      && r[GLOBAL_EN.shift] == w[GLOBAL_EN.shift]
  {
  }

  // ---------------------------------------------------------------------------
  // Completion status (write-one-to-clear)
  // ---------------------------------------------------------------------------

  /**
   * DMA_STAT is write-one-to-clear: writing `w` clears every status bit that
   * is set in `w` and leaves the others as they were.
   */
  function StatusAfterWrite(s: Word, w: Word): Word
  {
    AndNot(s, w)
  }

  /** The word `clear_channel_complete` writes: the status it read with bit 4c set (`modify(CHALc_SEL::SET)`). */
  function ClearWriteAsWritten(s: Word, c: nat): Word
    requires c < MAX_CHANNELS
  {
    Apply(s, SetField(StatChal(c)))
  }

  /** The word a clear of channel `c` should write: bit 4c alone (`write(CHALc_SEL::SET)`). */
  function ClearWrite(c: nat): Word
    requires c < MAX_CHANNELS
  {
    WriteValue(SetField(StatChal(c)))
  }

  /**
   * The read-modify-write clear writes back every status bit it read, so it
   * clears every pending completion, not only channel `c`'s.
   */
  lemma ClearAsWrittenClearsAll(s: Word, c: nat)
    requires c < MAX_CHANNELS
    ensures StatusAfterWrite(s, ClearWriteAsWritten(s, c)) == Zero()
  {
    var r := StatusAfterWrite(s, ClearWriteAsWritten(s, c));
    assert forall k :: 0 <= k < WIDTH ==> r[k] == false;
  }

  /** Channels 0 and 1 both complete: clearing channel 0 as written also loses channel 1's completion. */
  lemma ClearAsWrittenLosesOtherChannel()
    ensures var s := Or(Bit(0), Bit(4));
      && s[4 * 1]
      && !StatusAfterWrite(s, ClearWriteAsWritten(s, 0))[4 * 1]
  {
    var s := Or(Bit(0), Bit(4));
    assert s[4];
    ClearAsWrittenClearsAll(s, 0);
  }

  /** Writing bit 4c alone clears channel `c`'s completion and keeps every other status bit. */
  lemma ClearWriteEffect(s: Word, c: nat)
    requires c < MAX_CHANNELS
    ensures var r := StatusAfterWrite(s, ClearWrite(c));
      && !r[4 * c]
      && (forall k :: 0 <= k < WIDTH && k != 4 * c ==> r[k] == s[k])
  {
  }

  /** Clearing a channel twice is clearing it once. */
  lemma ClearWriteIdempotent(s: Word, c: nat)
    requires c < MAX_CHANNELS
    ensures StatusAfterWrite(StatusAfterWrite(s, ClearWrite(c)), ClearWrite(c)) == StatusAfterWrite(s, ClearWrite(c))
  {
  }

  // ---------------------------------------------------------------------------
  // Channel bind bitmap
  // ---------------------------------------------------------------------------

  /** The channels whose bit is set in a DMA_CHANNEL_BIND word. */
  function BoundChannels(w: Word): set<nat>
  {
    set c: nat | c < MAX_CHANNELS && w[c]
  }

  /** `w | (1 << c)` or `w & !(1 << c)`. */
  function BindWord(w: Word, c: nat, bind: bool): Word
    requires c < MAX_CHANNELS
  {
    if bind then Or(w, Bit(c)) else AndNot(w, Bit(c))
  }

  /** Binding adds `c` to the bound channels, unbinding removes it; the reserved bits are kept. */
  lemma BindWordEffect(w: Word, c: nat, bind: bool)
    requires c < MAX_CHANNELS
    ensures BoundChannels(BindWord(w, c, bind)) ==
      if bind then BoundChannels(w) + {c} else BoundChannels(w) - {c}
    ensures forall k :: MAX_CHANNELS <= k < WIDTH ==> BindWord(w, c, bind)[k] == w[k]
  {
    var r := BindWord(w, c, bind);
    var want := if bind then BoundChannels(w) + {c} else BoundChannels(w) - {c};
    forall d | d in BoundChannels(r)
      ensures d in want
    {
    }
    forall d | d in want
      ensures d in BoundChannels(r)
    {
    }
  }

  // ---------------------------------------------------------------------------
  // Register accesses
  // ---------------------------------------------------------------------------

  /** A register of the controller: a global one, or one in channel `block`'s block. */
  datatype Register =
    | Global(g: GlobalRegister)
    | PerChannel(block: nat, r: ChannelRegister)

  /** One access the driver makes to the controller, in program order. */
  datatype Access =
    | Load(reg: Register)
    | Store(reg: Register, value: Word)

  /** The memory-mapped bus shared by the controller's global and channel registers; it records every access made through it. */
  class Bus {
    ghost var log: seq<Access>

    constructor ()
      ensures log == []
    {
      log := [];
    }
  }

  // ---------------------------------------------------------------------------
  // The controller's global registers
  // ---------------------------------------------------------------------------

  /**
   * The global registers the per-channel helpers use. Every helper that
   * modifies a register reads it and writes it back through the bus.
   */
  class DdmaRegister {
    const bus: Bus
    var dmaChalConfig: Word
    var dmaStat: Word
    var dmaMaskInt: Word
    var dmaChannelBind: Word
    var dmaChalConfig1: Word

    constructor (bus: Bus, chalConfig: Word, stat: Word, maskInt: Word, channelBind: Word, chalConfig1: Word)
      ensures this.bus == bus
      ensures dmaChalConfig == chalConfig && dmaStat == stat && dmaMaskInt == maskInt
      ensures dmaChannelBind == channelBind && dmaChalConfig1 == chalConfig1
    {
      this.bus := bus;
      dmaChalConfig := chalConfig;
      dmaStat := stat;
      dmaMaskInt := maskInt;
      dmaChannelBind := channelBind;
      dmaChalConfig1 := chalConfig1;
    }

    /**
     * Programs channel `c`'s request-line select and its enable flag in
     * DMA_CHAL_CONFIG (channels 0-3) or DMA_CHAL_CONFIG1 (channels 4-7); the
     * other configuration register is not touched.
     */
    method SetChannelConfig(c: nat, sel: Word, enable: bool)
      requires c < MAX_CHANNELS
      modifies this, bus
      ensures c < 4 ==> SlotProgrammed(old(dmaChalConfig), dmaChalConfig, c, sel, enable)
      ensures c < 4 ==> dmaChalConfig == Apply(old(dmaChalConfig), ConfigUpdate(c, sel, enable))
      ensures c < 4 ==> dmaChalConfig1 == old(dmaChalConfig1)
      ensures 4 <= c ==> SlotProgrammed(old(dmaChalConfig1), dmaChalConfig1, c, sel, enable)
      ensures 4 <= c ==> dmaChalConfig1 == Apply(old(dmaChalConfig1), ConfigUpdate(c, sel, enable))
      ensures 4 <= c ==> dmaChalConfig == old(dmaChalConfig)
      ensures dmaStat == old(dmaStat) && dmaMaskInt == old(dmaMaskInt) && dmaChannelBind == old(dmaChannelBind)
      ensures var r := Global(ConfigRegister(c));
        bus.log == old(bus.log) + [Load(r), Store(r, if c < 4 then dmaChalConfig else dmaChalConfig1)]
    {
      var r := Global(ConfigRegister(c));
      bus.log := bus.log + [Load(r)];
      if c < 4 {
        ConfigUpdateProgramsSlot(dmaChalConfig, c, sel, enable);
        dmaChalConfig := Apply(dmaChalConfig, ConfigUpdate(c, sel, enable));
        bus.log := bus.log + [Store(r, dmaChalConfig)];
      } else {
        ConfigUpdateProgramsSlot(dmaChalConfig1, c, sel, enable);
        dmaChalConfig1 := Apply(dmaChalConfig1, ConfigUpdate(c, sel, enable));
        bus.log := bus.log + [Store(r, dmaChalConfig1)];
      }
    }

    /**
     * Sets channel `c`'s interrupt mask bit to `mask`, keeping every other
     * bit; a channel past the last one is ignored.
     */
    method SetChannelInterruptMask(c: nat, mask: bool)
      modifies this, bus
      ensures c < MAX_CHANNELS ==> dmaMaskInt == Apply(old(dmaMaskInt), MaskUpdate(c, mask))
      ensures c < MAX_CHANNELS ==> dmaMaskInt[c] == mask
      ensures c < MAX_CHANNELS ==> forall k :: 0 <= k < WIDTH && k != c ==> dmaMaskInt[k] == old(dmaMaskInt)[k]
      ensures c < MAX_CHANNELS ==>
        bus.log == old(bus.log) + [Load(Global(DmaMaskInt)), Store(Global(DmaMaskInt), dmaMaskInt)]
      ensures MAX_CHANNELS <= c ==> dmaMaskInt == old(dmaMaskInt) && bus.log == old(bus.log)
      ensures dmaChalConfig == old(dmaChalConfig) && dmaChalConfig1 == old(dmaChalConfig1)
      ensures dmaStat == old(dmaStat) && dmaChannelBind == old(dmaChannelBind)
    {
      if c < MAX_CHANNELS {
        bus.log := bus.log + [Load(Global(DmaMaskInt))];
        MaskUpdateBit(dmaMaskInt, c, mask);
        dmaMaskInt := Apply(dmaMaskInt, MaskUpdate(c, mask));
        bus.log := bus.log + [Store(Global(DmaMaskInt), dmaMaskInt)];
      }
    }

    /** Whether channel `c` has completed a block transfer: its bit 4c; false past the last channel. */
    function IsChannelComplete(c: nat): (r: bool)
      reads this
      ensures r <==> c < MAX_CHANNELS && dmaStat[4 * c]
    {
      if c < MAX_CHANNELS then
        IsSetSingleBit(dmaStat, StatChal(c));
        IsSet(dmaStat, StatChal(c))
      else
        false
    }

    /**
     * Clears channel `c`'s completion as the driver writes it: a
     * read-modify-write that writes back the status it read with bit 4c set.
     * On a write-one-to-clear register this clears every pending completion.
     */
    method ClearChannelCompleteAsWritten(c: nat)
      modifies this, bus
      ensures c < MAX_CHANNELS ==> dmaStat == Zero()
      ensures c < MAX_CHANNELS ==>
        bus.log == old(bus.log) + [Load(Global(DmaStat)), Store(Global(DmaStat), ClearWriteAsWritten(old(dmaStat), c))]
      ensures MAX_CHANNELS <= c ==> dmaStat == old(dmaStat) && bus.log == old(bus.log)
      ensures dmaChalConfig == old(dmaChalConfig) && dmaChalConfig1 == old(dmaChalConfig1)
      ensures dmaMaskInt == old(dmaMaskInt) && dmaChannelBind == old(dmaChannelBind)
    {
      if c < MAX_CHANNELS {
        bus.log := bus.log + [Load(Global(DmaStat))];
        var w := ClearWriteAsWritten(dmaStat, c);
        ClearAsWrittenClearsAll(dmaStat, c);
        dmaStat := StatusAfterWrite(dmaStat, w);
        bus.log := bus.log + [Store(Global(DmaStat), w)];
      }
    }

    /**
     * Clears channel `c`'s completion by writing bit 4c alone: that
     * completion is cleared and every other one is kept.
     */
    method ClearChannelComplete(c: nat)
      modifies this, bus
      ensures c < MAX_CHANNELS ==> !IsChannelComplete(c)
      ensures c < MAX_CHANNELS ==> forall k :: 0 <= k < WIDTH && k != 4 * c ==> dmaStat[k] == old(dmaStat)[k]
      ensures c < MAX_CHANNELS ==> bus.log == old(bus.log) + [Store(Global(DmaStat), ClearWrite(c))]
      ensures MAX_CHANNELS <= c ==> dmaStat == old(dmaStat) && bus.log == old(bus.log)
      ensures dmaChalConfig == old(dmaChalConfig) && dmaChalConfig1 == old(dmaChalConfig1)
      ensures dmaMaskInt == old(dmaMaskInt) && dmaChannelBind == old(dmaChannelBind)
    {
      if c < MAX_CHANNELS {
        ClearWriteEffect(dmaStat, c);
        dmaStat := StatusAfterWrite(dmaStat, ClearWrite(c));
        bus.log := bus.log + [Store(Global(DmaStat), ClearWrite(c))];
      }
    }

    /** Whether channel `c` is bound: `(bind & (1 << c)) != 0`; false past the last channel. */
    function IsChannelBind(c: nat): (r: bool)
      reads this
      ensures r <==> c in BoundChannels(dmaChannelBind)
    {
      c < MAX_CHANNELS && exists k :: 0 <= k < WIDTH && dmaChannelBind[k] && Bit(c)[k]
    }

    /**
     * Binds or unbinds channel `c` by a read and a plain write of the bind
     * word; a channel past the last one is ignored.
     */
    method SetChannelBind(c: nat, bind: bool)
      modifies this, bus
      ensures c < MAX_CHANNELS ==> IsChannelBind(c) == bind
      ensures c < MAX_CHANNELS ==>
        BoundChannels(dmaChannelBind) ==
          (if bind then BoundChannels(old(dmaChannelBind)) + {c} else BoundChannels(old(dmaChannelBind)) - {c})
      ensures forall k :: MAX_CHANNELS <= k < WIDTH ==> dmaChannelBind[k] == old(dmaChannelBind)[k]
      ensures c < MAX_CHANNELS ==>
        bus.log == old(bus.log) + [Load(Global(DmaChannelBind)), Store(Global(DmaChannelBind), dmaChannelBind)]
      ensures MAX_CHANNELS <= c ==> dmaChannelBind == old(dmaChannelBind) && bus.log == old(bus.log)
      ensures dmaChalConfig == old(dmaChalConfig) && dmaChalConfig1 == old(dmaChalConfig1)
      ensures dmaStat == old(dmaStat) && dmaMaskInt == old(dmaMaskInt)
    {
      if c >= MAX_CHANNELS {
        return;
      }
      bus.log := bus.log + [Load(Global(DmaChannelBind))];
      BindWordEffect(dmaChannelBind, c, bind);
      dmaChannelBind := BindWord(dmaChannelBind, c, bind);
      bus.log := bus.log + [Store(Global(DmaChannelBind), dmaChannelBind)];
    }
  }

  // ---------------------------------------------------------------------------
  // One channel's register block
  // ---------------------------------------------------------------------------

  /** `d - 1`, stopping at 0. */
  function Decrement(d: nat): nat
  {
    if d > 0 then d - 1 else 0
  }

  /**
   * An update that covers the EN bit writes the same word whether EN was
   * read back set or clear.
   */
  lemma EnUpdateHidesEn(w: Word, fv: FieldValue)
    requires fv.mask[CHALX_EN.shift]
    ensures Apply(w[CHALX_EN.shift := true], fv) == Apply(w, fv)
  {
  }

  /**
   * The register block of channel `block`. The control register is backed by
   * the hardware: once software clears EN while the channel runs, EN still
   * reads back set for `stopLatency` further reads of the control register
   * while the channel finishes its current transfer (`drain` counts the reads
   * left).
   */
  class ChannelRegisters {
    const bus: Bus
    const block: nat
    const stopLatency: nat
    var ddrUpaddr: Word
    var ddrLwaddr: Word
    var devAddr: Word
    var ts: Word
    var crtUpaddr: Word
    var crtLwaddr: Word
    var ctl: Word
    var sts: Word
    var timeoutCnt: Word
    var drain: nat

    /** The channel drains only after EN was cleared. */
    ghost predicate Valid()
      reads this
    {
      drain > 0 ==> !ctl[CHALX_EN.shift]
    }

    /** The control word a read returns: EN reads back set while the channel drains. */
    function VisibleCtl(): Word
      reads this
    {
      if drain > 0 then ctl[CHALX_EN.shift := true] else ctl
    }

    /** The word stored in register `r`. */
    function Get(r: ChannelRegister): Word
      reads this
    {
      match r
      case DdrUpaddr => ddrUpaddr
      case DdrLwaddr => ddrLwaddr
      case DevAddr => devAddr
      case Ts => ts
      case CrtUpaddr => crtUpaddr
      case CrtLwaddr => crtLwaddr
      case Ctl => ctl
      case Sts => sts
      case TimeoutCnt => timeoutCnt
    }

    /** A block holding `init(r)` in every register `r`, with the channel not draining. */
    constructor (bus: Bus, block: nat, stopLatency: nat, init: ChannelRegister -> Word)
      ensures this.bus == bus && this.block == block && this.stopLatency == stopLatency
      ensures forall r :: Get(r) == init(r)
      ensures drain == 0 && Valid()
    {
      this.bus := bus;
      this.block := block;
      this.stopLatency := stopLatency;
      ddrUpaddr := init(DdrUpaddr);
      ddrLwaddr := init(DdrLwaddr);
      devAddr := init(DevAddr);
      ts := init(Ts);
      crtUpaddr := init(CrtUpaddr);
      crtLwaddr := init(CrtLwaddr);
      ctl := init(Ctl);
      sts := init(Sts);
      timeoutCnt := init(TimeoutCnt);
      drain := 0;
    }

    /** Reads the control register (`ctl.get()`); each read lets the draining channel progress by one step. */
    method ReadCtl() returns (w: Word)
      requires Valid()
      modifies this, bus
      ensures Valid()
      ensures w == old(VisibleCtl())
      ensures drain == Decrement(old(drain))
      ensures ctl == old(ctl)
      ensures forall r :: Get(r) == old(Get(r))
      ensures bus.log == old(bus.log) + [Load(PerChannel(block, Ctl))]
    {
      w := VisibleCtl();
      drain := Decrement(drain);
      bus.log := bus.log + [Load(PerChannel(block, Ctl))];
    }

    /**
     * Writes the control register (`ctl.set(w)`). Clearing EN of a running
     * channel starts its drain; setting EN ends any drain.
     */
    method WriteCtl(w: Word)
      requires Valid()
      modifies this, bus
      ensures Valid()
      ensures ctl == w
      ensures drain ==
        if w[CHALX_EN.shift] then 0
        else if old(ctl[CHALX_EN.shift]) then stopLatency
        else old(drain)
      ensures forall r :: r != Ctl ==> Get(r) == old(Get(r))
      ensures bus.log == old(bus.log) + [Store(PerChannel(block, Ctl), w)]
    {
      drain :=
        if w[CHALX_EN.shift] then 0
        else if ctl[CHALX_EN.shift] then stopLatency
        else drain;
      ctl := w;
      bus.log := bus.log + [Store(PerChannel(block, Ctl), w)];
    }

    /** `ctl.modify(fv)`: reads the control register and writes back the word read with `fv` applied. */
    method ModifyCtl(fv: FieldValue)
      requires Valid()
      modifies this, bus
      ensures Valid()
      ensures ctl == Apply(old(VisibleCtl()), fv)
      ensures drain ==
        if ctl[CHALX_EN.shift] then 0
        else if old(ctl[CHALX_EN.shift]) then stopLatency
        else Decrement(old(drain))
      ensures forall r :: r != Ctl ==> Get(r) == old(Get(r))
      ensures bus.log == old(bus.log) + [Load(PerChannel(block, Ctl)), Store(PerChannel(block, Ctl), ctl)]
    {
      var w := ReadCtl();
      WriteCtl(Apply(w, fv));
    }

    /** `r.set(w)` for any register but the control register. */
    method Set(r: ChannelRegister, w: Word)
      requires r != Ctl
      modifies this, bus
      ensures Get(r) == w
      ensures forall q :: q != r ==> Get(q) == old(Get(q))
      ensures drain == old(drain)
      ensures bus.log == old(bus.log) + [Store(PerChannel(block, r), w)]
    {
      bus.log := bus.log + [Store(PerChannel(block, r), w)];
      match r
      case DdrUpaddr => ddrUpaddr := w;
      case DdrLwaddr => ddrLwaddr := w;
      case DevAddr => devAddr := w;
      case Ts => ts := w;
      case CrtUpaddr => crtUpaddr := w;
      case CrtLwaddr => crtLwaddr := w;
      case Sts => sts := w;
      case TimeoutCnt => timeoutCnt := w;
    }
  }
}
