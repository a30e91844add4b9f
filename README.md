# Phytium DDMA driver: register model and channel

A Dafny model of the register-level logic of the Phytium DDMA (device DMA)
controller driver. It has three modules.

- `Fields` (`fields.dfy`) is the bit-field view of a 32-bit register that the
  driver's register library gives it.
  - A register word is its 32 bits, bit 0 first.
  - A field is `width` bits starting at bit `shift`.
  - `modify` writes back the word it read with only the selected bits
    replaced. `write` stores the update's bits and zero elsewhere.
  - Words and numbers meet in `FromNat`, the `as u32` truncation, and in
    `ValueOf`.
- `Reg` (`reg.dfy`) covers the controller.
  - The byte layout of the global registers and of the eight 0x40-byte
    channel blocks.
  - Every named bit-field, and a proof that the fields of each register
    partition its 32 bits.
  - The per-channel field tables.
  - The controller-side helpers: request-line selection, interrupt mask,
    completion status (write-one-to-clear) and the bind bitmap. They are
    methods of the `DdmaRegister` class and are stated bit by bit.
  - The `ChannelRegisters` class, one channel's register block.
  - Every access made through the shared `Bus` is recorded in a ghost
    access log. Contracts use it to state the order of accesses and that
    nothing was touched.
- `Chan` (`chan.dfy`) covers the `Channel` object.
  - Construction, with its buffer and block-size checks, an optional reset
    and the programming of the channel's registers.
  - The reset with its spin loop.
  - Activation, deactivation, `is_running`, and clear-and-activate.

The hardware behind the channel control register is modelled as follows. Once
software clears EN on a running channel, EN still reads back set for
`stopLatency` further reads of the control register, while the channel
finishes its transfer. The count of reads left is `drain`. With
`stopLatency == 0` this is plain memory. The reset's spin loop is therefore a
real loop, and it is proved to stop after exactly `StopPolls(..) + 1` polls.

Two names used by the channel code do not exist in the repository:
`crate::DmaDirection` and `DDMA::clear_transfer_complete`.
- The model defines `DmaDirection` as `MemoryToDevice | DeviceToMemory`.
- It models the controller-level clear with the corrected
  `DdmaRegister.ClearChannelComplete` (see Findings).

## Model

| member | source | states |
|---|---|---|
| Fields.ApplyEffect | src/reg.rs:325-328 | a `modify` puts the update's value in the bits it selects and, for a well-formed update, keeps every other bit as read |
| Fields.ValWellFormed | src/reg.rs:325-328 | `FIELD.val(v)` never sets a bit outside its field |
| Fields.ValEffect | src/reg.rs:325-328 | modifying field f with v keeps every bit outside f, and f then reads back v cut to f's width |
| Fields.ApplyIdempotent | src/chan.rs:103-105 | applying the same field update twice gives the word applying it once gives |
| Fields.FromNatValue | src/chan.rs:58-61 | `v as u32` holds exactly v mod 2^32 |
| Reg.GlobalOffset | src/reg.rs:259-304 | every global register is word-aligned and ends before the reserved gap at 0x2C |
| Reg.ChannelOffset | src/reg.rs:231-257 | every channel register is word-aligned and ends before the block's reserved tail at 0x24 |
| Reg.ChannelRegisterAddress | src/reg.rs:309-315 | channel c's register r lies past the global area and inside the controller block (ending by 0x224), and the offset determines both c and r |
| Reg.LastChannelRegisterEnd | src/reg.rs:297-303 | each channel's timeout register ends by 0x224, exactly there iff c = 7; only channel 7's whole 0x40 block overruns 0x224 |
| Reg.ReservedRunsCloseBlocks | src/reg.rs:254-255 | the reserved runs close their blocks: the global gap 0x2C+0x14 reaches the channel area at 0x40, the channel area 0x40+0x1E4 reaches 0x224, and a channel block's tail 0x24+0x1C reaches 0x40 |
| Reg.OffsetsDistinct | src/reg.rs:231-304 | no two registers of the global block, and no two registers of a channel block, share an offset |
| Reg.DocumentedChannelAddresses | src/reg.rs:180-218 | the control, status and timeout registers of channel x sit at 0x58, 0x5C and 0x60 + 0x40·x |
| Reg.DmaCtlFieldsTile | src/reg.rs:10-22 | DMA_CTL's fields cover bits 0..31 once, in order |
| Reg.DmaChalConfigFieldsTile | src/reg.rs:24-49 | DMA_CHAL_CONFIG's fields cover bits 0..31 once, in order |
| Reg.DmaChalConfig1FieldsTile | src/reg.rs:51-76 | DMA_CHAL_CONFIG1's fields cover bits 0..31 once, in order |
| Reg.DmaStatFieldsTile | src/reg.rs:78-128 | DMA_STAT's completion bits and reserved runs cover bits 0..31 once, in order |
| Reg.DmaMaskIntFieldsTile | src/reg.rs:130-161 | DMA_MASK_INT's mask bits, reserved run and GLOBAL_EN cover bits 0..31 once, in order |
| Reg.DmaChannelBindFieldsTile | src/reg.rs:163-172 | DMA_CHANNEL_BIND's fields cover bits 0..31 once, in order |
| Reg.DmaGcapFieldsTile | src/reg.rs:174-178 | DMA_GCAP's one field covers all 32 bits |
| Reg.ChalxCtlFieldsTile | src/reg.rs:180-204 | a channel's control fields (EN, SRST, MODE, reserved) cover bits 0..31 once, in order |
| Reg.ChalxStsFieldsTile | src/reg.rs:206-216 | a channel's status fields cover bits 0..31 once, in order |
| Reg.ChalxTimeoutCntFieldsTile | src/reg.rs:218-228 | a channel's timeout fields cover bits 0..31 once, in order |
| Reg.IsSetSingleBit | src/chan.rs:54 | `is_set` on a one-bit field is exactly that bit |
| Reg.ConfigRegister | src/reg.rs:323-375 | channels 0-3 use DMA_CHAL_CONFIG, channels 4-7 DMA_CHAL_CONFIG1 |
| Reg.ChalSel | src/reg.rs:24-76 | CHALc_SEL is the 7 bits starting at 8·(c mod 4) |
| Reg.ChalSelEn | src/reg.rs:24-76 | CHALc_SEL_EN is bit 8·(c mod 4) + 7 |
| Reg.StatChal | src/reg.rs:78-128 | channel c's completion flag is bit 4c |
| Reg.ChalMask | src/reg.rs:130-161 | channel c's mask flag is bit c |
| Reg.ConfigUpdateProgramsSlot | src/reg.rs:323-375 | the config update changes only bits [8(c mod 4), 8(c mod 4)+8): the select reads back the 7 low bits of sel and the top bit is enable |
| Reg.MaskUpdateBit | src/reg.rs:382-419 | the mask update sets bit c to mask and keeps every other bit, GLOBAL_EN included |
| Reg.ClearAsWrittenClearsAll | src/reg.rs:446-458 | the read-modify-write clear leaves DMA_STAT all zero on a write-one-to-clear register, whatever was pending |
| Reg.ClearAsWrittenLosesOtherChannel | src/reg.rs:446-458 | with channels 0 and 1 complete, clearing channel 0 as written also clears channel 1 |
| Reg.ClearWriteEffect | src/reg.rs:78-83 | writing bit 4c alone clears channel c's completion and keeps every other status bit |
| Reg.ClearWriteIdempotent | src/reg.rs:78-83 | clearing a channel's completion twice equals clearing it once |
| Reg.BindWordEffect | src/reg.rs:467-478 | binding adds c to the bound-channel set and unbinding removes it; bits 8..31 are kept |
| Reg.DdmaRegister.constructor | src/reg.rs:259-304 | the controller registers start with the given words |
| Reg.DdmaRegister.SetChannelConfig | src/reg.rs:323-375 | for c < 4 only channel c's byte of DMA_CHAL_CONFIG changes (select, enable) and DMA_CHAL_CONFIG1 is kept, and the reverse for 4 ≤ c < 8; c ≥ 8 is excluded (`unreachable!`); one read then one write |
| Reg.DdmaRegister.SetChannelInterruptMask | src/reg.rs:382-419 | for c < 8 bit c becomes mask and every other bit is kept; for c ≥ 8 nothing is accessed |
| Reg.DdmaRegister.IsChannelComplete | src/reg.rs:428-441 | true iff c < 8 and bit 4c of DMA_STAT is set |
| Reg.DdmaRegister.ClearChannelCompleteAsWritten | src/reg.rs:446-458 | for c < 8 it reads DMA_STAT, writes back the word read with bit 4c set, and so leaves every completion cleared; c ≥ 8 accesses nothing |
| Reg.DdmaRegister.ClearChannelComplete | src/reg.rs:446-458 | corrected clear: for c < 8 one write of bit 4c, after which channel c is not complete and every other status bit is kept; c ≥ 8 accesses nothing |
| Reg.DdmaRegister.IsChannelBind | src/reg.rs:460-465 | true iff c is among the bound channels (c < 8 and bit c set) |
| Reg.DdmaRegister.SetChannelBind | src/reg.rs:467-478 | for c < 8 afterwards `is_channel_bind(c) == bind`, the bound set gains or loses exactly c, and the other bits are kept; c ≥ 8 accesses nothing |
| Reg.EnUpdateHidesEn | src/chan.rs:77 | an update that covers EN writes the same word whether EN read back set or clear |
| Reg.ChannelRegisters.constructor | src/reg.rs:231-257 | a channel block holds the given word in every register and is not draining |
| Reg.ChannelRegisters.ReadCtl | src/chan.rs:78-80 | a control read returns the stored word with EN showing set while the channel drains, advances the drain by one, and changes no register |
| Reg.ChannelRegisters.WriteCtl | src/reg.rs:247-248 | a control write stores the word; clearing EN of an enabled channel starts a drain of `stopLatency` reads, and setting EN ends it |
| Reg.ChannelRegisters.ModifyCtl | src/chan.rs:83-84 | `ctl.modify(fv)` stores the word read with fv applied: one read, then one write |
| Reg.ChannelRegisters.Set | src/chan.rs:58-61 | `r.set(w)` stores w in r alone, with one write |
| Chan.AddressSplit | src/chan.rs:58-59 | for a 64-bit bus address the lower word holds ddr mod 2^32, the upper word ddr div 2^32, and upper·2^32 + lower = ddr |
| Chan.TransferSizeWord | src/chan.rs:61 | a block size below 2^32 is written to the transfer-size register unchanged |
| Chan.EnableEffect | src/chan.rs:89-105 | activation sets EN alone and deactivation clears EN alone |
| Chan.EnableRoundTrip | src/chan.rs:103-105 | deactivating is idempotent and undoes activation's EN bit exactly |
| Chan.ResetCtlEffect | src/chan.rs:75-87 | after reset EN and SRST are clear and the mode and reserved bits are kept |
| Chan.WithModeEffect | src/chan.rs:63-66 | programming the direction makes bit 2 equal 0 for MemoryToDevice and 1 for DeviceToMemory, and keeps every other bit |
| Chan.Channel.constructor | src/chan.rs:32-36 | the channel keeps its number, register block and buffer |
| Chan.Channel.Index | src/chan.rs:71-73 | returns the channel number given at construction |
| Chan.Channel.New | src/chan.rs:27-69 | fails iff allocation fails or the bus address is not 4-aligned or the block size is below 4 or not a multiple of 4; a failure touches no register and makes no access; on success it resets first when EN reads back set, then programs lower/upper address, device address, transfer size and mode, in that order; the upper and lower address words read back as the buffer's 64-bit bus address (the buffer is blk_size bytes) |
| Chan.Channel.ResetIfEnabled | src/chan.rs:54-56 | reads EN once and resets exactly when it read back set; the channel is then stopped (other registers kept only in the plain-memory model of SRST, see Left out) |
| Chan.Channel.Program | src/chan.rs:58-66 | writes the split bus address, the device address, the truncated block size and the mode, in that order, and leaves the hardware-owned registers alone |
| Chan.Channel.Reset | src/chan.rs:75-87 | after clearing EN, polling until EN reads clear and pulsing SRST, the channel is stopped with EN and SRST clear and every other bit and register kept (in the plain-memory model of SRST, see Left out) |
| Chan.Channel.Stop | src/chan.rs:76-80 | clears EN, then polls exactly until EN reads back clear (`StopPolls + 1` reads), ending with the channel drained |
| Chan.Channel.Active | src/chan.rs:89-95 | sets EN alone, after which the channel reads back running |
| Chan.Channel.Deactive | src/chan.rs:103-105 | clears EN alone; the channel reads back running only while it still drains |
| Chan.Channel.ClearAndActive | src/chan.rs:97-101 | clears channel n's completion at the controller and only then activates the channel; with the corrected clear (ClearChannelComplete) other status bits are kept |
| Chan.Channel.IsRunning | src/chan.rs:143-146 | true iff EN is set or the channel is still draining |

## Left out

- Volatile access and the register library's macro internals. Only their
  effect on words is modelled: `read`, `is_set`, `modify`, `write`, `set`, `val`.
- Allocation, bus-address translation and cache behaviour of the DMA buffer
  belong to the `dma_api` crate, which is not part of this model.
  - Allocation is an oracle parameter (`Option<DmaBuffer>`).
  - The buffer's contents, its 128-byte alignment request and the
    `buff`/`buff_mut` accessors are not modelled.
- `trace!` logging and `Channel::debug_registers` are diagnostics and are not
  modelled.
- The global control, AXI configuration and capability registers
  (DMA_CTL, *_AXI_*CONFIG, DMA_GCAP) are laid out and tiled. The driver core
  never accesses them, so `DdmaRegister` carries no field for them.
- Chan.Channel.Reset, Chan.Channel.ResetIfEnabled and Chan.Channel.New do not
  simulate the hardware reset of the channel's registers and FIFO while SRST
  is set (src/reg.rs:187-188). The registers are plain memory across the SRST
  pulse, so the clauses keeping the non-control registers hold only in that
  model; the reset values of the hardware are not documented in the source.
- Status the hardware updates on its own is not simulated: completion bits,
  FIFO status, and the current-address registers. Those registers keep
  whatever value they have.
- `DDMA::new`, `irq_handler` and the empty `handle_irq` in `src/lib.rs` are
  pointer casts and a stub. The Send/Sync impls concern concurrency. None of
  them is modelled.
- Timing of the spin loop is abstracted into the `stopLatency` count of reads.
  `spin_loop()` is a hint with no effect on state.
- `IsChannelComplete` and `IsChannelBind` are pure reads, so they are not
  recorded in the access log.
- `slave_id` and `timeout_count` of the channel configuration are carried but
  never programmed, as in the source.

## Findings

| source | as written | input that shows it | evidently intended | confidence | as-written member | corrected member |
|---|---|---|---|---|---|---|
| src/reg.rs:446-458 | `dma_stat.modify(CHALc_SEL::SET)` reads DMA_STAT, which is write-one-to-clear (src/reg.rs:80-81), and writes back every bit it read plus bit 4c | status with channels 0 and 1 complete (bits 0 and 4 set), clear channel 0: the write-back holds bit 4, so channel 1's completion is lost too (`Reg.ClearAsWrittenLosesOtherChannel`, `Reg.ClearAsWrittenClearsAll`) | write bit 4c alone (`dma_stat.write(CHALc_SEL::SET)`), clearing channel c only | medium, not executed | Reg.DdmaRegister.ClearChannelCompleteAsWritten | Reg.DdmaRegister.ClearChannelComplete |
