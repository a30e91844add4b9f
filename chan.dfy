/**
 * A DMA channel of the Phytium DDMA controller: construction (buffer and
 * block-size checks, optional reset, programming of the channel's register
 * block), reset, activation and the running state, all as accesses to the
 * channel's register block.
 */
module Chan {
  import opened Fields
  import opened Reg

  datatype Option<T> = None | Some(value: T)

  /** A channel number (`u8`). */
  type u8 = x: nat | x < 0x100

  /** A bus address (`u64`). */
  type u64 = x: nat | x < 0x1_0000_0000_0000_0000

  const U32_RANGE: nat := 0x1_0000_0000
  const U64_RANGE: nat := 0x1_0000_0000_0000_0000

  /** Which way a channel moves data. */
  datatype DmaDirection = MemoryToDevice | DeviceToMemory

  /** A channel's configuration; `slaveId` and `timeoutCount` are carried but never programmed. */
  datatype ChannelConfig = ChannelConfig(
    slaveId: u8,
    direction: DmaDirection,
    timeoutCount: nat,
    blkSize: nat,
    devAddr: Word)

  /** A DMA buffer handed out by the allocator: the bus address the device sees and its length in bytes. */
  datatype DmaBuffer = DmaBuffer(busAddr: u64, size: nat)

  /** What construction checks: a 4-byte aligned bus address and a block size that is a non-zero multiple of 4. */
  predicate Accepts(busAddr: nat, blkSize: nat)
  {
    && busAddr % 4 == 0
    && !(blkSize < 4 || blkSize % 4 != 0)
  }

  // ---------------------------------------------------------------------------
  // Register words the channel writes
  // ---------------------------------------------------------------------------

  /** `(ddr & 0xFFFF_FFFF) as u32`. */
  function Lower(ddr: nat): Word
  {
    FromNat(ddr % U32_RANGE)
  }

  /** `(ddr >> 32) as u32`. */
  function Upper(ddr: nat): Word
  {
    FromNat(ddr / U32_RANGE)
  }

  /** A 64-bit bus address is exactly its upper word times 2^32 plus its lower word. */
  lemma AddressSplit(ddr: nat)
    requires ddr < U64_RANGE
    ensures ValueOf(Lower(ddr)) == ddr % U32_RANGE
    ensures ValueOf(Upper(ddr)) == ddr / U32_RANGE
    ensures ValueOf(Upper(ddr)) * U32_RANGE + ValueOf(Lower(ddr)) == ddr
  {
    SplitBounds(ddr);
    FromNatValue(ddr % U32_RANGE);
    FromNatValue(ddr / U32_RANGE);
  }

  lemma SplitBounds(ddr: nat)
    requires ddr < U64_RANGE
    ensures ddr / U32_RANGE < U32_RANGE
    ensures (ddr % U32_RANGE) % U32_RANGE == ddr % U32_RANGE
    ensures (ddr / U32_RANGE) % U32_RANGE == ddr / U32_RANGE
  {
  }

  /** A block size below 2^32 survives `blk_size as u32` unchanged. */
  lemma TransferSizeWord(blkSize: nat)
    requires blkSize < U32_RANGE
    ensures ValueOf(FromNat(blkSize)) == blkSize
  {
    FromNatValue(blkSize);
  }

  /** The CHALX_MODE value for a direction. */
  function ModeValue(d: DmaDirection): Word
  {
    match d
    case MemoryToDevice => MODE_TX
    case DeviceToMemory => MODE_RX
  }

  function Activated(w: Word): Word
  {
    Apply(w, SetField(CHALX_EN))
  }

  function Deactivated(w: Word): Word
  {
    Apply(w, ClearField(CHALX_EN))
  }

  /** The control word after reset: EN cleared, then SRST set, then SRST cleared. */
  function ResetCtl(w: Word): Word
  {
    Apply(Apply(Deactivated(w), SetField(CHALX_SRST)), ClearField(CHALX_SRST))
  }

  function WithMode(w: Word, d: DmaDirection): Word
  {
    Apply(w, Val(CHALX_MODE, ModeValue(d)))
  }

  /** Activation sets EN alone, deactivation clears EN alone. */
  lemma EnableEffect(w: Word)
    ensures Activated(w)[CHALX_EN.shift] && !Deactivated(w)[CHALX_EN.shift]
    ensures forall k :: 0 <= k < WIDTH && k != CHALX_EN.shift ==> Activated(w)[k] == w[k] && Deactivated(w)[k] == w[k]
  {
  }

  /** Deactivating twice is deactivating once, and either call undoes the other's EN bit exactly. */
  lemma EnableRoundTrip(w: Word)
    ensures Deactivated(Deactivated(w)) == Deactivated(w)
    ensures Deactivated(Activated(w)) == Deactivated(w)
    ensures Activated(Deactivated(w)) == Activated(w)
    ensures !w[CHALX_EN.shift] ==> Deactivated(Activated(w)) == w
  {
  }

  /** Reset leaves EN and SRST clear and the mode and reserved bits as they were. */
  lemma ResetCtlEffect(w: Word)
    ensures !ResetCtl(w)[CHALX_EN.shift] && !ResetCtl(w)[CHALX_SRST.shift]
    ensures forall k :: 2 <= k < WIDTH ==> ResetCtl(w)[k] == w[k]
  {
  }

  /** Programming the mode sets bit 2 to 0 for memory-to-device and 1 for device-to-memory, and keeps every other bit. */
  lemma WithModeEffect(w: Word, d: DmaDirection)
    ensures WithMode(w, d)[CHALX_MODE.shift] <==> d == DeviceToMemory
    ensures forall k :: 0 <= k < WIDTH && k != CHALX_MODE.shift ==> WithMode(w, d)[k] == w[k]
  {
  }

  // ---------------------------------------------------------------------------
  // Access sequences
  // ---------------------------------------------------------------------------

  /** `k` reads of channel `block`'s control register. */
  function Polls(block: nat, k: nat): (s: seq<Access>)
    ensures |s| == k
    ensures forall i :: 0 <= i < k ==> s[i] == Load(PerChannel(block, Ctl))
  {
    seq(k, i => Load(PerChannel(block, Ctl)))
  }

  /** The reads left before a channel whose EN was just cleared reads back stopped. */
  function StopPolls(ctl: Word, drain: nat, stopLatency: nat): nat
  {
    if ctl[CHALX_EN.shift] then stopLatency else Decrement(drain)
  }

  /** The accesses of a reset of channel `block` from control word `ctl`, polling `polls` times. */
  function ResetAccesses(block: nat, ctl: Word, polls: nat): seq<Access>
  {
    var c := PerChannel(block, Ctl);
    [Load(c), Store(c, Deactivated(ctl))]
      + Polls(block, polls)
      + [Load(c), Store(c, Apply(Deactivated(ctl), SetField(CHALX_SRST))), Load(c), Store(c, ResetCtl(ctl))]
  }

  /**
   * The accesses with which construction checks channel `block`'s EN bit and,
   * when it reads back `enabled`, resets the channel.
   */
  function CheckAccesses(block: nat, enabled: bool, ctl: Word, drain: nat, stopLatency: nat): seq<Access>
  {
    [Load(PerChannel(block, Ctl))]
      + if enabled then ResetAccesses(block, ctl, StopPolls(ctl, Decrement(drain), stopLatency) + 1) else []
  }

  /** The accesses with which construction programs channel `block`, in the order they are made. */
  function ProgramAccesses(block: nat, ddr: nat, config: ChannelConfig, ctl: Word): seq<Access>
  {
    [ Store(PerChannel(block, DdrLwaddr), Lower(ddr)),
      Store(PerChannel(block, DdrUpaddr), Upper(ddr)),
      Store(PerChannel(block, DevAddr), config.devAddr),
      Store(PerChannel(block, Ts), FromNat(config.blkSize)),
      Load(PerChannel(block, Ctl)),
      Store(PerChannel(block, Ctl), ctl) ]
  }

  // ---------------------------------------------------------------------------
  // The channel
  // ---------------------------------------------------------------------------

  class Channel {
    const n: u8
    const reg: ChannelRegisters
    const buff: DmaBuffer

    ghost predicate Valid()
      reads this, reg
    {
      reg.Valid()
    }

    constructor (n: u8, reg: ChannelRegisters, buff: DmaBuffer)
      ensures this.n == n && this.reg == reg && this.buff == buff
    {
      this.n := n;
      this.reg := reg;
      this.buff := buff;
    }

    /** The channel number given at construction. */
    function Index(): (i: u8)
      ensures i == n
    {
      n
    }

    /**
     * Builds channel `n` on register block `reg` with a buffer from the
     * allocator (`alloc`, None when allocation fails). Fails, touching no
     * register, unless allocation succeeds and the buffer's bus address and
     * the block size pass the checks; otherwise resets the channel if it
     * reads back enabled, then programs the buffer address, the device
     * address, the transfer size and the direction.
     */
    static method New(n: u8, reg: ChannelRegisters, config: ChannelConfig, alloc: Option<DmaBuffer>)
      returns (r: Option<Channel>)
      requires reg.Valid()
      requires alloc.Some? ==> alloc.value.size == config.blkSize
      modifies reg, reg.bus
      ensures r.Some? <==> alloc.Some? && Accepts(alloc.value.busAddr, config.blkSize)
      ensures r.None? ==> unchanged(reg, reg.bus)
      ensures r.Some? ==>
        && fresh(r.value)
        && r.value.Index() == n && r.value.reg == reg && r.value.buff == alloc.value
        && r.value.Valid()
      ensures r.Some? ==>
        var ddr := alloc.value.busAddr;
        && reg.ddrLwaddr == Lower(ddr)
        && reg.ddrUpaddr == Upper(ddr)
        && ValueOf(reg.ddrUpaddr) * U32_RANGE + ValueOf(reg.ddrLwaddr) == ddr
        && reg.devAddr == config.devAddr
        && reg.ts == FromNat(config.blkSize)
        && reg.ctl == WithMode(if old(reg.VisibleCtl()[CHALX_EN.shift]) then ResetCtl(old(reg.ctl)) else old(reg.ctl), config.direction)
        && reg.drain == 0
        && reg.crtUpaddr == old(reg.crtUpaddr) && reg.crtLwaddr == old(reg.crtLwaddr)
        && reg.sts == old(reg.sts) && reg.timeoutCnt == old(reg.timeoutCnt)
      ensures r.Some? ==>
        var program := ProgramAccesses(reg.block, alloc.value.busAddr, config, reg.ctl);
        reg.bus.log == old(reg.bus.log)
          + CheckAccesses(reg.block, old(reg.VisibleCtl()[CHALX_EN.shift]), old(reg.ctl), old(reg.drain), reg.stopLatency)
          + program
    {
      if alloc.None? {
        return None;
      }
      var ch := new Channel(n, reg, alloc.value);
      var ddr := ch.buff.busAddr;
      if ddr % 4 != 0 {
        return None;
      }
      if config.blkSize < 4 || config.blkSize % 4 != 0 {
        return None;
      }
      ch.ResetIfEnabled();
      assert reg.Get(CrtUpaddr) == old(reg.Get(CrtUpaddr)) && reg.Get(CrtLwaddr) == old(reg.Get(CrtLwaddr));
      assert reg.Get(Sts) == old(reg.Get(Sts)) && reg.Get(TimeoutCnt) == old(reg.Get(TimeoutCnt));
      ch.Program(config);
      AddressSplit(ddr);
      return Some(ch);
    }

    /** Resets the channel if its control register reads back enabled. */
    method ResetIfEnabled()
      requires Valid()
      modifies reg, reg.bus
      ensures Valid() && reg.drain == 0 && !reg.ctl[CHALX_EN.shift]
      ensures reg.ctl == if old(reg.VisibleCtl()[CHALX_EN.shift]) then ResetCtl(old(reg.ctl)) else old(reg.ctl)
      ensures forall r :: r != Ctl ==> reg.Get(r) == old(reg.Get(r))
      ensures reg.bus.log == old(reg.bus.log)
        + CheckAccesses(reg.block, old(reg.VisibleCtl()[CHALX_EN.shift]), old(reg.ctl), old(reg.drain), reg.stopLatency)
    {
      var w := reg.ReadCtl();
      IsSetSingleBit(w, CHALX_EN);
      if IsSet(w, CHALX_EN) {
        Reset();
        ResetCtlEffect(old(reg.ctl));
      }
    }

    /**
     * Programs a stopped channel: the buffer's bus address split into its
     * lower and upper words, the device address, the transfer size and the
     * direction.
     */
    method Program(config: ChannelConfig)
      requires Valid() && reg.drain == 0 && !reg.ctl[CHALX_EN.shift]
      modifies reg, reg.bus
      ensures Valid() && reg.drain == 0
      ensures reg.ddrLwaddr == Lower(buff.busAddr) && reg.ddrUpaddr == Upper(buff.busAddr)
      ensures reg.devAddr == config.devAddr && reg.ts == FromNat(config.blkSize)
      ensures reg.ctl == WithMode(old(reg.ctl), config.direction)
      ensures reg.crtUpaddr == old(reg.crtUpaddr) && reg.crtLwaddr == old(reg.crtLwaddr)
      ensures reg.sts == old(reg.sts) && reg.timeoutCnt == old(reg.timeoutCnt)
      ensures reg.bus.log == old(reg.bus.log) + ProgramAccesses(reg.block, buff.busAddr, config, reg.ctl)
    {
      reg.Set(DdrLwaddr, Lower(buff.busAddr));
      reg.Set(DdrUpaddr, Upper(buff.busAddr));
      reg.Set(DevAddr, config.devAddr);
      reg.Set(Ts, FromNat(config.blkSize));
      assert reg.Get(Ctl) == old(reg.Get(Ctl));
      assert reg.Get(CrtUpaddr) == old(reg.Get(CrtUpaddr)) && reg.Get(CrtLwaddr) == old(reg.Get(CrtLwaddr));
      assert reg.Get(Sts) == old(reg.Get(Sts)) && reg.Get(TimeoutCnt) == old(reg.Get(TimeoutCnt));
      reg.ModifyCtl(Val(CHALX_MODE, ModeValue(config.direction)));
    }

    /**
     * Stops the channel: clears EN, polls the control register until EN reads
     * back clear, then pulses SRST. Leaves the channel stopped with EN and
     * SRST clear and every other bit and register as it was.
     */
    method Reset()
      requires Valid()
      modifies reg, reg.bus
      ensures Valid() && reg.drain == 0
      ensures reg.ctl == ResetCtl(old(reg.ctl))
      ensures forall r :: r != Ctl ==> reg.Get(r) == old(reg.Get(r))
      ensures reg.bus.log == old(reg.bus.log)
        + ResetAccesses(reg.block, old(reg.ctl), StopPolls(old(reg.ctl), old(reg.drain), reg.stopLatency) + 1)
    {
      Stop();
      reg.ModifyCtl(SetField(CHALX_SRST));
      reg.ModifyCtl(ClearField(CHALX_SRST));
    }

    /** The first half of a reset: clear EN, then poll until EN reads back clear. */
    method Stop()
      requires Valid()
      modifies reg, reg.bus
      ensures Valid() && reg.drain == 0
      ensures reg.ctl == Deactivated(old(reg.ctl))
      ensures forall r :: r != Ctl ==> reg.Get(r) == old(reg.Get(r))
      ensures reg.bus.log == old(reg.bus.log)
        + [Load(PerChannel(reg.block, Ctl)), Store(PerChannel(reg.block, Ctl), reg.ctl)]
        + Polls(reg.block, StopPolls(old(reg.ctl), old(reg.drain), reg.stopLatency) + 1)
    {
      var c := PerChannel(reg.block, Ctl);
      ghost var d := StopPolls(reg.ctl, reg.drain, reg.stopLatency);
      EnUpdateHidesEn(reg.ctl, ClearField(CHALX_EN));
      reg.ModifyCtl(ClearField(CHALX_EN));
      ghost var cleared := reg.bus.log;
      var w := reg.ReadCtl();
      ghost var i: nat := 1;
      IsSetSingleBit(w, CHALX_EN);
      while IsSet(w, CHALX_EN)
        invariant reg.Valid() && !reg.ctl[CHALX_EN.shift]
        invariant reg.ctl == Deactivated(old(reg.ctl))
        invariant 1 <= i <= d + 1
        invariant reg.drain == if d >= i then d - i else 0
        invariant IsSet(w, CHALX_EN) <==> d >= i
        invariant forall r :: r != Ctl ==> reg.Get(r) == old(reg.Get(r))
        invariant reg.bus.log == cleared + Polls(reg.block, i)
        decreases d + 1 - i
      {
        w := reg.ReadCtl();
        IsSetSingleBit(w, CHALX_EN);
        assert Polls(reg.block, i) + [Load(c)] == Polls(reg.block, i + 1);
        i := i + 1;
      }
    }

    /** Sets EN alone: the channel runs. */
    method Active()
      requires Valid()
      modifies reg, reg.bus
      ensures Valid()
      ensures reg.ctl == Activated(old(reg.ctl)) && reg.drain == 0
      ensures reg.VisibleCtl()[CHALX_EN.shift]
      ensures forall r :: r != Ctl ==> reg.Get(r) == old(reg.Get(r))
      ensures reg.bus.log == old(reg.bus.log) + [Load(PerChannel(reg.block, Ctl)), Store(PerChannel(reg.block, Ctl), reg.ctl)]
    {
      EnUpdateHidesEn(reg.ctl, SetField(CHALX_EN));
      reg.ModifyCtl(SetField(CHALX_EN));
    }

    /**
     * Clears EN alone. A running channel keeps reading back as running until
     * it has drained.
     */
    method Deactive()
      requires Valid()
      modifies reg, reg.bus
      ensures Valid()
      ensures reg.ctl == Deactivated(old(reg.ctl))
      ensures reg.drain == StopPolls(old(reg.ctl), old(reg.drain), reg.stopLatency)
      ensures reg.VisibleCtl()[CHALX_EN.shift] <==> reg.drain > 0
      ensures forall r :: r != Ctl ==> reg.Get(r) == old(reg.Get(r))
      ensures reg.bus.log == old(reg.bus.log) + [Load(PerChannel(reg.block, Ctl)), Store(PerChannel(reg.block, Ctl), reg.ctl)]
    {
      EnUpdateHidesEn(reg.ctl, ClearField(CHALX_EN));
      reg.ModifyCtl(ClearField(CHALX_EN));
    }

    /**
     * Clears this channel's completion at the controller, then activates the
     * channel; the status write precedes the control-register accesses.
     */
    method ClearAndActive(dma: DdmaRegister)
      requires Valid() && dma.bus == reg.bus
      modifies dma, reg, reg.bus
      ensures Valid()
      ensures n < MAX_CHANNELS ==> !dma.IsChannelComplete(n)
      ensures n < MAX_CHANNELS ==> forall k :: 0 <= k < WIDTH && k != 4 * n ==> dma.dmaStat[k] == old(dma.dmaStat)[k]
      ensures MAX_CHANNELS <= n ==> dma.dmaStat == old(dma.dmaStat)
      ensures dma.dmaChalConfig == old(dma.dmaChalConfig) && dma.dmaChalConfig1 == old(dma.dmaChalConfig1)
      ensures dma.dmaMaskInt == old(dma.dmaMaskInt) && dma.dmaChannelBind == old(dma.dmaChannelBind)
      ensures reg.ctl == Activated(old(reg.ctl)) && reg.drain == 0
      ensures forall r :: r != Ctl ==> reg.Get(r) == old(reg.Get(r))
      ensures reg.bus.log == old(reg.bus.log)
        + (if n < MAX_CHANNELS then [Store(Global(DmaStat), ClearWrite(n))] else [])
        + [Load(PerChannel(reg.block, Ctl)), Store(PerChannel(reg.block, Ctl), reg.ctl)]
    {
      dma.ClearChannelComplete(n);
      Active();
    }

    /** Whether the channel reads back enabled: EN is set, or the channel is still draining. */
    method IsRunning() returns (running: bool)
      requires Valid()
      modifies reg, reg.bus
      ensures Valid()
      ensures running <==> old(reg.ctl[CHALX_EN.shift]) || old(reg.drain) > 0
      ensures reg.drain == Decrement(old(reg.drain))
      ensures forall r :: reg.Get(r) == old(reg.Get(r))
      ensures reg.bus.log == old(reg.bus.log) + [Load(PerChannel(reg.block, Ctl))]
    {
      var w := reg.ReadCtl();
      IsSetSingleBit(w, CHALX_EN);
      running := IsSet(w, CHALX_EN);
    }
  }
}
