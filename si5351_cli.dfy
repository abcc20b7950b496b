/**
 * The register engine of the clock-generator console: bring-up of the
 * Si5351A, per-channel frequency setting and disabling through a
 * read-modify-write of the output-enable register, global output enable,
 * and the dispatch of a parsed command line.
 *
 * Each operation is specified by a function of the bus state before the
 * call (a `Wire`) that returns the bus state after it and what the console
 * reports; the methods of `Cli` are proved against those functions, and
 * the register-level properties are lemmas about them.
 */
module Si5351Cli {
  import opened Common
  import opened PicoSdk
  import opened I2cComm
  import opened Si5351Regs
  import opened CliParse

  /** The 7-bit address the chip answers at unless told otherwise. */
  const DEFAULT_ADDR: byte := 0x60

  /** What the console reports after a command (its wording is not modelled). */
  datatype Report =
    | Silent
    | HelpText
    | ScanResult(found: int)
    | Registers(reg0: byte, reg1: byte)
    | Initialized
    | OutputsOn
    | OutputsOff
    | OeUsageText
    | FreqUsageText
    | ClkUsageText
    | BadChannel(ch: u32)
    | Disabled(ch: u32)
    | FreqTooHigh
    | Enabled(ch: u32, mhz: u32, div: nat)
    | DividerUndefined
    | UnknownCommand

  /** The bus after a command, and the console's report. */
  datatype Effect = Effect(wire: Wire, report: Report)

  /** A one-byte read: the bus after it and the value the caller's variable ends up holding. */
  datatype Read8 = Read8(wire: Wire, value: byte)

  // ---------------------------------------------------------------------
  // Single registers
  // ---------------------------------------------------------------------

  /** `wr8`: a one-byte register write whose status is ignored. */
  function Wr8Spec(w: Wire, addr: byte, reg: byte, v: byte): (w': Wire)
    ensures w'.peer == w.peer && w'.replies == Tail(w.replies)
    ensures Head(w.replies) == Ack && addr == w.peer ==> w'.regs == w.regs[reg := v]
    ensures Head(w.replies) != Ack || addr != w.peer ==> w'.regs == w.regs
  {
    assert [v][1..] == [];
    assert Store(w.regs, reg, [v]) == Store(w.regs[reg := v], (reg + 1) % 256, []) == w.regs[reg := v];
    WriteSpec(w, addr, reg, [v]).wire
  }

  /**
   * `rd8` into a variable that holds `dflt`: the register's value when both
   * phases are acknowledged, `dflt` when either fails.
   */
  function Rd8Spec(w: Wire, addr: byte, reg: byte, dflt: byte): (r: Read8)
    ensures r.wire.peer == w.peer && r.wire.regs == w.regs
    ensures Head(w.replies) == Ack && AckAt(w.replies, 1) && addr == w.peer ==> r.value == w.regs[reg]
    ensures !(Head(w.replies) == Ack && AckAt(w.replies, 1)) ==> r.value == dflt
    ensures Head(w.replies) == Ack ==> r.wire.replies == Drop(w.replies, 2)
  {
    var out := ReadSpec(w, addr, reg, [dflt]);
    Read8(out.wire, out.data[0])
  }

  // ---------------------------------------------------------------------
  // Bring-up
  // ---------------------------------------------------------------------

  /**
   * `si5351_init_basic`: all outputs off, 8 pF crystal load, PLL A
   * programmed to 25 MHz x 32, then both PLLs reset.
   */
  function InitSpec(w: Wire, addr: byte): (w': Wire)
    ensures w'.peer == w.peer
  {
    var w1 := Wr8Spec(w, addr, REG_OE, OE_ALL_OFF);
    var w2 := Wr8Spec(w1, addr, REG_CRYSTAL_LOAD, XTAL_LOAD_8PF);
    var w3 := WriteSpec(w2, addr, REG_PLLA_BASE, PllaBlock()).wire;
    Wr8Spec(w3, addr, REG_PLL_RESET, PLL_RESET_AB)
  }

  /** The register file as bring-up leaves it when every transfer is acknowledged. */
  function AfterInit(regs: RegFile): (r: RegFile)
    ensures forall k :: 0 <= k < 256 ==>
      r[k] == if k == REG_OE then OE_ALL_OFF
              else if k == REG_CRYSTAL_LOAD then XTAL_LOAD_8PF
              else if InBlock(k, REG_PLLA_BASE) then PllaBlock()[k - REG_PLLA_BASE]
              else if k == REG_PLL_RESET then PLL_RESET_AB
              else regs[k]
  {
    var r2 := regs[REG_OE := OE_ALL_OFF][REG_CRYSTAL_LOAD := XTAL_LOAD_8PF];
    StoreSpec(r2, REG_PLLA_BASE, PllaBlock());
    Store(r2, REG_PLLA_BASE, PllaBlock())[REG_PLL_RESET := PLL_RESET_AB]
  }

  /**
   * With every transfer acknowledged, bring-up writes exactly the output
   * enable, crystal load, PLL A and PLL reset registers, and consumes four
   * transfers.
   */
  lemma InitWrites(w: Wire)
    requires AcksAhead(w.replies, 4)
    ensures InitSpec(w, w.peer).regs == AfterInit(w.regs)
    ensures InitSpec(w, w.peer).replies == Drop(w.replies, 4)
  {
    var rs := w.replies;
    AcksAheadTail(rs, 4);
    AcksAheadTail(Tail(rs), 3);
    AcksAheadTail(Tail(Tail(rs)), 2);
    DropStep(rs, 0);
    DropStep(rs, 1);
    DropStep(rs, 2);
    DropStep(rs, 3);
    assert Drop(rs, 0) == rs;
  }

  /** Bringing the chip up twice leaves the same registers as bringing it up once. */
  lemma InitIdempotent(w: Wire)
    requires AcksAhead(w.replies, 8)
    ensures InitSpec(InitSpec(w, w.peer), w.peer).regs == InitSpec(w, w.peer).regs
  {
    InitWrites(w);
    AcksAheadDrop(w.replies, 8, 4);
    InitWrites(InitSpec(w, w.peer));
    AfterInitIdempotent(w.regs);
  }

  /** The bring-up writes overwrite their own registers with the same values. */
  lemma AfterInitIdempotent(regs: RegFile)
    ensures AfterInit(AfterInit(regs)) == AfterInit(regs)
  {
    var r1 := AfterInit(regs);
    var r2 := AfterInit(r1);
    assert forall k :: 0 <= k < 256 ==> r2[k] == r1[k];
  }

  /** The PLL A block bring-up writes programs PLL A to 800 MHz. */
  lemma InitSetsPllaTo800MHz(w: Wire)
    requires AcksAhead(w.replies, 4)
    ensures var r := InitSpec(w, w.peer).regs;
      XTAL_FREQ * IntegerPart(Decode(r[REG_PLLA_BASE..REG_PLLA_BASE + BLOCK_LEN])) == PLLA_FREQ
  {
    InitWrites(w);
    AfterInitPlla(w.regs);
    PllaBlockIs800MHz();
  }

  /** Bring-up leaves the PLL A block holding the 800 MHz parameters. */
  lemma AfterInitPlla(regs: RegFile)
    ensures AfterInit(regs)[REG_PLLA_BASE..REG_PLLA_BASE + BLOCK_LEN] == PllaBlock()
  {
    var r := AfterInit(regs);
    assert forall k :: 0 <= k < BLOCK_LEN ==> r[REG_PLLA_BASE + k] == PllaBlock()[k];
  }

  // ---------------------------------------------------------------------
  // Frequency setting
  // ---------------------------------------------------------------------

  /**
   * `si5351_set_freq_ch` in build `b`.  A channel above 2 and, for a
   * non-zero frequency, a request the build's guard refuses are turned
   * away before any transfer.  Frequency 0 disables the channel: its
   * output-enable bit is set in the register read back (0xFF when that
   * read fails).  Otherwise the rounded integer divider's block is written
   * at the build's MultiSynth address, the channel is switched to integer
   * mode from PLL A, and its output-enable bit is cleared in the register
   * read back (0xFF when that read fails).  A zero target, which only the
   * written guard lets through, leaves the divider undefined; the model
   * stops there.
   */
  function SetFreqSpec(b: Build, w: Wire, addr: byte, ch: u32, mhz: u32): (e: Effect)
    ensures e.wire.peer == w.peer
    ensures ch >= CHANNELS ==> e == Effect(w, BadChannel(ch))
    ensures ch < CHANNELS && mhz != 0 && !Admits(b, mhz) ==> e == Effect(w, FreqTooHigh)
    ensures ch < CHANNELS && mhz != 0 && Admits(b, mhz) && TargetHz(b, mhz) == 0 ==> e == Effect(w, DividerUndefined)
    ensures e.report == DividerUndefined ==> b == AsWritten
  {
    if ch >= CHANNELS then Effect(w, BadChannel(ch))
    else if mhz == 0 then
      var oe := Rd8Spec(w, addr, REG_OE, OE_ALL_OFF);
      Effect(Wr8Spec(oe.wire, addr, REG_OE, SetBit(oe.value, ch)), Disabled(ch))
    else if !Admits(b, mhz) then Effect(w, FreqTooHigh)
    else if TargetHz(b, mhz) == 0 then Effect(w, DividerUndefined)
    else
      var div := Divider(TargetHz(b, mhz));
      var w1 := WriteSpec(w, addr, MsBlock(b, ch), IntegerBlock(div)).wire;
      var w2 := Wr8Spec(w1, addr, ClkCtrl(ch), CLK_CTRL_INT_PLLA);
      var oe := Rd8Spec(w2, addr, REG_OE, OE_ALL_OFF);
      Effect(Wr8Spec(oe.wire, addr, REG_OE, ClearBit(oe.value, ch)), Enabled(ch, mhz, div))
  }

  /**
   * Disabling a channel with every transfer acknowledged sets its bit of
   * the output-enable register and changes nothing else.
   */
  lemma DisableSetsOeBit(b: Build, w: Wire, ch: nat)
    requires ch < CHANNELS && AcksAhead(w.replies, 3)
    ensures var e := SetFreqSpec(b, w, w.peer, ch, 0);
      && e.report == Disabled(ch)
      && e.wire.regs == w.regs[REG_OE := SetBit(w.regs[REG_OE], ch)]
      && e.wire.replies == Drop(w.replies, 3)
      && Bit(e.wire.regs[REG_OE], ch)
      && forall j :: 0 <= j < 8 && j != ch ==> (Bit(e.wire.regs[REG_OE], j) <==> Bit(w.regs[REG_OE], j))
  {
    AcksAheadDrop2(w.replies, 3);
    DropStep(w.replies, 2);
    SetBitSpec(w.regs[REG_OE], ch);
  }

  /**
   * The register file as an acknowledged enable of channel `ch` with
   * divider `div` in build `b` leaves it.
   */
  function AfterEnable(b: Build, regs: RegFile, ch: nat, div: nat): (r: RegFile)
    requires ch < CHANNELS && div >= MIN_DIV
  {
    Store(regs, MsBlock(b, ch), IntegerBlock(div))[ClkCtrl(ch) := CLK_CTRL_INT_PLLA][REG_OE := ClearBit(regs[REG_OE], ch)]
  }

  /**
   * What enabling leaves behind: the channel's MultiSynth block (at the
   * build's address) holds the divider, which reads back exactly when P1
   * fits its 18 bits; its control register selects integer mode from PLL
   * A; its output-enable bit is clear and the other seven are as they
   * were; every other register is unchanged.
   */
  lemma AfterEnableSpec(b: Build, regs: RegFile, ch: nat, div: nat)
    requires ch < CHANNELS && MIN_DIV <= div
    ensures var r := AfterEnable(b, regs, ch, div);
      var base := MsBlock(b, ch);
      && r[base..base + BLOCK_LEN] == IntegerBlock(div)
      && (div <= 2051 ==> IntegerPart(Decode(r[base..base + BLOCK_LEN])) == div)
      && r[ClkCtrl(ch)] == CLK_CTRL_INT_PLLA
      && !Bit(r[REG_OE], ch)
      && (forall j :: 0 <= j < 8 && j != ch ==> (Bit(r[REG_OE], j) <==> Bit(regs[REG_OE], j)))
      && forall k :: 0 <= k < 256 && !InBlock(k, base) && k != ClkCtrl(ch) && k != REG_OE ==> r[k] == regs[k]
  {
    var base := MsBlock(b, ch);
    RegisterMapDisjoint(b, ch, ch);
    StoreSpec(regs, base, IntegerBlock(div));
    var r := AfterEnable(b, regs, ch, div);
    assert r[base..base + BLOCK_LEN] == IntegerBlock(div);
    if div <= 2051 {
      IntegerBlockDecodes(div);
    }
    ClearBitSpec(regs[REG_OE], ch);
  }

  /**
   * Enabling a channel at a frequency the build admits, with every
   * transfer acknowledged, programs the divider nearest to 800 MHz over the
   * build's target and leaves the register file as `AfterEnable`
   * describes; for 1..150 MHz both builds program the same divider,
   * between 5 and 800 and nearest to 800 / f.
   */
  lemma EnableProgramsChannel(b: Build, w: Wire, ch: nat, mhz: u32)
    requires ch < CHANNELS && mhz != 0 && Admits(b, mhz) && TargetHz(b, mhz) != 0 && AcksAhead(w.replies, 5)
    ensures var e := SetFreqSpec(b, w, w.peer, ch, mhz);
      var div := Divider(TargetHz(b, mhz));
      && e.report == Enabled(ch, mhz, div)
      && e.wire.regs == AfterEnable(b, w.regs, ch, div)
      && e.wire.replies == Drop(w.replies, 5)
      && (Accepts(mhz) ==> div == Divider(mhz * HZ_PER_MHZ) && 5 <= div <= 800
                           && 2 * mhz * div - mhz <= 1600 < 2 * mhz * div + mhz)
  {
    var div := Divider(TargetHz(b, mhz));
    BuildsAgreeInRange(b, mhz);
    if Accepts(mhz) {
      DividerRange(mhz);
      DividerInMHz(mhz);
    }
    EnableTransfers(b, w, ch, div);
  }

  /** The four transfers of an enable, every one acknowledged. */
  lemma EnableTransfers(b: Build, w: Wire, ch: nat, div: nat)
    requires ch < CHANNELS && div >= MIN_DIV && AcksAhead(w.replies, 5)
    ensures var w1 := WriteSpec(w, w.peer, MsBlock(b, ch), IntegerBlock(div)).wire;
      var w2 := Wr8Spec(w1, w.peer, ClkCtrl(ch), CLK_CTRL_INT_PLLA);
      var oe := Rd8Spec(w2, w.peer, REG_OE, OE_ALL_OFF);
      var w4 := Wr8Spec(oe.wire, w.peer, REG_OE, ClearBit(oe.value, ch));
      && w4.regs == AfterEnable(b, w.regs, ch, div)
      && w4.replies == Drop(w.replies, 5)
  {
    var rs := w.replies;
    AcksAheadTail(rs, 5);
    AcksAheadTail(Tail(rs), 4);
    AcksAheadDrop2(Tail(Tail(rs)), 3);
    AcksAheadTail(Drop(Tail(Tail(rs)), 2), 1);
    var base := MsBlock(b, ch);
    RegisterMapDisjoint(b, ch, ch);
    StoreSpec(w.regs, base, IntegerBlock(div));
    assert Store(w.regs, base, IntegerBlock(div))[REG_OE] == w.regs[REG_OE];
    DropStep(rs, 0);
    DropStep(rs, 1);
    DropStep(rs, 2);
    DropStep(rs, 3);
    DropStep(rs, 4);
    assert Drop(rs, 0) == rs;
    DropStep(Tail(Tail(rs)), 0);
    DropStep(Tail(Tail(rs)), 1);
    assert Drop(Tail(Tail(rs)), 0) == Tail(Tail(rs));
  }

  /** The rounding of `Divider` in MHz: the divider is nearest to 800 / f. */
  lemma DividerInMHz(mhz: nat)
    requires 1 <= mhz <= MAX_FREQ_MHZ
    ensures var div := Divider(mhz * HZ_PER_MHZ);
      2 * mhz * div - mhz <= 1600 < 2 * mhz * div + mhz
  {
    var f := mhz * HZ_PER_MHZ;
    var div := Divider(f);
    assert 2 * PLLA_FREQ >= 7 * f;
    assert 2 * f * div == (2 * mhz * div) * HZ_PER_MHZ;
  }

  /**
   * When the output-enable read fails during an enable, the register is
   * written as 0xFF with only the channel's bit cleared: every other output
   * is switched off.
   */
  lemma EnableAfterFailedOeRead(b: Build, w: Wire, ch: nat, mhz: u32)
    requires ch < CHANNELS && mhz != 0 && Admits(b, mhz) && TargetHz(b, mhz) != 0
    requires AckAt(w.replies, 0) && AckAt(w.replies, 1) && !AckAt(w.replies, 2) && AckAt(w.replies, 3)
    ensures var e := SetFreqSpec(b, w, w.peer, ch, mhz);
      && e.wire.regs[REG_OE] == ClearBit(OE_ALL_OFF, ch)
      && !Bit(e.wire.regs[REG_OE], ch)
      && forall j :: 0 <= j < 8 && j != ch ==> Bit(e.wire.regs[REG_OE], j)
  {
    EnableWritesDefaultMask(b, w, ch, mhz);
    OnlyChannelEnabled(ch);
  }

  /** The all-off mask with one channel's bit cleared enables that channel alone. */
  lemma OnlyChannelEnabled(ch: nat)
    requires ch < 8
    ensures !Bit(ClearBit(OE_ALL_OFF, ch), ch)
    ensures forall j :: 0 <= j < 8 && j != ch ==> Bit(ClearBit(OE_ALL_OFF, ch), j)
  {
    ClearBitSpec(OE_ALL_OFF, ch);
    assert forall j :: 0 <= j < 8 ==> Bit(OE_ALL_OFF, j);
  }

  /** With the mask read refused, the mask written is the default with the channel's bit cleared. */
  lemma EnableWritesDefaultMask(b: Build, w: Wire, ch: nat, mhz: u32)
    requires ch < CHANNELS && mhz != 0 && Admits(b, mhz) && TargetHz(b, mhz) != 0
    requires AckAt(w.replies, 0) && AckAt(w.replies, 1) && !AckAt(w.replies, 2) && AckAt(w.replies, 3)
    ensures SetFreqSpec(b, w, w.peer, ch, mhz).wire.regs[REG_OE] == ClearBit(OE_ALL_OFF, ch)
  {
    var rs := w.replies;
    DropStep(rs, 0);
    DropStep(rs, 1);
    DropStep(rs, 2);
    DropStep(rs, 3);
    assert Drop(rs, 0) == rs;
  }

  // ---------------------------------------------------------------------
  // The two builds compared
  // ---------------------------------------------------------------------

  /**
   * As written, setting output 1 writes its block two registers late:
   * registers 0x32 and 0x33, P3[15:0] of MultiSynth1, keep their old
   * values, while 0x3A and 0x3B, P3[15:0] of MultiSynth2, are overwritten
   * with the zero bytes of P2.
   */
  lemma Clk1AsWrittenMisplaced(w: Wire, mhz: u32)
    requires 1 <= mhz <= MAX_FREQ_MHZ && AcksAhead(w.replies, 5)
    ensures var r := SetFreqSpec(AsWritten, w, w.peer, 1, mhz).wire.regs;
      && r[0x34..0x3C] == IntegerBlock(Divider(mhz * HZ_PER_MHZ))
      && r[MsBase(1)] == w.regs[MsBase(1)] && r[MsBase(1) + 1] == w.regs[MsBase(1) + 1]
      && r[MsBase(2)] == 0 && r[MsBase(2) + 1] == 0
  {
    var div := Divider(mhz * HZ_PER_MHZ);
    EnableInRange(AsWritten, w, 1, mhz);
    Clk1BlockAsWritten(w.regs, div);
    var r := SetFreqSpec(AsWritten, w, w.peer, 1, mhz).wire.regs;
    assert r == AfterEnable(AsWritten, w.regs, 1, div);
    assert MsBase(1) == 0x32 && MsBase(2) == 0x3A;
  }

  /** For 1..150 MHz both builds leave the registers as `AfterEnable` with the same divider. */
  lemma EnableInRange(b: Build, w: Wire, ch: nat, mhz: u32)
    requires ch < CHANNELS && 1 <= mhz <= MAX_FREQ_MHZ && AcksAhead(w.replies, 5)
    ensures Divider(mhz * HZ_PER_MHZ) >= MIN_DIV
    ensures SetFreqSpec(b, w, w.peer, ch, mhz).wire.regs == AfterEnable(b, w.regs, ch, Divider(mhz * HZ_PER_MHZ))
  {
    BuildsAgreeInRange(b, mhz);
    EnableProgramsChannel(b, w, ch, mhz);
  }

  /** Where the written table puts output 1's block in the register file. */
  lemma Clk1BlockAsWritten(regs: RegFile, div: nat)
    requires div >= MIN_DIV
    ensures var r := AfterEnable(AsWritten, regs, 1, div);
      && r[0x34..0x3C] == IntegerBlock(div)
      && r[0x32] == regs[0x32] && r[0x33] == regs[0x33]
      && r[0x3A] == 0 && r[0x3B] == 0
  {
    AfterEnableSpec(AsWritten, regs, 1, div);
    var r := AfterEnable(AsWritten, regs, 1, div);
    assert r[0x3A] == r[0x34..0x3C][6] && r[0x3B] == r[0x34..0x3C][7];
  }

  /**
   * As intended, setting output 1 writes MultiSynth1 where AN619 puts it,
   * the divider reads back from it, and MultiSynth2 is left alone.
   */
  lemma Clk1IntendedInPlace(w: Wire, mhz: u32)
    requires 1 <= mhz <= MAX_FREQ_MHZ && AcksAhead(w.replies, 5)
    ensures var r := SetFreqSpec(Intended, w, w.peer, 1, mhz).wire.regs;
      var div := Divider(mhz * HZ_PER_MHZ);
      && r[MsBase(1)..MsBase(1) + BLOCK_LEN] == IntegerBlock(div)
      && IntegerPart(Decode(r[MsBase(1)..MsBase(1) + BLOCK_LEN])) == div
      && r[MsBase(2)..MsBase(2) + BLOCK_LEN] == w.regs[MsBase(2)..MsBase(2) + BLOCK_LEN]
  {
    var div := Divider(mhz * HZ_PER_MHZ);
    EnableInRange(Intended, w, 1, mhz);
    DividerRange(mhz);
    AfterEnableSpec(Intended, w.regs, 1, div);
    AfterEnableKeepsBlock(Intended, w.regs, 1, 2, div);
  }

  /** Enabling one channel leaves another channel's MultiSynth block as it was. */
  lemma AfterEnableKeepsBlock(b: Build, regs: RegFile, ch: nat, other: nat, div: nat)
    requires ch < CHANNELS && other < CHANNELS && ch != other && div >= MIN_DIV
    ensures var base := MsBlock(b, other);
      AfterEnable(b, regs, ch, div)[base..base + BLOCK_LEN] == regs[base..base + BLOCK_LEN]
  {
    var base := MsBlock(b, other);
    RegisterMapDisjoint(b, other, ch);
    AfterEnableSpec(b, regs, ch, div);
    var r := AfterEnable(b, regs, ch, div);
    assert forall k :: base <= k < base + BLOCK_LEN ==> r[k] == regs[k];
  }

  /**
   * As written, `clk0=4295` passes the guard on the wrapped product and
   * programs output 0 with divider 24462, whose block the chip reads back
   * as 1934.
   */
  lemma Freq4295AsWritten(w: Wire)
    requires AcksAhead(w.replies, 5)
    ensures var e := SetFreqSpec(AsWritten, w, w.peer, 0, 4295);
      && e.report == Enabled(0, 4295, 24462)
      && IntegerPart(Decode(e.wire.regs[MsBase(0)..MsBase(0) + BLOCK_LEN])) == 1934
  {
    GuardAsWrittenAdmits4295();
    EnableProgramsChannel(AsWritten, w, 0, 4295);
    AfterEnableSpec(AsWritten, w.regs, 0, 24462);
  }

  // ---------------------------------------------------------------------
  // Command dispatch
  // ---------------------------------------------------------------------

  /** `si5351_cli_handle` in build `b` once the line has been read as `c`. */
  function HandleSpec(b: Build, w: Wire, addr: byte, c: Command): (e: Effect)
    ensures e.wire.peer == w.peer
  {
    match c
    case NoOp => Effect(w, Silent)
    case Help => Effect(w, HelpText)
    case Scan =>
      var s := ScanQuickSpec(w);
      Effect(s.wire, ScanResult(s.addr))
    case WhoAmI =>
      var r0 := Rd8Spec(w, addr, 0x00, 0);
      var r1 := Rd8Spec(r0.wire, addr, 0x01, 0);
      Effect(r1.wire, Registers(r0.value, r1.value))
    case Init => Effect(InitSpec(w, addr), Initialized)
    case SetOe(on) =>
      Effect(Wr8Spec(w, addr, REG_OE, if on then OE_ALL_ON else OE_ALL_OFF), if on then OutputsOn else OutputsOff)
    case OeUsage => Effect(w, OeUsageText)
    case SetFreq(ch, mhz) => SetFreqSpec(b, w, addr, ch, mhz)
    case FreqUsage => Effect(w, FreqUsageText)
    case ClkUsage => Effect(w, ClkUsageText)
    case Unknown => Effect(w, UnknownCommand)
  }

  /**
   * Lines that ask for help, are malformed or unknown, name a bad channel,
   * ask for a frequency the build's guard refuses or one whose target is
   * 0 Hz cause no bus transfer at all.
   */
  lemma HandleQuiet(b: Build, w: Wire, addr: byte, c: Command)
    requires c.NoOp? || c.Help? || c.OeUsage? || c.FreqUsage? || c.ClkUsage? || c.Unknown?
             || (c.SetFreq? && (c.ch >= CHANNELS || (c.mhz != 0 && (!Admits(b, c.mhz) || TargetHz(b, c.mhz) == 0))))
    ensures HandleSpec(b, w, addr, c).wire == w
  {}

  /**
   * `oe on` enables and `oe off` disables every output with a single write
   * of the output-enable register; nothing else changes.
   */
  lemma OeWritesOnlyOe(b: Build, w: Wire, on: bool)
    requires AcksAhead(w.replies, 1)
    ensures var e := HandleSpec(b, w, w.peer, SetOe(on));
      && e.wire.regs == w.regs[REG_OE := if on then OE_ALL_ON else OE_ALL_OFF]
      && e.wire.replies == Tail(w.replies)
      && (on ==> forall j :: 0 <= j < 8 ==> !Bit(e.wire.regs[REG_OE], j))
      && (!on ==> forall j :: 0 <= j < 8 ==> Bit(e.wire.regs[REG_OE], j))
  {
    AcksAheadTail(w.replies, 1);
  }

  /**
   * The console's state: the bus it drives (`g_i2c`) and the chip's
   * address (`g_addr`), with the build it follows (the firmware as shipped
   * is `AsWritten`).
   */
  class Cli {
    var bus: Bus
    var addr: byte
    const build: Build

    /** `si5351_cli_init`: the address is cut to 7 bits. */
    constructor (port: Bus, a: byte, b: Build)
      ensures bus == port && addr == a % 128 && build == b
    {
      bus := port;
      addr := a % 128;
      build := b;
    }

    method Wr8(reg: byte, v: byte)
      modifies bus
      ensures bus.Snapshot() == Wr8Spec(old(bus.Snapshot()), addr, reg, v)
      ensures bus.Env() == old(bus.Env())
    {
      var _ := Write(bus, addr, reg, [v]);
    }

    method Rd8(reg: byte, dflt: byte) returns (rc: int, value: byte)
      modifies bus
      ensures bus.Snapshot() == Rd8Spec(old(bus.Snapshot()), addr, reg, dflt).wire
      ensures value == Rd8Spec(old(bus.Snapshot()), addr, reg, dflt).value
      ensures bus.Env() == old(bus.Env())
    {
      var data;
      rc, data := Read(bus, addr, reg, [dflt]);
      value := data[0];
    }

    method InitBasic()
      modifies bus
      ensures bus.Snapshot() == InitSpec(old(bus.Snapshot()), addr)
      ensures bus.Env() == old(bus.Env())
    {
      Wr8(REG_OE, OE_ALL_OFF);
      Wr8(REG_CRYSTAL_LOAD, XTAL_LOAD_8PF);
      var _ := Write(bus, addr, REG_PLLA_BASE, PllaBlock());
      Wr8(REG_PLL_RESET, PLL_RESET_AB);
    }

    method SetFreqCh(ch: u32, mhz: u32) returns (report: Report)
      modifies bus
      ensures Effect(bus.Snapshot(), report) == SetFreqSpec(build, old(bus.Snapshot()), addr, ch, mhz)
      ensures bus.Env() == old(bus.Env())
    {
      if ch >= CHANNELS {
        return BadChannel(ch);
      }
      if mhz == 0 {
        var _, oe := Rd8(REG_OE, OE_ALL_OFF);
        Wr8(REG_OE, SetBit(oe, ch));
        return Disabled(ch);
      }
      var hz := TargetHz(build, mhz);
      if !Admits(build, mhz) {
        return FreqTooHigh;
      }
      if hz == 0 {
        return DividerUndefined;
      }
      var div := Divider(hz);
      var _ := Write(bus, addr, MsBlock(build, ch), IntegerBlock(div));
      Wr8(ClkCtrl(ch), CLK_CTRL_INT_PLLA);
      var _, oe := Rd8(REG_OE, OE_ALL_OFF);
      Wr8(REG_OE, ClearBit(oe, ch));
      report := Enabled(ch, mhz, div);
    }

    /** `si5351_cli_handle`. */
    method Handle(cmd: string) returns (report: Report)
      requires '\0' !in cmd
      modifies bus
      ensures Effect(bus.Snapshot(), report) == HandleSpec(build, old(bus.Snapshot()), addr, Parse(cmd))
      ensures bus.Env() == old(bus.Env())
    {
      var c := ParseLine(cmd);
      match c
      case NoOp => report := Silent;
      case Help => report := HelpText;
      case Scan =>
        var found := ScanQuick(bus);
        report := ScanResult(found);
      case WhoAmI =>
        var _, r0 := Rd8(0x00, 0);
        var _, r1 := Rd8(0x01, 0);
        report := Registers(r0, r1);
      case Init =>
        InitBasic();
        report := Initialized;
      case SetOe(on) =>
        Wr8(REG_OE, if on then OE_ALL_ON else OE_ALL_OFF);
        report := if on then OutputsOn else OutputsOff;
      case OeUsage => report := OeUsageText;
      case SetFreq(ch, mhz) => report := SetFreqCh(ch, mhz);
      case FreqUsage => report := FreqUsageText;
      case ClkUsage => report := ClkUsageText;
      case Unknown => report := UnknownCommand;
    }
  }
}
