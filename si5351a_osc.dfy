/**
 * The firmware's main program: boot (bus clear, I2C bring-up, a ping of
 * the clock generator, a strict scan, and a fixed command script that
 * leaves CLK0 at 100 MHz with CLK1 and CLK2 off), followed by the command
 * loop that edits one line at a time and hands it to a local command or to
 * the register engine's console.
 */
module Osc {
  import opened Common
  import opened PicoSdk
  import opened I2cComm
  import opened Si5351Regs
  import opened CliParse
  import opened Si5351Cli
  import opened SerialComm

  const SDA_PIN: nat := 7
  const SCL_PIN: nat := 6
  const I2C_SPEED: nat := 100000
  /** The board's clock generator answers at this address. */
  const CHIP_ADDR: byte := 0x60
  const PING_TOUT_US: nat := 5000
  const CMD_BUF_LEN: nat := 64
  /** The longest line the editor keeps; one place is left for the terminator. */
  const EDIT_MAX: nat := CMD_BUF_LEN - 1
  const STRICT_FIRST: byte := 0x03
  const STRICT_LAST: byte := 0x77
  const STRICT_COUNT: nat := 0x77 - 0x03 + 1
  const STRICT_TOUT_US: nat := 2000

  // ---------------------------------------------------------------------
  // Line editor
  // ---------------------------------------------------------------------

  /** The characters the editor keeps: 0x20 .. 0x7E. */
  predicate Printable(c: char) { ' ' <= c <= '~' }

  predicate AllPrintable(s: string) { forall i :: 0 <= i < |s| ==> Printable(s[i]) }

  /**
   * One input to the line editor: an end of line on a non-empty buffer
   * yields the line and empties the buffer; on an empty buffer it does
   * nothing; a printable character is appended while fewer than 63 are
   * held; everything else is dropped.
   */
  function Edit(buffered: string, k: Input): (r: Line)
    requires |buffered| <= EDIT_MAX && AllPrintable(buffered)
    ensures |r.buffered| <= EDIT_MAX && AllPrintable(r.buffered)
    ensures r.line.Some? <==> IsEolInput(k) && buffered != []
    ensures r.line.Some? ==> r.line.value == buffered
    ensures IsEolInput(k) ==> r.buffered == []
    ensures !IsEolInput(k) ==>
      r.buffered == if k.Char? && Printable(k.c) && |buffered| < EDIT_MAX then buffered + [k.c] else buffered
  {
    match k
    case TimedOut => Line(buffered, None)
    case Char(c) =>
      if IsEol(c) then
        if buffered == [] then Line(buffered, None) else Line([], Some(buffered))
      else if Printable(c) && |buffered| < EDIT_MAX then Line(buffered + [c], None)
      else Line(buffered, None)
  }

  /** Every line the editor hands on is a non-empty C string of at most 63 printable characters. */
  lemma EditedLineIsCommand(buffered: string, k: Input)
    requires |buffered| <= EDIT_MAX && AllPrintable(buffered)
    ensures var r := Edit(buffered, k);
      r.line.Some? ==> 0 < |r.line.value| <= EDIT_MAX && AllPrintable(r.line.value) && '\0' !in r.line.value
  {
    var r := Edit(buffered, k);
    if r.line.Some? {
      assert forall c :: c in r.line.value ==> Printable(c);
    }
  }

  /** What the loop does with a completed line. */
  datatype Action = StrictScan | PingChip | ToCli(line: string)

  /** `strcasecmp` against "scan" and "ping"; every other line goes to the console. */
  function Route(line: string): Action
    requires '\0' !in line
  {
    if Stricmp(line, "scan") == 0 then StrictScan
    else if Stricmp(line, "ping") == 0 then PingChip
    else ToCli(line)
  }

  /** Only whole-line "scan" and "ping", in any case, stay local; the console gets every other line unchanged. */
  lemma RouteCases(line: string)
    requires '\0' !in line
    ensures Route(line) == StrictScan <==> Lower(line) == "scan"
    ensures Route(line) == PingChip <==> Lower(line) == "ping"
    ensures Route(line).ToCli? <==> Lower(line) != "scan" && Lower(line) != "ping"
    ensures Route(line).ToCli? ==> Route(line).line == line
  {
    StricmpZeroIff(line, "scan");
    StricmpZeroIff(line, "ping");
    assert Lower("scan") == "scan" && Lower("ping") == "ping";
  }

  // ---------------------------------------------------------------------
  // Strict scan and ping
  // ---------------------------------------------------------------------

  /** The two transfers the strict scan makes at `addr`: register 0 selected, then one byte read. */
  function StrictPair(addr: byte): seq<Event>
  {
    [WriteTxn(addr, [0], true, STRICT_TOUT_US), ReadTxn(addr, 1, false, STRICT_TOUT_US)]
  }

  /** The transfers of addresses `lo` .. `hi - 1`, in ascending order. */
  function StrictPairs(lo: nat, hi: nat): (r: seq<Event>)
    requires lo <= hi <= 256
    decreases hi - lo
    ensures |r| == 2 * (hi - lo)
  {
    if lo == hi then [] else StrictPairs(lo, hi - 1) + StrictPair(hi - 1)
  }

  /** Each address in range gets its write and then its read, addresses in ascending order. */
  lemma {:induction false} StrictPairsAscending(lo: nat, hi: nat, i: nat)
    requires lo <= hi <= 256 && i < hi - lo
    decreases hi - lo
    ensures StrictPairs(lo, hi)[2 * i] == WriteTxn(lo + i, [0], true, STRICT_TOUT_US)
    ensures StrictPairs(lo, hi)[2 * i + 1] == ReadTxn(lo + i, 1, false, STRICT_TOUT_US)
  {
    if i < hi - 1 - lo {
      StrictPairsAscending(lo, hi - 1, i);
    }
  }

  /** How many of the first `n` transfer pairs had both halves acknowledged. */
  function CountPairs(rs: seq<Reply>, n: nat): (c: nat)
    ensures c <= n
  {
    if n == 0 then 0
    else CountPairs(rs, n - 1) + if AckAt(rs, 2 * (n - 1)) && AckAt(rs, 2 * (n - 1) + 1) then 1 else 0
  }

  /** The bus after a scan step, and how many devices it has found. */
  datatype Tally = Tally(wire: Wire, found: nat)

  /** The probe of one address: found only when both the write and the read succeed. */
  function StrictProbe(w: Wire, addr: byte): Tally
  {
    var wr := RawWrite(w, addr, [0], true, STRICT_TOUT_US);
    var rd := RawRead(wr.wire, addr, 1, false, STRICT_TOUT_US);
    Tally(rd.wire, if wr.rc >= 0 && rd.rc >= 0 then 1 else 0)
  }

  /** `scan_strict` after its first `n` addresses. */
  function StrictScanSpec(w: Wire, n: nat): Tally
    requires n <= STRICT_COUNT
  {
    if n == 0 then Tally(w, 0) else ScanNext(StrictScanSpec(w, n - 1), STRICT_FIRST + n - 1)
  }

  /** The scan so far followed by the probe of `addr`. */
  function ScanNext(t: Tally, addr: byte): Tally
  {
    var p := StrictProbe(t.wire, addr);
    Tally(p.wire, t.found + p.found)
  }

  /** One address of the strict scan: two transfers, no register written, found when both are acknowledged. */
  lemma StrictProbeStep(w: Wire, addr: byte)
    ensures var p := StrictProbe(w, addr);
      && p.found == (if AckAt(w.replies, 0) && AckAt(w.replies, 1) then 1 else 0)
      && p.wire.replies == Drop(w.replies, 2)
      && p.wire.log == w.log + StrictPair(addr)
      && p.wire.regs == w.regs && p.wire.peer == w.peer
  {
    DropStep(w.replies, 0);
    DropStep(w.replies, 1);
    assert Drop(w.replies, 0) == w.replies;
    assert [0][1..] == [];
    assert Store(w.regs, 0, []) == w.regs;
  }

  /** What the first `n` addresses of the strict scan leave behind, starting from `w`. */
  ghost predicate Scanned(w: Wire, n: nat, t: Tally)
    requires n <= STRICT_COUNT
  {
    && t.wire.replies == Drop(w.replies, 2 * n)
    && t.wire.regs == w.regs && t.wire.peer == w.peer
    && t.wire.log == w.log + StrictPairs(STRICT_FIRST, STRICT_FIRST + n)
    && t.found == CountPairs(w.replies, n)
  }

  /** Probing one more address extends what the scan so far left behind. */
  lemma ScannedStep(w: Wire, n: nat, t: Tally)
    requires 0 < n <= STRICT_COUNT && Scanned(w, n - 1, t)
    ensures Scanned(w, n, ScanNext(t, STRICT_FIRST + n - 1))
  {
    var k := 2 * (n - 1);
    StrictProbeStep(t.wire, STRICT_FIRST + n - 1);
    DropAdd(w.replies, k, 2);
    FoundStep(w.replies, n, t.wire.replies, t.found, StrictProbe(t.wire, STRICT_FIRST + n - 1).found);
  }

  /** The count of answering addresses grows by what the next probe found. */
  lemma FoundStep(rs: seq<Reply>, n: nat, rest: seq<Reply>, before: nat, hit: nat)
    requires 0 < n && rest == Drop(rs, 2 * (n - 1)) && before == CountPairs(rs, n - 1)
    requires hit == if AckAt(rest, 0) && AckAt(rest, 1) then 1 else 0
    ensures before + hit == CountPairs(rs, n)
  {
    DropAdd(rs, 2 * (n - 1), 0);
    DropAdd(rs, 2 * (n - 1), 1);
  }

  /**
   * The strict scan makes two transfers per address, address by address from
   * 0x03 upwards, writes no register and counts the addresses whose two
   * transfers were both acknowledged.
   */
  lemma {:induction false} StrictScanSummary(w: Wire, n: nat)
    requires n <= STRICT_COUNT
    ensures var t := StrictScanSpec(w, n);
      && t.wire.replies == Drop(w.replies, 2 * n)
      && t.wire.regs == w.regs && t.wire.peer == w.peer
      && t.wire.log == w.log + StrictPairs(STRICT_FIRST, STRICT_FIRST + n)
      && t.found == CountPairs(w.replies, n)
  {
    ScannedAll(w, n);
  }

  lemma {:induction false} ScannedAll(w: Wire, n: nat)
    requires n <= STRICT_COUNT
    ensures Scanned(w, n, StrictScanSpec(w, n))
  {
    if n > 0 {
      ScannedAll(w, n - 1);
      ScannedStep(w, n, StrictScanSpec(w, n - 1));
    }
  }

  method ScanStrict(bus: Bus) returns (found: int)
    modifies bus
    ensures bus.Snapshot() == StrictScanSpec(old(bus.Snapshot()), STRICT_COUNT).wire
    ensures found == StrictScanSpec(old(bus.Snapshot()), STRICT_COUNT).found
    ensures bus.Env() == old(bus.Env())
  {
    ghost var w0 := bus.Snapshot();
    found := 0;
    var addr: int := STRICT_FIRST;
    while addr <= STRICT_LAST
      invariant STRICT_FIRST <= addr <= STRICT_LAST + 1
      invariant bus.Snapshot() == StrictScanSpec(w0, addr - STRICT_FIRST).wire
      invariant found == StrictScanSpec(w0, addr - STRICT_FIRST).found
      invariant bus.Env() == old(bus.Env())
    {
      ghost var t := StrictScanSpec(w0, addr - STRICT_FIRST);
      var rc1 := bus.WriteTimeoutUs(addr, [0], true, STRICT_TOUT_US);
      var rc2, _ := bus.ReadTimeoutUs(addr, 1, false, STRICT_TOUT_US);
      if rc1 >= 0 && rc2 >= 0 {
        found := found + 1;
      }
      assert Tally(bus.Snapshot(), found) == ScanNext(t, addr);
      assert StrictScanSpec(w0, addr + 1 - STRICT_FIRST) == ScanNext(t, addr);
      addr := addr + 1;
    }
  }

  /** `ping_si5351`: a zero-length write to the chip. */
  function PingSpec(w: Wire): (r: WriteOutcome)
    ensures r.rc >= 0 <==> Head(w.replies) == Ack
    ensures r.wire == w.(replies := Tail(w.replies), log := w.log + [Probe(CHIP_ADDR, PING_TOUT_US)])
  {
    RawWrite(w, CHIP_ADDR, [], false, PING_TOUT_US)
  }

  method PingSi5351(bus: Bus) returns (rc: int)
    modifies bus
    ensures bus.Snapshot() == PingSpec(old(bus.Snapshot())).wire && rc == PingSpec(old(bus.Snapshot())).rc
    ensures bus.Env() == old(bus.Env())
  {
    rc := bus.WriteTimeoutUs(CHIP_ADDR, [], false, PING_TOUT_US);
  }

  // ---------------------------------------------------------------------
  // Boot
  // ---------------------------------------------------------------------

  /** Four lines handed to the command handler of build `b` one after the other. */
  function Script(b: Build, w: Wire, addr: byte, l1: string, l2: string, l3: string, l4: string): (w': Wire)
    ensures w'.peer == w.peer
  {
    var w1 := HandleSpec(b, w, addr, Parse(l1)).wire;
    var w2 := HandleSpec(b, w1, addr, Parse(l2)).wire;
    var w3 := HandleSpec(b, w2, addr, Parse(l3)).wire;
    HandleSpec(b, w3, addr, Parse(l4)).wire
  }

  /**
   * The boot script: "init", "clk0=100", "clk1=0", "clk2=0" through the
   * command handler as the firmware is written.
   */
  function BootScript(w: Wire, addr: byte): (w': Wire)
    ensures w'.peer == w.peer
  {
    Script(AsWritten, w, addr, "init", "clk0=100", "clk1=0", "clk2=0")
  }

  /** The script's first line brings the chip up. */
  lemma InitLineParses()
    ensures Parse("init") == Init
  {
    ParseRender(Init);
  }

  /** A script line that sets channel `ch` to `mhz` MHz. */
  lemma ClkLineParses(ch: nat, mhz: nat, line: string)
    requires ch < CHANNELS && mhz <= INT_MAX
    requires line == "clk" + [DigitChar(ch)] + "=" + Decimal(mhz)
    ensures Parse(line) == SetFreq(ch, mhz)
  {
    ParseRender(SetFreq(ch, mhz));
  }

  /** The script's second line sets CLK0 to 100 MHz. */
  lemma Clk0LineParses()
    ensures Parse("clk0=100") == SetFreq(0, 100)
  {
    assert Decimal(100) == "100" by {
      assert Decimal(10) == "10";
    }
    ClkLineParses(0, 100, "clk0=100");
  }

  /** The script's third line switches CLK1 off. */
  lemma Clk1OffParses()
    ensures Parse("clk1=0") == SetFreq(1, 0)
  {
    ClkLineParses(1, 0, "clk1=0");
  }

  /** The script's last line switches CLK2 off. */
  lemma Clk2OffParses()
    ensures Parse("clk2=0") == SetFreq(2, 0)
  {
    ClkLineParses(2, 0, "clk2=0");
  }

  /** Enabling CLK0 at 100 MHz programs the divider 8. */
  lemma EnableClk0At100(w: Wire)
    requires AcksAhead(w.replies, 5)
    ensures var e := SetFreqSpec(AsWritten, w, w.peer, 0, 100).wire;
      e.regs == AfterEnable(AsWritten, w.regs, 0, 8) && e.replies == Drop(w.replies, 5)
  {
    DividerExact(100);
    BuildsAgreeInRange(AsWritten, 100);
    EnableProgramsChannel(AsWritten, w, 0, 100);
  }

  /** The register file the boot script leaves when every transfer is acknowledged. */
  function BootRegs(regs: RegFile): RegFile
  {
    var r1 := AfterEnable(AsWritten, AfterInit(regs), 0, 8);
    var r2 := r1[REG_OE := SetBit(r1[REG_OE], 1)];
    r2[REG_OE := SetBit(r2[REG_OE], 2)]
  }

  /** With all fifteen transfers acknowledged, the boot script's register writes are those of `BootRegs`. */
  lemma BootScriptWrites(w: Wire)
    requires w.peer == CHIP_ADDR && AcksAhead(w.replies, 15)
    ensures BootScript(w, CHIP_ADDR).regs == BootRegs(w.regs)
  {
    InitLineParses();
    Clk0LineParses();
    Clk1OffParses();
    Clk2OffParses();
    BootCommandsWrite(w, Parse("init"), Parse("clk0=100"), Parse("clk1=0"), Parse("clk2=0"));
  }

  /** The boot script's four commands, taken one at a time. */
  lemma BootCommandsWrite(w: Wire, c1: Command, c2: Command, c3: Command, c4: Command)
    requires w.peer == CHIP_ADDR && AcksAhead(w.replies, 15)
    requires c1 == Init && c2 == SetFreq(0, 100) && c3 == SetFreq(1, 0) && c4 == SetFreq(2, 0)
    ensures var w1 := HandleSpec(AsWritten, w, CHIP_ADDR, c1).wire;
      var w2 := HandleSpec(AsWritten, w1, CHIP_ADDR, c2).wire;
      var w3 := HandleSpec(AsWritten, w2, CHIP_ADDR, c3).wire;
      HandleSpec(AsWritten, w3, CHIP_ADDR, c4).wire.regs == BootRegs(w.regs)
  {
    var w1 := BootStageInit(w, c1);
    AcksAheadDrop(w.replies, 15, 4);
    var w2 := BootStageClk0(w1, c2);
    AcksAheadDrop(w1.replies, 11, 5);
    var w3 := BootStageOff(w2, c3, 1, 6);
    AcksAheadDrop(w2.replies, 6, 3);
    var w4 := BootStageOff(w3, c4, 2, 3);
    BootRegsChain(w.regs, w1.regs, w2.regs, w3.regs, w4.regs);
  }

  lemma BootStageInit(w: Wire, c: Command) returns (w': Wire)
    requires c == Init && AcksAhead(w.replies, 4)
    ensures w' == HandleSpec(AsWritten, w, w.peer, c).wire
    ensures w'.regs == AfterInit(w.regs) && w'.replies == Drop(w.replies, 4) && w'.peer == w.peer
  {
    InitWrites(w);
    w' := HandleSpec(AsWritten, w, w.peer, c).wire;
  }

  lemma BootStageClk0(w: Wire, c: Command) returns (w': Wire)
    requires c == SetFreq(0, 100) && AcksAhead(w.replies, 11)
    ensures w' == HandleSpec(AsWritten, w, w.peer, c).wire
    ensures w'.regs == AfterEnable(AsWritten, w.regs, 0, 8) && w'.replies == Drop(w.replies, 5) && w'.peer == w.peer
  {
    assert HandleSpec(AsWritten, w, w.peer, c) == SetFreqSpec(AsWritten, w, w.peer, 0, 100);
    EnableClk0At100(w);
    w' := HandleSpec(AsWritten, w, w.peer, c).wire;
  }

  lemma BootStageOff(w: Wire, c: Command, ch: nat, n: nat) returns (w': Wire)
    requires ch < CHANNELS && c == SetFreq(ch, 0) && 3 <= n && AcksAhead(w.replies, n)
    ensures w' == HandleSpec(AsWritten, w, w.peer, c).wire
    ensures w'.regs == w.regs[REG_OE := SetBit(w.regs[REG_OE], ch)] && w'.replies == Drop(w.replies, 3)
    ensures w'.peer == w.peer
  {
    DisableSetsOeBit(AsWritten, w, ch);
    w' := HandleSpec(AsWritten, w, w.peer, c).wire;
  }

  /** The register files after each line of the boot script, chained together. */
  lemma BootRegsChain(r0: RegFile, r1: RegFile, r2: RegFile, r3: RegFile, r4: RegFile)
    requires r1 == AfterInit(r0) && r2 == AfterEnable(AsWritten, r1, 0, 8)
    requires r3 == r2[REG_OE := SetBit(r2[REG_OE], 1)] && r4 == r3[REG_OE := SetBit(r3[REG_OE], 2)]
    ensures r4 == BootRegs(r0)
  {
  }

  /** Only CLK0's output-enable bit ends up clear. */
  lemma BootOeMask()
    ensures SetBit(SetBit(ClearBit(OE_ALL_OFF, 0), 1), 2) == 0xFE
  {
    assert ClearBit(OE_ALL_OFF, 0) == 0xFE;
    assert SetBit(0xFE, 1) == 0xFE;
  }

  /**
   * The boot script's registers: output-enable mask 0xFE (only CLK0 on),
   * CLK0's MultiSynth block holding the integer divider 8 (P1 = 512, and
   * 800 MHz / 8 = 100 MHz), CLK0 fed from PLL A in integer mode, and PLL A
   * programmed for 800 MHz.
   */
  lemma BootRegsResult(regs: RegFile)
    ensures var r := BootRegs(regs);
      && r[REG_OE] == 0xFE
      && r[MsBase(0)..MsBase(0) + BLOCK_LEN] == IntegerBlock(8)
      && Decode(r[MsBase(0)..MsBase(0) + BLOCK_LEN]).p1 == 512
      && IntegerPart(Decode(r[MsBase(0)..MsBase(0) + BLOCK_LEN])) * 100 * HZ_PER_MHZ == PLLA_FREQ
      && r[ClkCtrl(0)] == CLK_CTRL_INT_PLLA
      && r[REG_PLLA_BASE..REG_PLLA_BASE + BLOCK_LEN] == PllaBlock()
  {
    BootRegsOe(regs);
    BootRegsClk0(regs);
    BootRegsPlla(regs);
    IntegerBlockDecodes(8);
  }

  lemma BootRegsOe(regs: RegFile)
    ensures BootRegs(regs)[REG_OE] == 0xFE
  {
    var r0 := AfterInit(regs);
    assert r0[REG_OE] == OE_ALL_OFF;
    assert AfterEnable(AsWritten, r0, 0, 8)[REG_OE] == ClearBit(OE_ALL_OFF, 0);
    BootOeMask();
  }

  lemma BootRegsClk0(regs: RegFile)
    ensures BootRegs(regs)[MsBase(0)..MsBase(0) + BLOCK_LEN] == IntegerBlock(8)
    ensures BootRegs(regs)[ClkCtrl(0)] == CLK_CTRL_INT_PLLA
  {
    var r1 := AfterEnable(AsWritten, AfterInit(regs), 0, 8);
    AfterEnableSpec(AsWritten, AfterInit(regs), 0, 8);
    RegisterMapDisjoint(AsWritten, 0, 0);
    OeUpdatesKeep(r1, MsBase(0), SetBit(r1[REG_OE], 1));
  }

  lemma BootRegsPlla(regs: RegFile)
    ensures BootRegs(regs)[REG_PLLA_BASE..REG_PLLA_BASE + BLOCK_LEN] == PllaBlock()
  {
    var r0 := AfterInit(regs);
    var r1 := AfterEnable(AsWritten, r0, 0, 8);
    RegisterMapDisjoint(AsWritten, 0, 0);
    AfterEnableSpec(AsWritten, r0, 0, 8);
    AfterInitPlla(regs);
    assert r1[REG_PLLA_BASE..REG_PLLA_BASE + BLOCK_LEN] == PllaBlock();
    OeUpdatesKeep(r1, REG_PLLA_BASE, SetBit(r1[REG_OE], 1));
  }

  /** Two writes to the output-enable register leave a block clear of it as it was. */
  lemma OeUpdatesKeep(r: RegFile, base: nat, v: byte)
    requires base + BLOCK_LEN <= 256 && !(base <= REG_OE < base + BLOCK_LEN) && base != REG_OE
    ensures var r2 := r[REG_OE := v];
      var r3 := r2[REG_OE := SetBit(r2[REG_OE], 2)];
      r3[base..base + BLOCK_LEN] == r[base..base + BLOCK_LEN]
  {
  }

  /** The bus once it has been cleared with `pulses` clock pulses and the peripheral brought up. */
  function Prepared(w: Wire, pulses: nat): Wire
  {
    w.(log := w.log + [PinsToGpio(SDA_PIN, SCL_PIN)] + Pulses(SCL_PIN, pulses)
              + [PeriphInit(I2C_SPEED), PinsToI2c(SDA_PIN, SCL_PIN)])
  }

  /**
   * `main` up to its command loop.  The loop is reached (a console is
   * returned) exactly when the peripheral comes up and the chip
   * acknowledges the ping; the bus has then seen the clear, the ping, the
   * strict scan and the boot script, in that order.  Otherwise the
   * firmware stops there.
   */
  method Boot(bus: Bus) returns (cli: Cli?)
    modifies bus
    ensures (cli != null) == (old(bus.initRc) >= 0 && Head(old(bus.replies)) == Ack)
    ensures cli != null ==> fresh(cli) && cli.bus == bus && cli.addr == CHIP_ADDR && cli.build == AsWritten
    ensures cli != null ==>
      bus.Snapshot() == BootScript(StrictScanSpec(PingSpec(Prepared(old(bus.Snapshot()), PulseCount(old(bus.samples)))).wire,
                                                  STRICT_COUNT).wire, CHIP_ADDR)
  {
    ghost var w0 := bus.Snapshot();
    ghost var pulses := PulseCount(bus.samples);
    BusClear(bus, SDA_PIN, SCL_PIN);
    bus.SleepMs(2);
    var ok := InitConfig(bus, I2C_SPEED, SDA_PIN, SCL_PIN);
    if !ok {
      return null;
    }
    assert bus.Snapshot() == Prepared(w0, pulses);
    var rc := PingSi5351(bus);
    if rc < 0 {
      return null;
    }
    var _ := ScanStrict(bus);
    cli := new Cli(bus, CHIP_ADDR, AsWritten);
    RunScript(cli, "init", "clk0=100", "clk1=0", "clk2=0");
  }

  /** Four lines through the command handler, with a pause after the first. */
  method RunScript(cli: Cli, l1: string, l2: string, l3: string, l4: string)
    requires '\0' !in l1 && '\0' !in l2 && '\0' !in l3 && '\0' !in l4
    modifies cli.bus
    ensures cli.bus.Snapshot() == Script(cli.build, old(cli.bus.Snapshot()), cli.addr, l1, l2, l3, l4)
    ensures cli.bus.now == old(cli.bus.now) + 100
  {
    var _ := cli.Handle(l1);
    cli.bus.SleepMs(100);
    var _ := cli.Handle(l2);
    var _ := cli.Handle(l3);
    var _ := cli.Handle(l4);
  }

  // ---------------------------------------------------------------------
  // Command loop
  // ---------------------------------------------------------------------

  /** The bus after a completed line has been acted on by a console of build `b`. */
  function Act(b: Build, w: Wire, addr: byte, a: Action): Wire
  {
    match a
    case StrictScan => StrictScanSpec(w, STRICT_COUNT).wire
    case PingChip => PingSpec(w).wire
    case ToCli(line) => HandleSpec(b, w, addr, Parse(line)).wire
  }

  /** `main`'s line buffer and index, and the console it feeds. */
  class Shell {
    var cmd: array<char>
    var idx: int
    const cli: Cli

    ghost predicate Valid()
      reads this, cmd
    {
      cmd.Length == CMD_BUF_LEN && 0 <= idx <= EDIT_MAX && forall i :: 0 <= i < idx ==> Printable(cmd[i])
    }

    function Buffered(): string
      reads this, cmd
      requires Valid()
    {
      cmd[..idx]
    }

    constructor (cli: Cli)
      ensures Valid() && Buffered() == [] && this.cli == cli && fresh(cmd)
    {
      this.cli := cli;
      cmd := new char[CMD_BUF_LEN](_ => '\0');
      idx := 0;
    }

    /**
     * One pass of the command loop: one input is edited into the line; a
     * completed line is acted on exactly once.
     */
    method Serve(con: Console)
      requires Valid()
      modifies this, cmd, con, cli.bus
      ensures Valid() && cmd == old(cmd)
      ensures con.pending == AfterNext(old(con.pending))
      ensures var e := Edit(old(Buffered()), NextInput(old(con.pending)));
        && Buffered() == e.buffered
        && cli.bus.Snapshot() == (if e.line.Some? then Act(cli.build, old(cli.bus.Snapshot()), cli.addr, Route(e.line.value))
                                  else old(cli.bus.Snapshot()))
    ensures cli.bus.Env() == old(cli.bus.Env())
    {
      ghost var b := Buffered();
      EditedLineIsCommand(b, NextInput(con.pending));
      var k := con.GetChar();
      match k
      case TimedOut =>
      case Char(c) =>
        if IsEol(c) {
          if idx == 0 {
            return;
          }
          var line := cmd[..idx];
          idx := 0;
          if Stricmp(line, "scan") == 0 {
            var _ := ScanStrict(cli.bus);
          } else if Stricmp(line, "ping") == 0 {
            var _ := PingSi5351(cli.bus);
          } else {
            var _ := cli.Handle(line);
          }
        } else if Printable(c) && idx < EDIT_MAX {
          cmd[idx] := c;
          idx := idx + 1;
        }
    }
  }
}
