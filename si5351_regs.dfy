/**
 * The register map of the Si5351A clock generator as the firmware drives
 * it, and the arithmetic behind an output frequency: the integer output
 * divider for a requested frequency, and the 8-byte parameter block
 * (P1, P2, P3) that a PLL feedback divider or an output MultiSynth divider
 * is programmed with (Silicon Labs application note AN619, "Manually
 * Generating an Si5351 Register Map", sections 3.2 and 4.1).
 *
 * Only integer dividers are used: a divider `a + b/c` with b = 0 and c = 1,
 * for which P1 = 128a - 512, P2 = 0 and P3 = 1.
 */
module Si5351Regs {
  import opened Common

  /** The reference crystal, in Hz. */
  const XTAL_FREQ: nat := 25000000
  /** PLL A after initialisation, in Hz. */
  const PLLA_FREQ: nat := 800000000
  /** PLL A feedback multiplier: 25 MHz x 32 = 800 MHz. */
  const PLLA_MULT: nat := 32
  /** Highest output frequency the firmware accepts. */
  const MAX_FREQ_HZ: nat := 150000000
  const MAX_FREQ_MHZ: nat := 150
  const HZ_PER_MHZ: nat := 1000000
  /** Smallest divider the firmware programs. */
  const MIN_DIV: nat := 4

  const REG_OE: byte := 0x03
  const REG_CLK0_CTRL: byte := 0x10
  const REG_CLK1_CTRL: byte := 0x11
  const REG_CLK2_CTRL: byte := 0x12
  /** MultiSynth0 parameters, registers 42-49; MultiSynth1 and 2 follow at 50 and 58. */
  const REG_MS0_BASE: byte := 0x2A
  const REG_CRYSTAL_LOAD: byte := 0xB7
  const REG_PLLA_BASE: byte := 0x1A
  const REG_PLL_RESET: byte := 0xB1

  /** Output enable register value with every output disabled. */
  const OE_ALL_OFF: byte := 0xFF
  /** Output enable register value with every output enabled. */
  const OE_ALL_ON: byte := 0x00
  /** Crystal load capacitance 8 pF. */
  const XTAL_LOAD_8PF: byte := 0xC0
  /** Reset of PLL A and PLL B. */
  const PLL_RESET_AB: byte := 0xA0
  /** CLKx control: powered up, integer mode, fed from PLL A, MultiSynth as source, 8 mA. */
  const CLK_CTRL_INT_PLLA: byte := 0x4F
  /** Size of a divider parameter block. */
  const BLOCK_LEN: nat := 8

  /** Number of output channels, CLK0..CLK2. */
  const CHANNELS: nat := 3

  /** Control register of output `ch`. */
  function ClkCtrl(ch: nat): (reg: byte)
    requires ch < CHANNELS
    ensures reg == REG_CLK0_CTRL + ch
  {
    [REG_CLK0_CTRL, REG_CLK1_CTRL, REG_CLK2_CTRL][ch]
  }

  /**
   * First register of the MultiSynth parameter block of output `ch`: the
   * three blocks are contiguous from register 42 (AN619, section 4.1).
   */
  function MsBase(ch: nat): (reg: byte)
    requires ch < CHANNELS
  {
    REG_MS0_BASE + BLOCK_LEN * ch
  }

  /** The firmware's table `k_ms_base`: 0x2A, 0x34, 0x3E. */
  function MsBaseAsWritten(ch: nat): (reg: byte)
    requires ch < CHANNELS
  {
    [0x2A, 0x34, 0x3E][ch]
  }

  /**
   * Only the CLK0 entry of the written table is right: the CLK1 block lands
   * two registers late, leaving P3[15:0] of MultiSynth1 unwritten and
   * overwriting P3[15:0] of MultiSynth2; the CLK2 block lands four late.
   */
  lemma MsBaseAsWrittenMisplaced()
    ensures MsBaseAsWritten(0) == MsBase(0)
    ensures MsBaseAsWritten(1) == MsBase(1) + 2 && MsBaseAsWritten(2) == MsBase(2) + 4
    ensures InBlock(MsBase(2), MsBaseAsWritten(1)) && InBlock(MsBase(2) + 1, MsBaseAsWritten(1))
    ensures !InBlock(MsBase(1), MsBaseAsWritten(1)) && !InBlock(MsBase(1) + 1, MsBaseAsWritten(1))
  {}

  /**
   * Which reading of the firmware a model of it follows: the code as
   * written (the `k_ms_base` table, and the range test applied to the
   * 32-bit product) or as intended (the register map of AN619 and a limit
   * of 150 MHz).
   */
  datatype Build = AsWritten | Intended

  /** First register of output `ch`'s MultiSynth block in build `b`. */
  function MsBlock(b: Build, ch: nat): (reg: byte)
    requires ch < CHANNELS
  {
    if b.AsWritten? then MsBaseAsWritten(ch) else MsBase(ch)
  }

  /** Register `k` lies in the 8-byte block starting at `base`. */
  predicate InBlock(k: int, base: byte)
  {
    base <= k < base + BLOCK_LEN
  }

  /**
   * The registers the firmware writes never alias: the output-enable
   * register, the three control registers, the three MultiSynth blocks,
   * the PLL A block, the crystal load and the PLL reset registers are all
   * distinct, and every block fits below register 256.
   */
  lemma RegisterMapDisjoint(b: Build, ch: nat, ch': nat)
    requires ch < CHANNELS && ch' < CHANNELS
    ensures MsBlock(b, ch) + BLOCK_LEN <= 256 && REG_PLLA_BASE + BLOCK_LEN <= 256
    ensures ch != ch' ==> forall k :: InBlock(k, MsBlock(b, ch)) ==> !InBlock(k, MsBlock(b, ch'))
    ensures ch != ch' ==> ClkCtrl(ch) != ClkCtrl(ch')
    ensures forall k :: InBlock(k, MsBlock(b, ch)) ==>
      k != REG_OE && k != ClkCtrl(ch') && !InBlock(k, REG_PLLA_BASE) && k != REG_CRYSTAL_LOAD && k != REG_PLL_RESET
    ensures forall k :: InBlock(k, REG_PLLA_BASE) ==>
      k != REG_OE && k != ClkCtrl(ch') && k != REG_CRYSTAL_LOAD && k != REG_PLL_RESET
    ensures ClkCtrl(ch) != REG_OE && REG_OE != REG_CRYSTAL_LOAD && REG_OE != REG_PLL_RESET
  {}

  // ---------------------------------------------------------------------
  // Output divider
  // ---------------------------------------------------------------------

  /**
   * The output divider for `fHz`: PLL A over `fHz` rounded half up (the
   * firmware's `(unsigned)(800e6 / f + 0.5)`, exact in double precision for
   * every f up to 150 MHz), and never below 4.
   */
  function Divider(fHz: nat): (div: nat)
    requires fHz > 0
    ensures div >= MIN_DIV
    ensures 2 * PLLA_FREQ >= 7 * fHz ==> 2 * fHz * div - fHz <= 2 * PLLA_FREQ < 2 * fHz * div + fHz
    ensures 2 * PLLA_FREQ < 7 * fHz ==> div == MIN_DIV
  {
    var q := (2 * PLLA_FREQ + fHz) / (2 * fHz);
    QuotientRounds(fHz);
    if q < MIN_DIV then MIN_DIV else q
  }

  /** Half-up rounding through the integer quotient. */
  lemma QuotientRounds(f: nat)
    requires f > 0
    ensures var q := (2 * PLLA_FREQ + f) / (2 * f);
      && 2 * f * q - f <= 2 * PLLA_FREQ < 2 * f * q + f
      && (2 * PLLA_FREQ >= 7 * f <==> q >= MIN_DIV)
  {
    var n := 2 * PLLA_FREQ + f;
    var q := n / (2 * f);
    var r := n % (2 * f);
    assert n == 2 * f * q + r;
    if q >= MIN_DIV {
      assert 2 * f * q >= 2 * f * MIN_DIV;
    } else {
      assert 2 * f * q <= 2 * f * (MIN_DIV - 1);
    }
  }

  /** For the accepted range 1..150 MHz the divider lies in 5..800. */
  lemma {:induction false} DividerRange(mhz: nat)
    requires 1 <= mhz <= MAX_FREQ_MHZ
    ensures 5 <= Divider(mhz * HZ_PER_MHZ) <= 800
  {
    var f := mhz * HZ_PER_MHZ;
    var d := Divider(f);
    assert 2 * PLLA_FREQ >= 7 * f;
    assert HZ_PER_MHZ <= f <= MAX_FREQ_HZ;
    MulMono(2 * f, 801, d);
    MulMono(2 * f, d, 4);
  }

  lemma MulMono(a: nat, b: int, c: int)
    ensures b <= c ==> a * b <= a * c
  {}

  /** When the requested frequency divides 800 MHz the divider is exact. */
  lemma {:induction false} DividerExact(mhz: nat)
    requires 1 <= mhz <= MAX_FREQ_MHZ && 800 % mhz == 0
    ensures Divider(mhz * HZ_PER_MHZ) * mhz == 800
  {
    var f := mhz * HZ_PER_MHZ;
    var d := Divider(f);
    var e := 800 / mhz;
    assert e * mhz == 800;
    assert 2 * f * e == 2 * PLLA_FREQ;
    MulMono(2 * f, e + 1, d);
    MulMono(2 * f, d, e - 1);
  }

  // ---------------------------------------------------------------------
  // Divider parameter blocks
  // ---------------------------------------------------------------------

  /** The three register parameters of a fractional divider. */
  datatype Params = Params(p1: nat, p2: nat, p3: nat)

  /** Parameters of the integer divider `a` (b = 0, c = 1). */
  function IntegerParams(a: nat): (p: Params)
    requires a >= MIN_DIV
    ensures p.p2 == 0 && p.p3 == 1
    ensures p.p1 % 128 == 0 && (p.p1 + 512) / 128 == a
  {
    Params(128 * a - 512, 0, 1)
  }

  /**
   * The 8-byte register image of P1, P2, P3: P3[15:0], P1[17:0], then
   * P3[19:16] and P2[19:16] sharing a byte, then P2[15:0]; wider values
   * lose their high bits.
   */
  function Encode(p: Params): (block: seq<byte>)
    ensures |block| == BLOCK_LEN
  {
    [ (p.p3 / 0x100) % 0x100,
      p.p3 % 0x100,
      (p.p1 / 0x10000) % 4,
      (p.p1 / 0x100) % 0x100,
      p.p1 % 0x100,
      ((p.p3 / 0x10000) % 0x10) * 0x10 + (p.p2 / 0x10000) % 0x10,
      (p.p2 / 0x100) % 0x100,
      p.p2 % 0x100 ]
  }

  /** How the chip reads P1, P2, P3 back out of a register block. */
  function Decode(block: seq<byte>): Params
    requires |block| == BLOCK_LEN
  {
    Params(Join(block[2] % 4, block[3], block[4]),
           Join(block[5] % 0x10, block[6], block[7]),
           Join(block[5] / 0x10, block[0], block[1]))
  }

  /** A value from its bits 16 and up, bits 15..8 and bits 7..0. */
  function Join(hi: nat, mid: byte, lo: byte): nat
  {
    hi * 0x10000 + mid * 0x100 + lo
  }

  /** Splitting a value into its bytes and joining them back is the identity. */
  lemma SplitJoin(v: nat, width: nat)
    requires v / 0x10000 < width
    ensures Join((v / 0x10000) % width, (v / 0x100) % 0x100, v % 0x100) == v
  {
    var hi := v / 0x10000;
    var r := v % 0x10000;
    var mid := r / 0x100;
    var lo := r % 0x100;
    assert hi % width == hi;
    var q := hi * 0x100 + mid;
    assert v == q * 0x100 + lo;
    ByteSplit(v, q, lo);
    ByteSplit(q, hi, mid);
  }

  /** The low byte and the rest are determined by `v == q * 0x100 + lo` with `lo < 0x100`. */
  lemma ByteSplit(v: nat, q: nat, lo: nat)
    requires lo < 0x100 && v == q * 0x100 + lo
    ensures v / 0x100 == q && v % 0x100 == lo
  {
  }

  /** The byte that packs two 4-bit fields gives both back. */
  lemma Nibbles(hi: nat, lo: nat)
    requires hi < 0x10 && lo < 0x10
    ensures (hi * 0x10 + lo) / 0x10 == hi && (hi * 0x10 + lo) % 0x10 == lo
  {}

  /** Parameters that fit their fields (18, 20 and 20 bits) survive the register image. */
  lemma EncodeDecode(p: Params)
    requires p.p1 < 0x40000 && p.p2 < 0x100000 && p.p3 < 0x100000
    ensures Decode(Encode(p)) == p
  {
    var b := Encode(p);
    var h3 := (p.p3 / 0x10000) % 0x10;
    var h2 := (p.p2 / 0x10000) % 0x10;
    assert b[5] == h3 * 0x10 + h2;
    Nibbles(h3, h2);
    SplitJoin(p.p1, 4);
    assert b[2] % 4 == b[2];
    SplitJoin(p.p2, 0x10);
    SplitJoin(p.p3, 0x10);
    assert Decode(b) == Params(Join(b[2], b[3], b[4]), Join(h2, b[6], b[7]), Join(h3, b[0], b[1]));
  }

  /** The integer divider a chip programmed with an integer block divides by. */
  function IntegerPart(p: Params): nat
  {
    (p.p1 + 512) / 128
  }

  /** The block the firmware writes for the integer divider `a`. */
  function IntegerBlock(a: nat): (block: seq<byte>)
    requires a >= MIN_DIV
    ensures |block| == BLOCK_LEN
  {
    Encode(IntegerParams(a))
  }

  /** Every divider up to 2051 (P1 within 18 bits) reads back as itself, in integer mode. */
  lemma IntegerBlockDecodes(a: nat)
    requires MIN_DIV <= a <= 2051
    ensures Decode(IntegerBlock(a)) == IntegerParams(a)
    ensures IntegerPart(Decode(IntegerBlock(a))) == a
  {
    EncodeDecode(IntegerParams(a));
  }

  /** The PLL A feedback block: a = 32, so 25 MHz x 32 = 800 MHz. */
  function PllaBlock(): (block: seq<byte>)
    ensures |block| == BLOCK_LEN
  {
    IntegerBlock(PLLA_MULT)
  }

  lemma PllaBlockIs800MHz()
    ensures PllaBlock() == [0x00, 0x01, 0x00, 0x0E, 0x00, 0x00, 0x00, 0x00]
    ensures XTAL_FREQ * IntegerPart(Decode(PllaBlock())) == PLLA_FREQ
  {
    assert IntegerParams(PLLA_MULT) == Params(3584, 0, 1);
    assert Encode(Params(3584, 0, 1)) == [0x00, 0x01, 0x00, 0x0E, 0x00, 0x00, 0x00, 0x00];
    IntegerBlockDecodes(PLLA_MULT);
  }

  // ---------------------------------------------------------------------
  // Frequency guard
  // ---------------------------------------------------------------------

  /** The product `freq_mhz * 1000000UL` with the 32-bit `unsigned long` of the target. */
  function FreqHzAsWritten(mhz: u32): (hz: u32)
    ensures mhz * HZ_PER_MHZ < 0x1_0000_0000 ==> hz == mhz * HZ_PER_MHZ
  {
    (mhz * HZ_PER_MHZ) % 0x1_0000_0000
  }

  /** The range guard as written: it tests the wrapped product. */
  predicate AcceptsAsWritten(mhz: u32)
  {
    FreqHzAsWritten(mhz) <= MAX_FREQ_HZ
  }

  /** The range guard as intended: at most 150 MHz. */
  predicate Accepts(mhz: u32)
  {
    mhz <= MAX_FREQ_MHZ
  }

  /** The frequency in Hz build `b` derives from a request of `mhz`. */
  function TargetHz(b: Build, mhz: u32): nat
  {
    if b.AsWritten? then FreqHzAsWritten(mhz) else mhz * HZ_PER_MHZ
  }

  /** The range guard of build `b`. */
  predicate Admits(b: Build, mhz: u32)
  {
    if b.AsWritten? then AcceptsAsWritten(mhz) else Accepts(mhz)
  }

  /**
   * Both builds admit only targets up to 150 MHz; the intended build never
   * derives a zero target from a non-zero request; and on requests up to
   * 150 MHz the two builds agree.
   */
  lemma BuildsAgreeInRange(b: Build, mhz: u32)
    ensures Admits(b, mhz) ==> TargetHz(b, mhz) <= MAX_FREQ_HZ
    ensures Admits(Intended, mhz) && mhz != 0 ==> TargetHz(Intended, mhz) > 0
    ensures Accepts(mhz) ==> Admits(b, mhz) && TargetHz(b, mhz) == mhz * HZ_PER_MHZ
  {
    AcceptsExactlyInRange(mhz);
  }

  /**
   * The intended guard admits exactly the requests whose true frequency is
   * at most 150 MHz; on those the product does not wrap and the written
   * guard agrees.
   */
  lemma AcceptsExactlyInRange(mhz: u32)
    ensures Accepts(mhz) <==> mhz * HZ_PER_MHZ <= MAX_FREQ_HZ
    ensures Accepts(mhz) ==> AcceptsAsWritten(mhz) && FreqHzAsWritten(mhz) == mhz * HZ_PER_MHZ
  {}

  /**
   * `freq 4295` (4.295 GHz) passes the written guard: the product wraps to
   * 32704 Hz, the divider becomes 24462, whose P1 no longer fits 18 bits,
   * and the chip is left dividing by 1934 (about 414 kHz).
   */
  lemma GuardAsWrittenAdmits4295()
    ensures !Accepts(4295) && AcceptsAsWritten(4295)
    ensures FreqHzAsWritten(4295) == 32704
    ensures Divider(32704) == 24462
    ensures IntegerPart(Decode(IntegerBlock(24462))) == 1934
  {
    assert 4295 * HZ_PER_MHZ == 4295000000;
    assert FreqHzAsWritten(4295) == 4295000000 % 0x1_0000_0000 == 32704;
    assert (2 * PLLA_FREQ + 32704) / (2 * 32704) == 24462;
    TruncatedBlock24462();
  }

  /** P1 = 3130624 loses its bits above 17 in the block: only 247040 is read back. */
  lemma TruncatedBlock24462()
    ensures IntegerPart(Decode(IntegerBlock(24462))) == 1934
  {
    var b := IntegerBlock(24462);
    assert IntegerParams(24462) == Params(3130624, 0, 1);
    assert 3130624 / 0x10000 % 4 == 3 && 3130624 / 0x100 % 0x100 == 197 && 3130624 % 0x100 == 0;
    assert b[2] == 3 && b[3] == 197 && b[4] == 0;
    assert Decode(b).p1 == Join(3 % 4, 197, 0);
    assert Join(3, 197, 0) == 247040;
  }

  /**
   * `freq 67108864` passes the written guard with a product of 0 Hz; the
   * double quotient 800 MHz / 0 is then +inf, and converting it to
   * `unsigned` is undefined behaviour in C.
   */
  lemma GuardAsWrittenAdmitsZeroHz()
    ensures !Accepts(67108864) && AcceptsAsWritten(67108864)
    ensures FreqHzAsWritten(67108864) == 0
  {
    assert 67108864 * HZ_PER_MHZ == 67108864000000;
  }
}
