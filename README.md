# Si5351A clock-generator console, modelled in Dafny

The firmware runs on a Raspberry Pi Pico. It drives a Silicon Labs Si5351A
clock generator over I2C, and an operator controls it through command lines
typed on the USB serial console. This project models the firmware's core
and proves properties of that model. The core has five parts.

- **Register engine.** `si5351_init_basic` brings PLL A up to 800 MHz.
  `si5351_set_freq_ch` either disables a channel, or programs its MultiSynth
  divider and control register and then enables it. Both directions do a
  read-modify-write of the output-enable register. `oe on|off` switches all
  outputs at once. The integer divider, its P1/P2/P3 parameters and the
  8-byte parameter block follow Silicon Labs AN619 ("Manually Generating an
  Si5351 Register Map", sections 3.2 and 4.1). `Si5351Regs` holds that
  arithmetic; `Si5351Cli` holds the engine, with a class `Cli` for the
  `g_i2c`/`g_addr` globals.
- **Command parser** (`CliParse`). It reproduces `si5351_cli_handle`'s
  reading of a line: truncation to 127 characters, `=` read as a space,
  `strtok` on space/tab/CR/LF, a key cut to 31 characters and folded to lower
  case, `(unsigned)atoi` for the arguments, and dispatch to a `Command`. The
  in-place C helpers `replace_char` and `to_lower_inplace` are methods on
  arrays.
- **I2C transaction layer** (`I2cComm`). It covers `i2c_write` with its
  8-byte payload guard, the two phases of `i2c_read`, the retrying wrappers
  bounded by a deadline, `i2c_ping`, the two scans over 0x08..0x77 (the
  addresses NXP UM10204 section 3.1.12 does not reserve), the bus-clear pulse
  loop (NXP UM10204 section 3.1.16), and peripheral init, deinit and reset.
- **Serial line handling** (`SerialComm`). It covers `stricmp_embedded`,
  `strip_newline`, `test_command`, and the receivers that build a line one
  character at a time in a persistent 64-byte buffer.
- **Main program** (`Osc`). It covers the boot sequence: bus clear, I2C
  init, a ping of 0x60, the strict scan, and the script `init`, `clk0=100`,
  `clk1=0`, `clk2=0`. It also covers one step of the command loop: the line
  editor, the local `scan`/`ping` commands, and the hand-off to the console.

The Pico SDK is not modelled electrically. `PicoSdk` replaces it with an
oracle class `Bus`:

- each I2C transfer takes its outcome (ack, nack, timeout) from a sequence
  of replies;
- the chip is a 256-byte register file with an auto-incrementing pointer;
- SDA levels come from a sequence of samples;
- `i2c_init` returns a fixed code;
- a millisecond clock moves only when the firmware sleeps;
- console input comes from a sequence (`Console`).

Every transfer and pin operation is appended to an event log. Each method
is proved against a function from the bus state before the call (a `Wire`)
to the state after it. The properties the firmware promises are lemmas
about those functions.

Where a natural contract could not be proved because the code itself is
wrong, the register engine takes a `Build` parameter. `AsWritten` follows the
code: the guard tests the 32-bit product, and the MultiSynth table is
0x2A/0x34/0x3E. `Intended` uses the exact guard and the AN619 bases. The
console class `Cli` is constructed with one build, and the firmware's `Boot`
runs `AsWritten`, so everything the main program does is the code as written.
The lemmas about the engine hold for both builds unless they name one; the
wrong behaviour of `AsWritten` and the intended property of `Intended` are
both proved (see "Findings").

## Model

| member | source | states |
|---|---|---|
| Si5351Regs.ClkCtrl | si5351_cli.c:25-35 | the control register of channel ch is 16 + ch (CLK0..CLK2 at 0x10..0x12, AN619) |
| Si5351Regs.RegisterMapDisjoint | si5351_cli.c:22-36 | in either build (the AN619 bases or the written 0x2A/0x34/0x3E), the three MS blocks, the PLL A block, the OE, control, crystal-load and PLL-reset registers never overlap, so programming one channel cannot clobber another |
| Si5351Regs.MsBaseAsWrittenMisplaced | si5351_cli.c:28-36 | the firmware's MS table is right for CLK0 only: CLK1's block starts 2 registers late and overwrites the first two registers of MultiSynth2; CLK2's starts 4 late |
| Si5351Regs.Divider | si5351_cli.c:81-82 | the divider is at least 4; whenever 800 MHz / f >= 3.5 it is 800 MHz / f rounded half up (2·f·div − f <= 1.6 GHz < 2·f·div + f); otherwise it is clamped to 4 |
| Si5351Regs.QuotientRounds | si5351_cli.c:81-82 | the integer quotient (1.6 GHz + f) / 2f is the rounded quotient, and it is at least 4 exactly when 2·800 MHz >= 7f, which is when the clamp does not fire |
| Si5351Regs.DividerRange | si5351_cli.c:81-82 | for every request of 1..150 MHz the divider lies in 5..800, so the `div<4` clamp never fires on valid input |
| Si5351Regs.DividerExact | si5351_cli.c:81-82 | when the request divides 800 MHz the divider is exactly 800 / f |
| Si5351Regs.IntegerParams | si5351_cli.c:85-86 | an integer divider a gives P2 = 0, P3 = 1 and a P1 that is a multiple of 128 from which (P1 + 512) / 128 recovers a |
| Si5351Regs.Encode | si5351_cli.c:87-88 | the parameter block is 8 bytes long |
| Si5351Regs.SplitJoin | si5351_cli.c:87-88 | splitting a value into a high part, a middle byte and a low byte and joining them again gives the value back when the high part fits its width |
| Si5351Regs.EncodeDecode | si5351_cli.c:87-88 | decoding the AN619 block layout recovers P1 (18 bits), P2 and P3 (20 bits each): the packing loses nothing in range |
| Si5351Regs.IntegerBlockDecodes | si5351_cli.c:85-89 | for every divider 4..2051 the block written decodes to P1 = 128·div − 512, P2 = 0, P3 = 1, and its integer part is div again |
| Si5351Regs.PllaBlockIs800MHz | si5351_cli.c:54-59 | the PLL A block is [00,01,00,0E,00,00,00,00] (P1 = 3584) and multiplies the 25 MHz crystal to 800 MHz |
| Si5351Regs.FreqHzAsWritten | si5351_cli.c:77 | the 32-bit product `freq_mhz*1000000UL` equals the true product whenever that fits 32 bits |
| Si5351Regs.AcceptsExactlyInRange | si5351_cli.c:77-78 | the corrected guard accepts exactly the requests whose true frequency is at most 150 MHz; on those the written guard agrees and the product does not wrap |
| Si5351Regs.GuardAsWrittenAdmits4295 | si5351_cli.c:77-89 | `freq 4295` is rejected by the intended guard but passes the written one: the product wraps to 32704 Hz, the divider becomes 24462, and the block written decodes to 1934 |
| Si5351Regs.TruncatedBlock24462 | si5351_cli.c:85-89 | a divider of 24462 has a P1 that does not fit 18 bits, and its block decodes to the divider 1934 |
| Si5351Regs.GuardAsWrittenAdmitsZeroHz | si5351_cli.c:77-82 | `freq 67108864` passes the written guard with a product of 0 Hz; the double quotient is then +inf and its `(unsigned)` cast is undefined |
| Si5351Regs.BuildsAgreeInRange | si5351_cli.c:77-78 | both builds admit only targets up to 150 MHz; the intended build never derives a 0 Hz target from a nonzero request; for requests the exact guard accepts, both builds admit them with the true product |
| Si5351Cli.Wr8Spec | si5351_cli.c:38 | a one-byte write consumes one reply; it changes exactly the register written when the chip acks, and nothing when it does not |
| Si5351Cli.Rd8Spec | si5351_cli.c:39 | a one-byte read never changes a register; the caller's variable holds the register when both phases ack, and keeps its preset default when either fails |
| Si5351Cli.AfterInit | si5351_cli.c:48-60 | the register state after bring-up, register by register: OE = 0xFF, 0xB7 = 0xC0, 0x1A..0x21 = the PLL A block, 0xB1 = 0xA0, every other register unchanged |
| Si5351Cli.InitWrites | si5351_cli.c:48-60 | when the four writes are acked, `si5351_init_basic` leaves exactly the `AfterInit` register state and consumes four replies |
| Si5351Cli.InitIdempotent | si5351_cli.c:48-60 | bringing the chip up twice leaves the same registers as once |
| Si5351Cli.InitSetsPllaTo800MHz | si5351_cli.c:54-59 | after bring-up the PLL A block read back from the registers multiplies 25 MHz to 800 MHz |
| Si5351Cli.SetFreqSpec | si5351_cli.c:66-99 | in build b: a channel above 2, or a nonzero frequency b's guard rejects, returns before any transfer and reports the error; a 0 Hz target that passes the guard (undefined in C, possible only as written) is cut short before any transfer |
| Si5351Cli.DisableSetsOeBit | si5351_cli.c:70-75 | frequency 0 sets OE bit ch, keeps every other OE bit and every other register, and reports the channel disabled |
| Si5351Cli.AfterEnableSpec | si5351_cli.c:85-96 | in build b, enabling writes the integer block for div at the channel's MS base in b's table (decoding to div when div <= 2051), 0x4F to its control register, and clears OE bit ch; all other OE bits and all other registers are unchanged |
| Si5351Cli.EnableProgramsChannel | si5351_cli.c:77-99 | in build b, for every request b's guard admits with a nonzero target and every transfer acked: the divider is that of b's target, the registers become `AfterEnable` in b, five replies are consumed, and the report names channel, frequency and divider; for 1..150 MHz the divider is the rounded 800 / f in 5..800 in both builds |
| Si5351Cli.EnableTransfers | si5351_cli.c:89-96 | the four acked transfers of an enable (block, control, OE read, OE write) leave the registers as `AfterEnable` and consume five replies |
| Si5351Cli.DividerInMHz | si5351_cli.c:81-82 | in MHz terms the divider is 800 / f rounded half up: 2·f·div − f <= 1600 < 2·f·div + f |
| Si5351Cli.EnableAfterFailedOeRead | si5351_cli.c:95-96 | if the OE read fails, the mask written is the 0xFF default with only bit ch cleared |
| Si5351Cli.OnlyChannelEnabled | si5351_cli.c:95-96 | clearing bit ch of 0xFF leaves every other bit set |
| Si5351Cli.HandleQuiet | si5351_cli.c:132-214 | in build b, empty lines, help, usage errors, unknown keys, bad channels, frequencies b's guard rejects and 0 Hz targets cause no bus transfer at all |
| Si5351Cli.OeWritesOnlyOe | si5351_cli.c:174-181 | `oe on` writes 0x00 (all outputs enabled) and `oe off` writes 0xFF (all disabled) to register 3 in one transfer; nothing else changes |
| Si5351Cli.Clk1AsWrittenMisplaced | si5351_cli.c:29-35 | as written, `clk1` for 1..150 MHz writes its block to 0x34..0x3B: MultiSynth1's first two registers 0x32..0x33 keep their old values and MultiSynth2's 0x3A..0x3B become 0 |
| Si5351Cli.Clk1BlockAsWritten | si5351_cli.c:29-35 | the same placement at the level of the register file after the enable |
| Si5351Cli.Clk1IntendedInPlace | si5351_cli.c:85-89 | in the intended build, `clk1` for 1..150 MHz writes MultiSynth1 at AN619's 0x32, the divider reads back from it, and MultiSynth2 is unchanged |
| Si5351Cli.AfterEnableKeepsBlock | si5351_cli.c:85-96 | in either build, enabling one channel leaves another channel's MultiSynth block unchanged |
| Si5351Cli.EnableInRange | si5351_cli.c:77-96 | for 1..150 MHz with every transfer acked, both builds leave the registers as `AfterEnable` with the divider of the true frequency |
| Si5351Cli.Freq4295AsWritten | si5351_cli.c:77-89 | as written, `clk0=4295` is enabled with divider 24462, and the block written reads back as divider 1934 |
| Si5351Cli.Cli.constructor | si5351_cli.c:42-46 | the console keeps the bus and the address cut to 7 bits |
| Si5351Cli.Cli.Wr8 | si5351_cli.c:38 | the bus ends as `Wr8Spec` says |
| Si5351Cli.Cli.Rd8 | si5351_cli.c:39 | the bus and the value read are as `Rd8Spec` says |
| Si5351Cli.Cli.InitBasic | si5351_cli.c:48-63 | the bus ends as the bring-up sequence says (four writes, in order) |
| Si5351Cli.Cli.SetFreqCh | si5351_cli.c:66-99 | the bus and the report are those of `SetFreqSpec` in the console's build |
| Si5351Cli.Cli.Handle | si5351_cli.c:132-215 | the bus and the report are those of the command the line parses to, in the console's build |
| CliParse.Replace | si5351_cli.c:129 | replacing characters keeps the length |
| CliParse.ReplaceChar | si5351_cli.c:129 | in place, every `from` before the terminator becomes `to`; the terminator and everything after it are untouched |
| CliParse.ToLowerInPlace | si5351_cli.c:128 | in place, the C string is folded to lower case; the terminator and everything after it are untouched |
| CliParse.CopyTruncated | si5351_cli.c:135-136 | `strncpy` into a buffer of n followed by forcing the last byte to NUL yields a C string equal to the first n − 1 characters of the source |
| CliParse.WordLen | si5351_cli.c:142-143 | a token ends at the first delimiter |
| CliParse.Tokens | si5351_cli.c:142-143 | every token is a non-empty run of non-delimiters |
| CliParse.TokensSplit | si5351_cli.c:142-143 | a delimiter separates tokens: the tokens of a + d + b are those of a followed by those of b |
| CliParse.TokensEmpty | si5351_cli.c:142-143 | there are no tokens exactly when the line is made of delimiters only |
| CliParse.TokenChars | si5351_cli.c:142-143 | every character of every token comes from the line |
| CliParse.TokensOfWord | si5351_cli.c:142-143 | a single word is its own only token |
| CliParse.Clamp | si5351_cli.c:189 | `atoi`'s result stays in the 32-bit `int` range, saturating at its ends like the target's `strtol` |
| CliParse.Atoi | si5351_cli.c:189 | `atoi` always yields a 32-bit `int` |
| CliParse.AtoiDecimal | si5351_cli.c:189 | `atoi` reads a decimal numeral, optionally negative, followed by any non-digit text, as its value, clamped to the `int` range |
| Common.ToUnsigned | si5351_cli.c:189 | the `(unsigned)` cast keeps non-negative values and adds 2^32 to negative ones |
| CliParse.ChannelFrom | si5351_cli.c:202-211 | finds the first channel among 0..2 whose keys freqN/chN/clkN/cllN include the key, or reports that none does |
| CliParse.Select | si5351_cli.c:150-214 | a non-empty token list never reads as a no-op |
| CliParse.DispatchChannel | si5351_cli.c:202-211 | a per-channel key sets channel N to the next token's value, or to 0 when there is none |
| CliParse.DispatchArguments | si5351_cli.c:174-199 | `oe` without an argument or with one other than on/off is a usage error; `freq v` sets CLK0; `clk` with fewer than two arguments is a usage error, otherwise it sets the named channel |
| CliParse.DispatchUnknown | si5351_cli.c:150-214 | a line is an unknown command exactly when its key is none of the known keys |
| CliParse.SelectUnknown | si5351_cli.c:150-214 | a key selects "unknown" exactly when it is not one of the known keys |
| CliParse.ParseNoOp | si5351_cli.c:133-143 | a line does nothing exactly when its first 127 characters are all delimiters or `=` |
| CliParse.ParseTruncates | si5351_cli.c:135-136 | only the first 127 characters of a line matter |
| CliParse.ParseEqualsIsSpace | si5351_cli.c:139 | `=` and a space read the same |
| CliParse.LowerAll | si5351_cli.c:146-147 | folding a token list folds each token |
| CliParse.TokensLower | si5351_cli.c:142-147 | folding case commutes with tokenising |
| CliParse.AtoiLower | si5351_cli.c:189 | case does not change a number's value |
| CliParse.KeyLower | si5351_cli.c:146-147 | the key of a token does not depend on its case |
| CliParse.ParseLower | si5351_cli.c:132-214 | commands are case-insensitive: a line and its lower-case form parse to the same command |
| CliParse.ParseRenderKeyword | si5351_cli.c:150-171 | `help`, `scan`, `whoami` and `init` parse back to their commands |
| CliParse.ParseRenderOe | si5351_cli.c:174-181 | `oe on` and `oe off` parse back to their commands |
| CliParse.SelectOe | si5351_cli.c:174-181 | the `oe` key enables on "on", disables on "off", and is a usage error otherwise |
| CliParse.ParseRenderFreq | si5351_cli.c:202-211 | `clkN v` parses back to setting channel N to v |
| CliParse.ParseRender | si5351_cli.c:132-214 | each of `help`, `scan`, `whoami`, `init`, `oe on`, `oe off`, and `clkN v` with N in 0..2 and v at most 2^31 − 1, is read back from its canonical line (usage errors, unknown keys and channels above 2 have no canonical line and are not covered) |
| CliParse.NormalizeLine | si5351_cli.c:134-139 | copying into the 128-byte buffer and replacing `=` in place gives the truncated, `=`-free line |
| CliParse.KeyOf | si5351_cli.c:146-147 | copying the first token into the 32-byte key buffer and folding it in place gives the key |
| CliParse.DispatchKey | si5351_cli.c:150-214 | the chain of key comparisons selects the command `Dispatch` defines |
| CliParse.ParseLine | si5351_cli.c:132-214 | the imperative reading of a line (copy, replace, tokenise, key) yields the command `Parse` defines |
| Common.SetBitSpec | si5351_cli.c:72 | OR-ing in bit i sets bit i and keeps every other bit |
| Common.ClearBitSpec | si5351_cli.c:96 | AND-ing with the complement of bit i clears bit i and keeps every other bit |
| Common.Lower | si5351_cli.c:128 | folding keeps the length and maps each character through `tolower` |
| Common.LowerIdempotent | si5351_cli.c:128 | folding twice is folding once |
| I2cComm.InitConfig | I2C_comm.c:24-38 | returns false, touching no pin, exactly when the peripheral init reports an error; otherwise routes both pins to I2C |
| I2cComm.DeinitConfig | I2C_comm.c:40-42 | releases the peripheral and nothing else |
| I2cComm.Reset | I2C_comm.c:44-48 | deinit, a 50 ms pause (the clock advances by 50), then init with the same parameters |
| I2cComm.WriteSpec | I2C_comm.c:60-67 | more than 8 payload bytes return -9 with no transaction; otherwise exactly one transaction with frame [reg] ++ data, with stop, returning 0 on ack and -1 otherwise; the registers change only when the chip acks |
| I2cComm.Write | I2C_comm.c:60-67 | the bus and the return code are those of `WriteSpec` |
| I2cComm.ReadSpec | I2C_comm.c:53-58 | -1 when the register phase fails, with no read phase; -2 when the read phase fails; 0 when both ack, with the data read from the chip's registers at reg; registers are never changed |
| I2cComm.Read | I2C_comm.c:53-58 | the bus, the return code and the data are those of `ReadSpec` |
| I2cComm.MaxAttempts | I2C_comm.c:72-90 | the number of attempts the deadline allows: attempt a starts before the deadline exactly when a < MaxAttempts |
| I2cComm.WriteRetry | I2C_comm.c:82-90 | the retrying write succeeds after at least one attempt, or fails after using every attempt |
| I2cComm.WriteRetryFirstAck | I2C_comm.c:82-90 | the retrying write returns 0 exactly when some allowed attempt is acked, stops at the first acked attempt, and consumes one reply per attempt |
| I2cComm.WriteRetryStops | I2C_comm.c:82-90 | the retrying write stops at the first acked attempt |
| I2cComm.WriteRetryOversize | I2C_comm.c:60-90 | an oversized payload never reaches the bus, however many attempts |
| I2cComm.WriteRetryNoReplies | I2C_comm.c:82-90 | with nobody answering, the retrying write fails |
| I2cComm.ReadRetry | I2C_comm.c:72-80 | the retrying read succeeds after at least one attempt with data of the buffer's length, or fails after every attempt and leaves the buffer as it was |
| I2cComm.FirstReadOk | I2C_comm.c:72-80 | the index of the first attempt whose two phases are both acked, within n attempts: no earlier attempt has both acked, and it is n when none does |
| I2cComm.ReadRetryFirstOk | I2C_comm.c:72-80 | the retrying read succeeds exactly when some attempt within n has both phases acked; it stops at the first such attempt (or after n), and it consumes exactly the replies of the attempts made |
| I2cComm.ReadRetryStops | I2C_comm.c:72-80 | the retrying read stops at the first attempt whose two phases are acked |
| I2cComm.ReadRetryData | I2C_comm.c:72-80 | the data of a successful retrying read are the chip's registers starting at reg |
| I2cComm.WriteWithTimeout | I2C_comm.c:82-90 | the bus and the result are those of `WriteRetry`; no attempt starts at or after the deadline, and -1 is returned only once the clock has reached it |
| I2cComm.ReadWithTimeout | I2C_comm.c:72-80 | the bus, the result and the data are those of `ReadRetry`; no attempt starts at or after the deadline, and -1 is returned only once the clock has reached it |
| I2cComm.Ping | I2C_comm.c:95-99 | an address-only write; present exactly when it is acked; no register changes |
| I2cComm.ScanRangeOnly | I2C_comm.c:101-112 | every probe of a scan is an address-only write to an address in 0x08..0x77 |
| I2cComm.CountAcks | I2C_comm.c:101-112 | the count is at most the number of probes, and 0 exactly when no probe was acked |
| I2cComm.ScanDevices | I2C_comm.c:101-112 | probes each of 0x08..0x77 once, in ascending order, and returns the number that acked (0..112) |
| I2cComm.ScanQuickSpec | I2C_comm.c:114-125 | returns 0 when nothing in 0x08..0x77 acks, otherwise the first acking address, with every lower address silent; nothing is probed after the first ack |
| I2cComm.ScanQuick | I2C_comm.c:114-125 | the bus and the address are those of `ScanQuickSpec` |
| I2cComm.ScanQuickStopsAt | I2C_comm.c:114-125 | when the first ack is at addr, the scan returns addr and has probed exactly 0x08..addr |
| I2cComm.ScanQuickFindsNone | I2C_comm.c:114-125 | when nothing acks, the scan returns 0 after probing every address once |
| I2cComm.PulseCount | I2C_comm.c:139-143 | the loop gives between 1 and 9 pulses, and stops right after the first pulse at which SDA reads high |
| I2cComm.BusClear | I2C_comm.c:130-145 | switches the pins to GPIO, pauses 1 ms (the clock advances by 1), and gives exactly `PulseCount` SCL pulses, reading one SDA sample per pulse |
| SerialComm.StricmpZeroIff | serial_comm.c:162-170 | the comparison returns 0 exactly when the strings are equal after lower-casing |
| SerialComm.StricmpAntisymmetric | serial_comm.c:162-170 | swapping the arguments negates the result |
| SerialComm.StricmpReflexive | serial_comm.c:162-170 | a string compares equal to itself |
| SerialComm.TestCommandWords | serial_comm.c:125-134 | `test_command` is true exactly for "test", "t", "h" and "help", in any case |
| SerialComm.BeforeEol | serial_comm.c:156-160 | the prefix before the first CR or LF contains neither |
| SerialComm.Strchr | serial_comm.c:158-159 | `strchr` finds the first occurrence before the terminator, or -1 when there is none |
| SerialComm.CutAt | serial_comm.c:158-159 | cutting at the first c leaves a prefix of the string that does not contain c, writing NUL only where c was |
| SerialComm.StripNewline | serial_comm.c:156-160 | the string becomes its prefix before the first CR or LF, whichever comes first; only a CR or LF is overwritten |
| SerialComm.Step | serial_comm.c:67-89 | one character: a CR/LF on a non-empty buffer returns the line and empties the buffer; on an empty one returns nothing; other characters are appended while fewer than 63 are buffered and dropped otherwise |
| SerialComm.FillKeepsFirst63 | serial_comm.c:85-86 | feeding characters without a line end keeps exactly the first 63 of them |
| SerialComm.Drain | serial_comm.c:78-81 | the drain consumes at least one input when there is one, and only a prefix of the pending input |
| SerialComm.DrainSwallowsNext | serial_comm.c:78-81 | the drain consumes every consecutive CR/LF and also the first other character after them |
| SerialComm.ReceiveSpec | serial_comm.c:62-89 | a line is returned only on a CR/LF with a non-empty buffer; it is the buffered text, the buffer empties and the drain follows; otherwise one input is consumed |
| SerialComm.LineReceiver.Accept | serial_comm.c:67-89 | the buffer and the returned line follow `Step` |
| SerialComm.LineReceiver.Receive | serial_comm.c:62-119 | `serial_receive_command` and `serial_receive_command_fast`: buffer, line and remaining input follow `ReceiveSpec` |
| SerialComm.LineReceiver.Echo | serial_comm.c:43-56 | `serial_comm_echo`: buffer and echoed line follow `Step` on one input |
| Osc.Edit | Si5351A_Osc.c:119-134 | a line is dispatched exactly when CR/LF arrives with a non-empty buffer, and the buffer then empties; otherwise only 0x20..0x7E are appended, and only while fewer than 63 are held |
| Osc.EditedLineIsCommand | Si5351A_Osc.c:122-129 | a dispatched line is non-empty, printable, NUL-free and at most 63 characters |
| Osc.RouteCases | Si5351A_Osc.c:127-129 | "scan" and "ping", in any case, are handled locally; every other line goes unchanged to the console |
| Osc.StrictPairsAscending | Si5351A_Osc.c:48-62 | the strict scan's i-th probe is a one-byte register write without stop and then a one-byte read, to address first + i |
| Osc.CountPairs | Si5351A_Osc.c:48-62 | the number of devices found is at most the number of addresses probed |
| Osc.StrictProbeStep | Si5351A_Osc.c:51-58 | an address counts exactly when both the write and the read phase are acked; two replies are consumed and no register changes |
| Osc.StrictScanSummary | Si5351A_Osc.c:48-62 | the strict scan probes 0x03..0x77 in ascending order and counts the addresses where both phases acked |
| Osc.ScanStrict | Si5351A_Osc.c:48-62 | the bus and the count are those of the strict scan's specification |
| Osc.PingSpec | Si5351A_Osc.c:39-45 | the ping is an address-only write to 0x60 with a 5 ms bound, succeeding exactly when it is acked |
| Osc.PingSi5351 | Si5351A_Osc.c:39-45 | the bus and the return code are those of `PingSpec` |
| Osc.ClkLineParses | Si5351A_Osc.c:106-110 | "clkN=v" parses to setting channel N to v |
| Osc.BootScriptWrites | Si5351A_Osc.c:103-111 | with every transfer acked, the boot script leaves the registers of `init`, then `clk0=100`, then `clk1=0` and `clk2=0` |
| Osc.BootCommandsWrite | Si5351A_Osc.c:103-111 | the four script commands, run through the engine in order, give the boot register state |
| Osc.BootRegsResult | Si5351A_Osc.c:103-111 | after the boot script OE = 0xFE (only CLK0 enabled), MS0 holds the block for div = 8 (P1 = 512, 800 MHz / 8 = 100 MHz), CLK0's control is 0x4F, and PLL A is at 800 MHz |
| Osc.BootOeMask | Si5351A_Osc.c:106-110 | clearing bit 0 of 0xFF and then setting bits 1 and 2 gives 0xFE |
| Osc.Boot | Si5351A_Osc.c:65-111 | the console is reached exactly when I2C init succeeds and 0x60 answers the ping; it then runs bus clear, init, ping, strict scan and the boot script in that order |
| Osc.RunScript | Si5351A_Osc.c:103-111 | the four lines go through the console in order, with the 100 ms pause after the first |
| Osc.Shell.constructor | Si5351A_Osc.c:115-117 | the loop starts with an empty line buffer |
| Osc.Shell.Serve | Si5351A_Osc.c:119-134 | one pass of the command loop: one input is consumed, the buffer follows `Edit`, and a completed line acts on the bus as `Route` decides |

## Left out

- Text output (`printf`, `serial_printf`, the banner, the help screen and the diagnostic messages) is not modelled. A command's output is a `Report` tag only; `cmd_help` and `test_help_screen` are the `HelpText` tag or nothing.
- led_blink.c is not part of this model: it is a timer callback that toggles a GPIO.
- The header files are not part of this model; `check_i2c_device`, declared in I2C_comm.h, has no definition, and `i2c_ping` plays its role.
- Electrical behaviour of the Pico SDK (`i2c_*_timeout_us`, `gpio_*`, `getchar_timeout_us`, `stdio_init_all`) is replaced by the reply, sample and input oracles of `PicoSdk`.
- `sleep_us` delays (the bus-clear half periods, the strict scan's 500 µs pause) are not modelled; the `sleep_ms` pauses are, and they are the only things that move the clock.
- I2cComm.WriteWithTimeout, I2cComm.ReadWithTimeout: a transfer takes no model time (the SDK's per-transfer timeouts are not on the clock), so `MaxAttempts` is an upper bound on the attempts a deadline allows, not the exact count a real bus would reach.
- Si5351Cli.SetFreqSpec: in the written build a request whose 32-bit product is 0 Hz makes the `(unsigned)` cast of +inf undefined in C; the model reports `DividerUndefined` and makes no transfer, since the C code has no defined behaviour to follow there.
- `serial_comm_init` (USB stdio start-up) is not modelled: it only starts the console and prints.
- The logging flags, their getters and the unused externs of serial_comm.c are not modelled: nothing in the core reads them.
- Si5351Regs.Divider: the `double` quotient `800e6 / freq_hz + 0.5` is replaced by the integer quotient `(1.6e9 + f) / 2f`, i.e. rounding half up. The quotient 800e6 / f is a fraction with denominator f < 2^32, so it is either an exact tie (a multiple of 0.5, represented exactly in a double) or at least 1 / 2f away from one, which is far more than the double's rounding error; the double and the integer rounding therefore agree for every nonzero 32-bit target. This argument is not itself proved in Dafny.
- CliParse.Atoi: `atoi` is modelled with the 32-bit `long` of the target, clamping out-of-range numerals to the `int` range as `strtol` does; a host with a 64-bit `long` would truncate instead.
- `strcasecmp` in the main loop is modelled by comparing `Lower` forms, the same meaning `SerialComm.StricmpZeroIff` proves for `stricmp_embedded`.
- Osc.Shell.Serve: the endless `while (true)` loop is modelled one pass at a time; what holds for a pass holds for every pass, since `Valid` is preserved.
- Osc.Boot: the `while (1)` hang on failed I2C init or on a failed ping is modelled as returning `null`, with no console; the wait for the USB console (`stdio_usb_connected`, polled every 10 ms) is not modelled, since console input is an oracle that is always present.
- Returned `static` buffers: `serial_receive_command` returns a pointer into a buffer the next call overwrites; the model returns the line's value, so it does not capture that aliasing.
- SerialComm.LineReceiver.Receive: `serial_receive_command` and `serial_receive_command_fast` are identical apart from their buffer names, so one class models both, with one object per set of static buffers.
- The clock's absolute value (`to_ms_since_boot`) is modelled by `Bus.now`, an unbounded count starting at 0. In the Pico SDK `to_ms_since_boot` is a 32-bit millisecond count, so the deadline sum `to_ms_since_boot(...) + timeout_ms` at I2C_comm.c:73 and I2C_comm.c:83 wraps within `timeout_ms` of each multiple of 2^32 ms (about 49.7 days of uptime) before it is widened to the 64-bit `limit`; the unbounded `Bus.now` does not model that wrap.
- I2cComm.WriteWithTimeout, I2cComm.ReadWithTimeout: "no attempt starts at or after the deadline, and -1 only once the clock has reached it" holds only away from that wrap. Near it the firmware can return -1 without a single attempt (the wrapped limit is small), or keep retrying for about another 49.7 days (the clock passes the wrap below a limit near 2^32).

## Findings

| source | as written | input that shows it | evidently intended | confidence | as-written member | corrected member |
|---|---|---|---|---|---|---|
| si5351_cli.c:77-78 | the 150 MHz guard tests `freq_mhz*1000000UL`, which wraps in the target's 32-bit `unsigned long` | `freq 4295`: the product wraps to 32704 Hz and passes; the divider is 24462, whose P1 overflows its 18 bits, so the chip divides by 1934 (about 414 kHz). `freq 67108864` wraps to 0 Hz; the double quotient is then +inf and its `(unsigned)` cast at line 82 is undefined | reject every request above 150 MHz | not executed | Si5351Regs.GuardAsWrittenAdmits4295, Si5351Cli.Freq4295AsWritten | Si5351Regs.AcceptsExactlyInRange, Si5351Cli.HandleQuiet |
| si5351_cli.c:28-36 | `k_ms_base` = {0x2A, 0x34, 0x3E}: the MultiSynth1 and MultiSynth2 parameter blocks start at 0x32 and 0x3A (registers 50 and 58) in AN619 section 4.1, the blocks being 8 registers apart | `clk1=10` writes registers 0x34..0x3B, leaving 0x32..0x33 of MultiSynth1 unwritten and overwriting 0x3A..0x3B of MultiSynth2 | MS bases 0x2A, 0x32, 0x3A | not executed | Si5351Regs.MsBaseAsWrittenMisplaced, Si5351Cli.Clk1AsWrittenMisplaced | Si5351Regs.RegisterMapDisjoint, Si5351Cli.Clk1IntendedInPlace |
