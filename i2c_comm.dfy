/**
 * The I2C transaction layer: peripheral bring-up and reset, register
 * read and write with the single-attempt time bound, the retrying
 * wrappers bounded by a total deadline, presence probing, the two
 * address scans, and the manual bus-clear sequence for a peer that holds
 * the data line low (section 3.1.16, "Bus clear", of the NXP I2C-bus
 * specification UM10204).
 *
 * Each operation is a method over the `Bus` oracle; each method is
 * proved against a function of the bus state before the call, and the
 * properties the layer promises are stated about those functions.
 */
module I2cComm {
  import opened Common
  import opened PicoSdk

  /** Bound on each single transfer, in microseconds. */
  const I2C_TOUT_US: nat := 2000
  /** Bound on each probe of the quick scan, in microseconds. */
  const QUICK_TOUT_US: nat := 1000
  /** Pause between two attempts of a retrying transfer, in milliseconds. */
  const RETRY_PAUSE_MS: nat := 2
  /** Largest payload `i2c_write` stages behind the register byte. */
  const MAX_PAYLOAD: nat := 8
  /** Scanned address range: 0x00-0x07 and 0x78-0x7F are reserved (UM10204, section 3.1.12). */
  const SCAN_FIRST: byte := 0x08
  const SCAN_LAST: byte := 0x77
  const SCAN_COUNT: nat := 0x77 - 0x08 + 1
  /** Clock pulses that release any peer from a byte it was sending. */
  const CLEAR_PULSES: nat := 9
  /** Pause between taking the peripheral down and bringing it up again, in milliseconds. */
  const RESET_PAUSE_MS: nat := 50
  /** Settling time of the pulled-up lines before the bus clear pulses, in milliseconds. */
  const CLEAR_SETTLE_MS: nat := 1

  // =====================================================================
  // Peripheral bring-up
  // =====================================================================

  /** `i2c_init_config`: reports `false`, touching no pin, iff the peripheral init fails. */
  method InitConfig(bus: Bus, speed: nat, sda: nat, scl: nat) returns (ok: bool)
    modifies bus
    ensures ok == (old(bus.initRc) >= 0)
    ensures bus.Snapshot() == old(bus.Snapshot()).(log := old(bus.log) + [PeriphInit(speed)]
                                            + (if ok then [PinsToI2c(sda, scl)] else []))
    ensures bus.Env() == old(bus.Env())
  {
    var ret := bus.PeriphInitialize(speed);
    if ret < 0 {
      return false;
    }
    bus.PinsI2c(sda, scl);
    ok := true;
  }

  /** `i2c_deinit_config`. */
  method DeinitConfig(bus: Bus)
    modifies bus
    ensures bus.Snapshot() == old(bus.Snapshot()).(log := old(bus.log) + [PeriphDeinit])
    ensures bus.Env() == old(bus.Env())
  {
    bus.PeriphDeinitialize();
  }

  /** `i2c_reset`: deinit, a 50 ms pause, then init again with the same parameters. */
  method Reset(bus: Bus, speed: nat, sda: nat, scl: nat)
    modifies bus
    ensures bus.Snapshot() == old(bus.Snapshot()).(log := old(bus.log) + [PeriphDeinit, PeriphInit(speed)]
                                            + (if old(bus.initRc) >= 0 then [PinsToI2c(sda, scl)] else []))
    ensures bus.samples == old(bus.samples) && bus.initRc == old(bus.initRc)
    ensures bus.now == old(bus.now) + RESET_PAUSE_MS
  {
    DeinitConfig(bus);
    bus.SleepMs(RESET_PAUSE_MS);
    var _ := InitConfig(bus, speed, sda, scl);
  }

  // =====================================================================
  // Single-attempt register access
  // =====================================================================

  /**
   * `i2c_write`: a payload longer than the staging buffer is refused with
   * -9 and no transfer; otherwise exactly one transfer carrying
   * `[reg] + data` with a stop, reported as 0 or -1.
   */
  function WriteSpec(w: Wire, dev: byte, reg: byte, data: seq<byte>): (r: WriteOutcome)
    ensures r.wire.peer == w.peer
    ensures |data| > MAX_PAYLOAD ==> r == WriteOutcome(w, -9)
    ensures |data| <= MAX_PAYLOAD ==>
      && r.wire.log == w.log + [WriteTxn(dev, [reg] + data, false, I2C_TOUT_US)]
      && r.wire.replies == Tail(w.replies)
      && (r.rc == 0 <==> Head(w.replies) == Ack)
      && (r.rc == -1 <==> Head(w.replies) != Ack)
    ensures r.wire.regs == if |data| <= MAX_PAYLOAD && Head(w.replies) == Ack && dev == w.peer
                           then Store(w.regs, reg, data) else w.regs
  {
    if |data| > MAX_PAYLOAD then WriteOutcome(w, -9)
    else
      var out := RawWrite(w, dev, [reg] + data, false, I2C_TOUT_US);
      assert ([reg] + data)[1..] == data;
      WriteOutcome(out.wire, if out.rc < 0 then -1 else 0)
  }

  method Write(bus: Bus, dev: byte, reg: byte, data: seq<byte>) returns (rc: int)
    modifies bus
    ensures bus.Snapshot() == WriteSpec(old(bus.Snapshot()), dev, reg, data).wire
    ensures rc == WriteSpec(old(bus.Snapshot()), dev, reg, data).rc
    ensures bus.Env() == old(bus.Env())
  {
    ghost var w0 := bus.Snapshot();
    var buf := new byte[MAX_PAYLOAD + 1](_ => 0);
    if |data| > buf.Length - 1 {
      assert WriteSpec(w0, dev, reg, data) == WriteOutcome(w0, -9);
      return -9;
    }
    buf[0] := reg;
    var i := 0;
    while i < |data|
      modifies buf
      invariant 0 <= i <= |data|
      invariant buf[0] == reg
      invariant buf[1..i + 1] == data[..i]
    {
      buf[i + 1] := data[i];
      i := i + 1;
    }
    var frame := buf[..|data| + 1];
    assert frame == [reg] + data;
    var r := bus.WriteTimeoutUs(dev, frame, false, I2C_TOUT_US);
    rc := if r < 0 then -1 else 0;
    assert WriteSpec(w0, dev, reg, data) == WriteOutcome(bus.Snapshot(), rc);
  }

  /**
   * `i2c_read`: the register-address phase (no stop), then the data phase.
   * -1: the address phase failed and no read was attempted; -2: the data
   * phase failed; 0: `buf` now holds the registers from `reg` on.  On a
   * failure the caller's buffer is left as it was.
   */
  function ReadSpec(w: Wire, dev: byte, reg: byte, buf: seq<byte>): (r: ReadOutcome)
    ensures r.wire.peer == w.peer && r.wire.regs == w.regs
    ensures r.rc == 0 || r.rc == -1 || r.rc == -2
    ensures r.rc == -1 <==> Head(w.replies) != Ack
    ensures r.rc == -1 ==>
      && r.wire.log == w.log + [WriteTxn(dev, [reg], true, I2C_TOUT_US)]
      && r.wire.replies == Drop(w.replies, 1)
    ensures r.rc != -1 ==>
      && r.wire.log == w.log + [WriteTxn(dev, [reg], true, I2C_TOUT_US), ReadTxn(dev, |buf|, false, I2C_TOUT_US)]
      && r.wire.replies == Drop(w.replies, 2)
    ensures r.rc == -2 <==> Head(w.replies) == Ack && !AckAt(w.replies, 1)
    ensures r.rc != 0 ==> r.data == buf
    ensures |r.data| == |buf|
    ensures r.rc == 0 && dev == w.peer ==> r.data == Window(w.regs, reg, |buf|)
  {
    DropStep(w.replies, 0);
    DropStep(w.replies, 1);
    var addr := RawWrite(w, dev, [reg], true, I2C_TOUT_US);
    if addr.rc < 0 then ReadOutcome(addr.wire, -1, buf)
    else
      var rd := RawRead(addr.wire, dev, |buf|, false, I2C_TOUT_US);
      if rd.rc < 0 then ReadOutcome(rd.wire, -2, buf) else ReadOutcome(rd.wire, 0, rd.data)
  }

  method Read(bus: Bus, dev: byte, reg: byte, buf: seq<byte>) returns (rc: int, data: seq<byte>)
    modifies bus
    ensures bus.Snapshot() == ReadSpec(old(bus.Snapshot()), dev, reg, buf).wire
    ensures rc == ReadSpec(old(bus.Snapshot()), dev, reg, buf).rc
    ensures data == ReadSpec(old(bus.Snapshot()), dev, reg, buf).data
    ensures bus.Env() == old(bus.Env())
  {
    data := buf;
    var r := bus.WriteTimeoutUs(dev, [reg], true, I2C_TOUT_US);
    if r < 0 {
      return -1, data;
    }
    var got;
    r, got := bus.ReadTimeoutUs(dev, |buf|, false, I2C_TOUT_US);
    if r < 0 {
      return -2, data;
    }
    rc, data := 0, got;
  }

  // =====================================================================
  // Retrying wrappers bounded by a total deadline
  // =====================================================================

  /** Result of a retrying transfer, with the number of attempts it started. */
  datatype Retry = Retry(wire: Wire, rc: int, data: seq<byte>, attempts: nat)

  /**
   * Attempts start at `t0`, `t0 + 2`, ... while the clock is below
   * `t0 + timeoutMs`; this many of them fit.
   */
  function MaxAttempts(timeoutMs: nat): (n: nat)
    ensures forall a: nat :: a < n <==> RETRY_PAUSE_MS * a < timeoutMs
  {
    (timeoutMs + 1) / 2
  }

  /** `i2c_write_with_timeout` given that at most `n` attempts fit before the deadline. */
  function WriteRetry(w: Wire, dev: byte, reg: byte, data: seq<byte>, n: nat): (r: Retry)
    decreases n
    ensures r.rc == 0 || r.rc == -1
    ensures r.attempts <= n && r.wire.peer == w.peer
    ensures r.rc == -1 ==> r.attempts == n
    ensures r.rc == 0 ==> r.attempts >= 1
  {
    if n == 0 then Retry(w, -1, [], 0)
    else
      var once := WriteSpec(w, dev, reg, data);
      if once.rc == 0 then Retry(once.wire, 0, [], 1)
      else
        var rest := WriteRetry(once.wire, dev, reg, data, n - 1);
        rest.(attempts := rest.attempts + 1)
  }

  /** The replies after the first one, seen from the first. */
  lemma ShiftReplies(rs: seq<Reply>, k: nat)
    ensures AckAt(Tail(rs), k) <==> AckAt(rs, k + 1)
    ensures Drop(Tail(rs), k) == Drop(rs, k + 1)
  {
    if rs != [] && k + 1 < |rs| {
      assert rs[1..][k..] == rs[k + 1..];
    }
  }

  /**
   * The retrying write succeeds exactly when one of the first `n` transfers
   * is acknowledged; it stops at the first such transfer, and every
   * earlier attempt was refused.
   */
  lemma WriteRetryFirstAck(w: Wire, dev: byte, reg: byte, data: seq<byte>, n: nat)
    requires |data| <= MAX_PAYLOAD
    ensures WriteRetry(w, dev, reg, data, n).rc == 0 <==> FirstAck(w.replies, n) < n
    ensures WriteRetry(w, dev, reg, data, n).attempts
         == if FirstAck(w.replies, n) < n then FirstAck(w.replies, n) + 1 else n
    ensures WriteRetry(w, dev, reg, data, n).wire.replies
         == Drop(w.replies, WriteRetry(w, dev, reg, data, n).attempts)
  {
    WriteRetryStops(w, dev, reg, data, n);
  }

  lemma {:induction false} WriteRetryStops(w: Wire, dev: byte, reg: byte, data: seq<byte>, n: nat)
    requires |data| <= MAX_PAYLOAD
    decreases n
    ensures StopsAtFirstAck(w.replies, n, WriteRetry(w, dev, reg, data, n))
  {
    var rs := w.replies;
    if n == 0 {
      return;
    } else if rs == [] {
      StopsWithoutReplies(w, dev, reg, data, n);
      return;
    } else if rs[0] == Ack {
      StopsAtFirst(w, dev, reg, data, n);
      return;
    }
    var next := WriteRetryRefused(w, dev, reg, data, n);
    WriteRetryStops(next, dev, reg, data, n - 1);
    RetryStep(rs, n, next.replies, WriteRetry(next, dev, reg, data, n - 1));
  }

  /** What `WriteRetryFirstAck` states about an outcome `r` of at most `n` attempts on the replies `rs`. */
  ghost predicate StopsAtFirstAck(rs: seq<Reply>, n: nat, r: Retry)
  {
    && (r.rc == 0 <==> FirstAck(rs, n) < n)
    && r.attempts == (if FirstAck(rs, n) < n then FirstAck(rs, n) + 1 else n)
    && r.wire.replies == Drop(rs, r.attempts)
  }

  lemma StopsWithoutReplies(w: Wire, dev: byte, reg: byte, data: seq<byte>, n: nat)
    requires |data| <= MAX_PAYLOAD && n > 0 && w.replies == []
    ensures StopsAtFirstAck(w.replies, n, WriteRetry(w, dev, reg, data, n))
  {
    WriteRetryNoReplies(w, dev, reg, data, n);
    assert FirstAck(w.replies, n) == n;
  }

  lemma StopsAtFirst(w: Wire, dev: byte, reg: byte, data: seq<byte>, n: nat)
    requires |data| <= MAX_PAYLOAD && n > 0 && w.replies != [] && w.replies[0] == Ack
    ensures StopsAtFirstAck(w.replies, n, WriteRetry(w, dev, reg, data, n))
  {
    WriteRetryAcked(w, dev, reg, data, n);
    assert FirstAck(w.replies, n) == 0;
  }

  /** A refused first attempt followed by the rest of the retry. */
  lemma RetryStep(rs: seq<Reply>, n: nat, tail: seq<Reply>, rest: Retry)
    requires n > 0 && rs != [] && rs[0] != Ack && tail == rs[1..] && StopsAtFirstAck(tail, n - 1, rest)
    ensures StopsAtFirstAck(rs, n, rest.(attempts := rest.attempts + 1))
  {
    ShiftReplies(rs, rest.attempts);
  }

  /** One refused attempt: the rest of the retry runs on the remaining replies. */
  lemma WriteRetryRefused(w: Wire, dev: byte, reg: byte, data: seq<byte>, n: nat) returns (next: Wire)
    requires |data| <= MAX_PAYLOAD && n > 0 && w.replies != [] && w.replies[0] != Ack
    ensures next.replies == w.replies[1..]
    ensures var rest := WriteRetry(next, dev, reg, data, n - 1);
      WriteRetry(w, dev, reg, data, n) == rest.(attempts := rest.attempts + 1)
    ensures FirstAck(w.replies, n) == 1 + FirstAck(w.replies[1..], n - 1)
  {
    next := WriteSpec(w, dev, reg, data).wire;
  }

  /** An acknowledged first attempt ends the retry. */
  lemma WriteRetryAcked(w: Wire, dev: byte, reg: byte, data: seq<byte>, n: nat)
    requires |data| <= MAX_PAYLOAD && n > 0 && w.replies != [] && w.replies[0] == Ack
    ensures var r := WriteRetry(w, dev, reg, data, n);
      r.rc == 0 && r.attempts == 1 && r.wire.replies == Drop(w.replies, 1)
  {
    DropStep(w.replies, 0);
  }

  /** With nobody answering, every attempt that fits is made and all fail. */
  lemma {:induction false} WriteRetryNoReplies(w: Wire, dev: byte, reg: byte, data: seq<byte>, n: nat)
    requires |data| <= MAX_PAYLOAD && w.replies == []
    decreases n
    ensures WriteRetry(w, dev, reg, data, n).rc == -1
    ensures WriteRetry(w, dev, reg, data, n).wire.replies == []
  {
    if n > 0 {
      WriteRetryNoReplies(WriteSpec(w, dev, reg, data).wire, dev, reg, data, n - 1);
    }
  }

  /** A payload too long for the staging buffer is never sent, however many attempts fit. */
  lemma {:induction false} WriteRetryOversize(w: Wire, dev: byte, reg: byte, data: seq<byte>, n: nat)
    requires |data| > MAX_PAYLOAD
    decreases n
    ensures WriteRetry(w, dev, reg, data, n) == Retry(w, -1, [], n)
  {
    if n > 0 {
      WriteRetryOversize(w, dev, reg, data, n - 1);
    }
  }

  /** `i2c_read_with_timeout` given that at most `n` attempts fit before the deadline. */
  function ReadRetry(w: Wire, dev: byte, reg: byte, buf: seq<byte>, n: nat): (r: Retry)
    decreases n
    ensures r.rc == 0 || r.rc == -1
    ensures r.attempts <= n && r.wire.peer == w.peer && r.wire.regs == w.regs
    ensures r.rc == -1 ==> r.attempts == n && r.data == buf
    ensures r.rc == 0 ==> r.attempts >= 1 && |r.data| == |buf|
  {
    if n == 0 then Retry(w, -1, buf, 0)
    else
      var once := ReadSpec(w, dev, reg, buf);
      if once.rc == 0 then Retry(once.wire, 0, once.data, 1)
      else
        var rest := ReadRetry(once.wire, dev, reg, buf, n - 1);
        rest.(attempts := rest.attempts + 1)
  }

  /** An attempt of a retrying read that meets the replies `rs` gets both phases acknowledged. */
  predicate ReadOk(rs: seq<Reply>)
  {
    Head(rs) == Ack && AckAt(rs, 1)
  }

  /**
   * Transfers one failed read attempt uses: one when its register phase is
   * refused, two when the data phase is.
   */
  function ReadCost(rs: seq<Reply>): nat
  {
    if Head(rs) == Ack then 2 else 1
  }

  /** The replies left for attempt `i` once attempts 0 .. `i - 1` have each used their transfers. */
  function ReadAfter(rs: seq<Reply>, i: nat): seq<Reply>
    decreases i
  {
    if i == 0 then rs else ReadAfter(Drop(rs, ReadCost(rs)), i - 1)
  }

  /** Attempt `i` of a retrying read has both of its phases acknowledged. */
  predicate ReadOkAt(rs: seq<Reply>, i: nat)
  {
    ReadOk(ReadAfter(rs, i))
  }

  /** Index of the first successful read attempt among the first `n`, or `n`. */
  function FirstReadOk(rs: seq<Reply>, n: nat): (k: nat)
    decreases n
    ensures k <= n
    ensures forall j :: 0 <= j < k ==> !ReadOkAt(rs, j)
    ensures k < n ==> ReadOkAt(rs, k)
  {
    if n == 0 then 0
    else if ReadOk(rs) then 0
    else
      var rest := Drop(rs, ReadCost(rs));
      var k := FirstReadOk(rest, n - 1);
      assert forall j :: 0 < j <= k ==> (ReadOkAt(rs, j) <==> ReadOkAt(rest, j - 1));
      1 + k
  }

  /**
   * The retrying read succeeds exactly when one of its first `n` attempts
   * has both phases acknowledged; it stops after the first such attempt,
   * every earlier attempt failed, and the replies left are those after the
   * attempts made.
   */
  lemma ReadRetryFirstOk(w: Wire, dev: byte, reg: byte, buf: seq<byte>, n: nat)
    ensures ReadRetry(w, dev, reg, buf, n).rc == 0 <==> FirstReadOk(w.replies, n) < n
    ensures ReadRetry(w, dev, reg, buf, n).attempts
         == if FirstReadOk(w.replies, n) < n then FirstReadOk(w.replies, n) + 1 else n
    ensures ReadRetry(w, dev, reg, buf, n).wire.replies
         == ReadAfter(w.replies, ReadRetry(w, dev, reg, buf, n).attempts)
  {
    ReadRetryStops(w, dev, reg, buf, n);
  }

  /** What `ReadRetryFirstOk` states about an outcome `r` of at most `n` attempts on the replies `rs`. */
  ghost predicate ReadStopsAtFirstOk(rs: seq<Reply>, n: nat, r: Retry)
  {
    && (r.rc == 0 <==> FirstReadOk(rs, n) < n)
    && r.attempts == (if FirstReadOk(rs, n) < n then FirstReadOk(rs, n) + 1 else n)
    && r.wire.replies == ReadAfter(rs, r.attempts)
  }

  lemma {:induction false} ReadRetryStops(w: Wire, dev: byte, reg: byte, buf: seq<byte>, n: nat)
    decreases n
    ensures ReadStopsAtFirstOk(w.replies, n, ReadRetry(w, dev, reg, buf, n))
  {
    if n == 0 {
      return;
    }
    var next := ReadRetryOnce(w, dev, reg, buf, n);
    if ReadOk(w.replies) {
      ReadOkStops(w.replies, n, ReadRetry(w, dev, reg, buf, n));
    } else {
      ReadRetryStops(next, dev, reg, buf, n - 1);
      ReadFailStep(w.replies, n, next.replies, ReadRetry(next, dev, reg, buf, n - 1));
    }
  }

  /** The first attempt of a retrying read, in terms of the replies it meets. */
  lemma ReadRetryOnce(w: Wire, dev: byte, reg: byte, buf: seq<byte>, n: nat) returns (next: Wire)
    requires n > 0
    ensures ReadOk(w.replies) ==>
      var r := ReadRetry(w, dev, reg, buf, n);
      r.rc == 0 && r.attempts == 1 && r.wire.replies == Drop(w.replies, 2)
    ensures !ReadOk(w.replies) ==>
      && next.replies == Drop(w.replies, ReadCost(w.replies))
      && var rest := ReadRetry(next, dev, reg, buf, n - 1);
        ReadRetry(w, dev, reg, buf, n) == rest.(attempts := rest.attempts + 1)
  {
    next := ReadSpec(w, dev, reg, buf).wire;
  }

  /** A successful first attempt ends the retry. */
  lemma ReadOkStops(rs: seq<Reply>, n: nat, r: Retry)
    requires n > 0 && ReadOk(rs)
    requires r.rc == 0 && r.attempts == 1 && r.wire.replies == Drop(rs, 2)
    ensures ReadStopsAtFirstOk(rs, n, r)
  {
    assert ReadAfter(rs, 1) == ReadAfter(Drop(rs, 2), 0);
  }

  /** A failed first attempt followed by the rest of the retry. */
  lemma ReadFailStep(rs: seq<Reply>, n: nat, tail: seq<Reply>, rest: Retry)
    requires n > 0 && !ReadOk(rs) && tail == Drop(rs, ReadCost(rs)) && ReadStopsAtFirstOk(tail, n - 1, rest)
    ensures ReadStopsAtFirstOk(rs, n, rest.(attempts := rest.attempts + 1))
  {
    assert ReadAfter(rs, rest.attempts + 1) == ReadAfter(tail, rest.attempts);
  }

  /**
   * The retrying read from `w0`, resumed on `w` after `a` failed attempts,
   * once one more attempt has given `rc` and `got` and left the bus at `w'`.
   */
  lemma ReadRetryAdvance(w0: Wire, w: Wire, w': Wire, rc: int, got: seq<byte>,
                         dev: byte, reg: byte, buf: seq<byte>, n: nat, a: nat)
    requires a < n
    requires ReadRetry(w0, dev, reg, buf, n) == var r := ReadRetry(w, dev, reg, buf, n - a); r.(attempts := r.attempts + a)
    requires var once := ReadSpec(w, dev, reg, buf); w' == once.wire && rc == once.rc && got == once.data
    ensures rc == 0 ==> ReadRetry(w0, dev, reg, buf, n) == Retry(w', 0, got, a + 1)
    ensures rc != 0 ==> ReadRetry(w0, dev, reg, buf, n)
                        == var r := ReadRetry(w', dev, reg, buf, n - (a + 1)); r.(attempts := r.attempts + (a + 1))
  {
  }

  /** A successful retrying read from the peer returns its registers from `reg` on. */
  lemma {:induction false} ReadRetryData(w: Wire, dev: byte, reg: byte, buf: seq<byte>, n: nat)
    requires dev == w.peer
    decreases n
    ensures var r := ReadRetry(w, dev, reg, buf, n);
      r.rc == 0 ==> r.data == Window(w.regs, reg, |buf|)
  {
    if n > 0 {
      var once := ReadSpec(w, dev, reg, buf);
      if once.rc != 0 {
        ReadRetryData(once.wire, dev, reg, buf, n - 1);
      }
    }
  }

  method WriteWithTimeout(bus: Bus, dev: byte, reg: byte, data: seq<byte>, timeoutMs: u32)
    returns (rc: int, ghost attempts: nat)
    modifies bus
    ensures var r := WriteRetry(old(bus.Snapshot()), dev, reg, data, MaxAttempts(timeoutMs));
      bus.Snapshot() == r.wire && rc == r.rc && attempts == r.attempts
    ensures bus.now == old(bus.now) + RETRY_PAUSE_MS * (if rc == 0 then attempts - 1 else attempts)
    ensures attempts >= 1 ==> old(bus.now) + RETRY_PAUSE_MS * (attempts - 1) < old(bus.now) + timeoutMs
    ensures rc == -1 ==> bus.now >= old(bus.now) + timeoutMs
    ensures bus.samples == old(bus.samples) && bus.initRc == old(bus.initRc)
  {
    var start := bus.NowMs();
    var limit := start + timeoutMs;
    ghost var w0 := bus.Snapshot();
    ghost var n := MaxAttempts(timeoutMs);
    attempts := 0;
    var t := bus.NowMs();
    while t < limit
      invariant t == bus.now == start + RETRY_PAUSE_MS * attempts
      invariant attempts <= n
      invariant WriteRetry(w0, dev, reg, data, n)
             == var r := WriteRetry(bus.Snapshot(), dev, reg, data, n - attempts); r.(attempts := r.attempts + attempts)
      invariant bus.samples == old(bus.samples) && bus.initRc == old(bus.initRc)
      decreases n - attempts
    {
      var r := Write(bus, dev, reg, data);
      attempts := attempts + 1;
      if r == 0 {
        return 0, attempts;
      }
      bus.SleepMs(RETRY_PAUSE_MS);
      t := bus.NowMs();
    }
    rc := -1;
  }

  method ReadWithTimeout(bus: Bus, dev: byte, reg: byte, buf: seq<byte>, timeoutMs: u32)
    returns (rc: int, data: seq<byte>, ghost attempts: nat)
    modifies bus
    ensures var r := ReadRetry(old(bus.Snapshot()), dev, reg, buf, MaxAttempts(timeoutMs));
      bus.Snapshot() == r.wire && rc == r.rc && data == r.data && attempts == r.attempts
    ensures bus.now == old(bus.now) + RETRY_PAUSE_MS * (if rc == 0 then attempts - 1 else attempts)
    ensures attempts >= 1 ==> old(bus.now) + RETRY_PAUSE_MS * (attempts - 1) < old(bus.now) + timeoutMs
    ensures rc == -1 ==> bus.now >= old(bus.now) + timeoutMs
    ensures bus.samples == old(bus.samples) && bus.initRc == old(bus.initRc)
  {
    var start := bus.NowMs();
    var limit := start + timeoutMs;
    ghost var w0 := bus.Snapshot();
    ghost var n := MaxAttempts(timeoutMs);
    attempts := 0;
    data := buf;
    var t := bus.NowMs();
    while t < limit
      invariant t == bus.now == start + RETRY_PAUSE_MS * attempts
      invariant attempts <= n && data == buf
      invariant ReadRetry(w0, dev, reg, buf, n)
             == var r := ReadRetry(bus.Snapshot(), dev, reg, buf, n - attempts); r.(attempts := r.attempts + attempts)
      invariant bus.samples == old(bus.samples) && bus.initRc == old(bus.initRc)
      decreases n - attempts
    {
      ghost var before := bus.Snapshot();
      var r, got := Read(bus, dev, reg, buf);
      ReadRetryAdvance(w0, before, bus.Snapshot(), r, got, dev, reg, buf, n, attempts);
      attempts := attempts + 1;
      if r == 0 {
        return 0, got, attempts;
      }
      bus.SleepMs(RETRY_PAUSE_MS);
      t := bus.NowMs();
    }
    rc := -1;
  }

  // =====================================================================
  // Presence probing and address scans
  // =====================================================================

  /** A zero-length write to `addr`: the presence test. */
  function Probe(addr: byte, timeoutUs: nat): Event
  {
    WriteTxn(addr, [], false, timeoutUs)
  }

  /** The probes of addresses `lo` .. `hi - 1`, each once, in ascending order. */
  function Probes(lo: nat, hi: nat, timeoutUs: nat): (r: seq<Event>)
    requires lo <= hi <= 256
    decreases hi - lo
    ensures |r| == hi - lo
    ensures forall i :: 0 <= i < |r| ==> r[i] == Probe(lo + i, timeoutUs)
  {
    if lo == hi then [] else Probes(lo, hi - 1, timeoutUs) + [Probe(hi - 1, timeoutUs)]
  }

  /** A probe consumes one reply and logs itself; it stores nothing. */
  lemma ProbeLeavesRegisters(w: Wire, addr: byte, timeoutUs: nat)
    ensures RawWrite(w, addr, [], false, timeoutUs).wire
         == w.(replies := Tail(w.replies), log := w.log + [Probe(addr, timeoutUs)])
    ensures RawWrite(w, addr, [], false, timeoutUs).rc >= 0 <==> Head(w.replies) == Ack
  {
  }

  /** No scan ever probes a reserved address. */
  lemma ScanRangeOnly(n: nat, timeoutUs: nat)
    requires n <= SCAN_COUNT
    ensures forall e :: e in Probes(SCAN_FIRST, SCAN_FIRST + n, timeoutUs) ==>
      e.WriteTxn? && e.bytes == [] && SCAN_FIRST <= e.dev <= SCAN_LAST
  {
    var ps := Probes(SCAN_FIRST, SCAN_FIRST + n, timeoutUs);
    forall e | e in ps
      ensures e.WriteTxn? && e.bytes == [] && SCAN_FIRST <= e.dev <= SCAN_LAST
    {
      var i :| 0 <= i < |ps| && ps[i] == e;
    }
  }

  /** How many of the next `n` transfers are acknowledged. */
  function CountAcks(rs: seq<Reply>, n: nat): (c: nat)
    ensures c <= n
    ensures c == 0 <==> forall k :: 0 <= k < n ==> !AckAt(rs, k)
  {
    if n == 0 then 0 else CountAcks(rs, n - 1) + (if AckAt(rs, n - 1) then 1 else 0)
  }

  /** `i2c_ping`: a zero-length write; presence is an acknowledgement. */
  method Ping(bus: Bus, addr: byte) returns (present: bool)
    modifies bus
    ensures present == (Head(old(bus.replies)) == Ack)
    ensures bus.Snapshot() == old(bus.Snapshot()).(replies := Tail(old(bus.replies)),
                                            log := old(bus.log) + [Probe(addr, I2C_TOUT_US)])
    ensures bus.Env() == old(bus.Env())
  {
    var r := bus.WriteTimeoutUs(addr, [], false, I2C_TOUT_US);
    present := r >= 0;
  }

  /**
   * `scan_i2c_devices`: every address 0x08..0x77 is probed once, in
   * ascending order; the result counts the ones that answered.
   */
  method ScanDevices(bus: Bus) returns (found: int)
    modifies bus
    ensures 0 <= found <= SCAN_COUNT
    ensures found == CountAcks(old(bus.replies), SCAN_COUNT)
    ensures bus.Snapshot() == old(bus.Snapshot()).(replies := Drop(old(bus.replies), SCAN_COUNT),
                                            log := old(bus.log) + Probes(SCAN_FIRST, SCAN_LAST + 1, I2C_TOUT_US))
    ensures bus.Env() == old(bus.Env())
  {
    ghost var w0 := bus.Snapshot();
    found := 0;
    var addr: int := SCAN_FIRST;
    while addr <= SCAN_LAST
      invariant SCAN_FIRST <= addr <= SCAN_LAST + 1
      invariant found == CountAcks(w0.replies, addr - SCAN_FIRST)
      invariant bus.Snapshot() == w0.(replies := Drop(w0.replies, addr - SCAN_FIRST),
                                      log := w0.log + Probes(SCAN_FIRST, addr, I2C_TOUT_US))
      invariant bus.Env() == old(bus.Env())
    {
      DropStep(w0.replies, addr - SCAN_FIRST);
      var present := Ping(bus, addr);
      if present {
        found := found + 1;
      }
      addr := addr + 1;
    }
  }

  datatype ScanOutcome = ScanOutcome(wire: Wire, addr: int)

  /**
   * `scan_i2c_quick`: the first address in 0x08..0x77 that answers, or 0;
   * every lower address in range was probed and refused, and nothing is
   * probed after the first answer.
   */
  function ScanQuickSpec(w: Wire): (r: ScanOutcome)
    ensures r.addr == 0 || SCAN_FIRST <= r.addr <= SCAN_LAST
    ensures r.addr == 0 <==> forall k :: 0 <= k < SCAN_COUNT ==> !AckAt(w.replies, k)
    ensures r.addr != 0 ==> AckAt(w.replies, r.addr - SCAN_FIRST)
    ensures r.addr != 0 ==> forall k :: 0 <= k < r.addr - SCAN_FIRST ==> !AckAt(w.replies, k)
    ensures r.wire.peer == w.peer && r.wire.regs == w.regs && r.wire.ptr == w.ptr
    ensures |r.wire.log| - |w.log| == if r.addr == 0 then SCAN_COUNT else r.addr - SCAN_FIRST + 1
  {
    var k := FirstAck(w.replies, SCAN_COUNT);
    var n := if k < SCAN_COUNT then k + 1 else SCAN_COUNT;
    ScanOutcome(w.(replies := Drop(w.replies, n), log := w.log + Probes(SCAN_FIRST, SCAN_FIRST + n, QUICK_TOUT_US)),
                if k < SCAN_COUNT then SCAN_FIRST + k else 0)
  }

  method ScanQuick(bus: Bus) returns (addr: int)
    modifies bus
    ensures bus.Snapshot() == ScanQuickSpec(old(bus.Snapshot())).wire
    ensures addr == ScanQuickSpec(old(bus.Snapshot())).addr
    ensures bus.Env() == old(bus.Env())
  {
    ghost var w0 := bus.Snapshot();
    addr := SCAN_FIRST;
    while addr <= SCAN_LAST
      invariant SCAN_FIRST <= addr <= SCAN_LAST + 1
      invariant forall k :: 0 <= k < addr - SCAN_FIRST ==> !AckAt(w0.replies, k)
      invariant bus.Snapshot() == w0.(replies := Drop(w0.replies, addr - SCAN_FIRST),
                                      log := w0.log + Probes(SCAN_FIRST, addr, QUICK_TOUT_US))
      invariant bus.Env() == old(bus.Env())
    {
      DropStep(w0.replies, addr - SCAN_FIRST);
      ProbeLeavesRegisters(bus.Snapshot(), addr, QUICK_TOUT_US);
      var r := bus.WriteTimeoutUs(addr, [], false, QUICK_TOUT_US);
      if r >= 0 {
        ScanQuickStopsAt(w0, addr);
        return addr;
      }
      addr := addr + 1;
    }
    ScanQuickFindsNone(w0);
    addr := 0;
  }

  /** The quick scan stops at the first address that acknowledges. */
  lemma ScanQuickStopsAt(w: Wire, addr: nat)
    requires SCAN_FIRST <= addr <= SCAN_LAST
    requires forall k :: 0 <= k < addr - SCAN_FIRST ==> !AckAt(w.replies, k)
    requires AckAt(w.replies, addr - SCAN_FIRST)
    ensures ScanQuickSpec(w).addr == addr
    ensures ScanQuickSpec(w).wire
         == w.(replies := Drop(w.replies, addr + 1 - SCAN_FIRST), log := w.log + Probes(SCAN_FIRST, addr + 1, QUICK_TOUT_US))
  {
    FirstAckIs(w.replies, SCAN_COUNT, addr - SCAN_FIRST);
  }

  /** With no address acknowledging, the quick scan probes them all and reports 0. */
  lemma ScanQuickFindsNone(w: Wire)
    requires forall k :: 0 <= k < SCAN_COUNT ==> !AckAt(w.replies, k)
    ensures ScanQuickSpec(w).addr == 0
    ensures ScanQuickSpec(w).wire
         == w.(replies := Drop(w.replies, SCAN_COUNT), log := w.log + Probes(SCAN_FIRST, SCAN_LAST + 1, QUICK_TOUT_US))
  {
    FirstAckIs(w.replies, SCAN_COUNT, SCAN_COUNT);
  }

  /** The first acknowledged transfer is the one after a run of refusals. */
  lemma FirstAckIs(rs: seq<Reply>, n: nat, m: nat)
    requires m <= n
    requires forall j :: 0 <= j < m ==> !AckAt(rs, j)
    requires m < n ==> AckAt(rs, m)
    ensures FirstAck(rs, n) == m
  {
    var k := FirstAck(rs, n);
  }

  // =====================================================================
  // Bus clear
  // =====================================================================

  /** `n` clock pulses on pin `scl`. */
  function Pulses(scl: nat, n: nat): (r: seq<Event>)
    ensures |r| == n && forall e :: e in r ==> e == SclPulse(scl)
  {
    seq(n, _ => SclPulse(scl))
  }

  /**
   * How many clock pulses the bus clear issues for the given data-line
   * samples: it stops right after the first pulse at which the line reads
   * high, and after nine pulses at the latest.
   */
  function PulseCount(samples: seq<bool>): (n: nat)
    ensures 1 <= n <= CLEAR_PULSES
    ensures forall k :: 0 <= k < n - 1 ==> !HighAt(samples, k)
    ensures n < CLEAR_PULSES ==> HighAt(samples, n - 1)
  {
    var k := FirstHigh(samples, CLEAR_PULSES);
    if k < CLEAR_PULSES then k + 1 else CLEAR_PULSES
  }

  /**
   * `i2c_bus_clear`: hands both pins to GPIO and clocks the bus until the
   * data line is released, at most nine times.  The pins are left as GPIO.
   */
  method BusClear(bus: Bus, sda: nat, scl: nat)
    modifies bus
    ensures bus.Snapshot() == old(bus.Snapshot()).(log := old(bus.log) + [PinsToGpio(sda, scl)]
                                              + Pulses(scl, PulseCount(old(bus.samples))))
    ensures bus.samples == DropSamples(old(bus.samples), PulseCount(old(bus.samples)))
    ensures bus.initRc == old(bus.initRc) && bus.now == old(bus.now) + CLEAR_SETTLE_MS
  {
    ghost var s0 := bus.samples;
    ghost var w0 := bus.Snapshot();
    bus.PinsGpio(sda, scl);
    bus.SleepMs(CLEAR_SETTLE_MS);
    var i := 0;
    while i < CLEAR_PULSES
      invariant 0 <= i <= CLEAR_PULSES
      invariant forall k :: 0 <= k < i ==> !HighAt(s0, k)
      invariant bus.Snapshot() == w0.(log := w0.log + [PinsToGpio(sda, scl)] + Pulses(scl, i))
      invariant bus.samples == DropSamples(s0, i)
      invariant bus.initRc == old(bus.initRc) && bus.now == old(bus.now) + CLEAR_SETTLE_MS
    {
      bus.PulseScl(scl);
      assert Pulses(scl, i) + [SclPulse(scl)] == Pulses(scl, i + 1);
      var high := bus.SampleSda();
      DropSamplesStep(s0, i);
      if high {
        assert FirstHigh(s0, CLEAR_PULSES) == i by {
          var k := FirstHigh(s0, CLEAR_PULSES);
        }
        return;
      }
      i := i + 1;
    }
    assert FirstHigh(s0, CLEAR_PULSES) == CLEAR_PULSES by {
      var k := FirstHigh(s0, CLEAR_PULSES);
    }
  }
}
