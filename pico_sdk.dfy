/**
 * The board support the firmware calls into, as an abstract oracle.
 *
 * The I2C peripheral, the GPIO pins, the millisecond clock and the USB
 * console are not modelled electrically.  Instead:
 *   - every I2C transfer (`i2c_write_timeout_us`, `i2c_read_timeout_us`)
 *     takes its outcome from a sequence of replies, one per transfer
 *     (an exhausted sequence behaves as a bus with nobody answering);
 *   - the one register-bearing peer (the clock generator) answers at
 *     address `peer` and holds a 256-byte register file with an
 *     auto-incrementing register pointer;
 *   - `gpio_get` on the data line takes its level from a sequence of
 *     samples (an exhausted sequence reads high, the pull-up level);
 *   - `i2c_init` reports a fixed return code;
 *   - the clock only moves when someone sleeps;
 *   - `getchar_timeout_us` takes its result from a sequence of inputs.
 * Every transfer and pin operation is appended to an event log, which is
 * what the layers above are specified against.
 */
module PicoSdk {
  import opened Common

  /** The register file of the peer: one byte per register address. */
  type RegFile = s: seq<byte> | |s| == 256 witness seq(256, _ => 0)

  /** Outcome of one bus transfer: acknowledged, not acknowledged, timed out. */
  datatype Reply = Ack | Nack | Stall

  const PICO_ERROR_TIMEOUT: int := -1
  const PICO_ERROR_GENERIC: int := -2

  /** Something the firmware did to the bus or its pins. */
  datatype Event =
    | WriteTxn(dev: byte, bytes: seq<byte>, nostop: bool, timeoutUs: nat)
    | ReadTxn(dev: byte, len: nat, nostop: bool, timeoutUs: nat)
    | PeriphInit(baud: nat)
    | PeriphDeinit
    | PinsToI2c(sda: nat, scl: nat)
    | PinsToGpio(sda: nat, scl: nat)
    | SclPulse(scl: nat)

  /** The part of the world an I2C transfer can observe or change. */
  datatype Wire = Wire(peer: byte, regs: RegFile, ptr: byte, replies: seq<Reply>, log: seq<Event>)

  datatype WriteOutcome = WriteOutcome(wire: Wire, rc: int)
  datatype ReadOutcome = ReadOutcome(wire: Wire, rc: int, data: seq<byte>)

  /** The reply the next transfer gets. */
  function Head(rs: seq<Reply>): Reply
  {
    if rs == [] then Nack else rs[0]
  }

  /** The replies left after one transfer. */
  function Tail(rs: seq<Reply>): seq<Reply>
  {
    if rs == [] then [] else rs[1..]
  }

  /** The replies left after `k` transfers. */
  function Drop(rs: seq<Reply>, k: nat): seq<Reply>
  {
    if k >= |rs| then [] else rs[k..]
  }

  /** Transfer number `k` (counting from 0) is acknowledged. */
  predicate AckAt(rs: seq<Reply>, k: nat)
  {
    k < |rs| && rs[k] == Ack
  }

  lemma DropStep(rs: seq<Reply>, k: nat)
    ensures Head(Drop(rs, k)) == Ack <==> AckAt(rs, k)
    ensures Tail(Drop(rs, k)) == Drop(rs, k + 1)
  {
    if k < |rs| {
      assert rs[k..][1..] == rs[k + 1..];
    }
  }

  /** The next `n` transfers are all acknowledged. */
  predicate AcksAhead(rs: seq<Reply>, n: nat)
  {
    forall k :: 0 <= k < n ==> AckAt(rs, k)
  }

  lemma AcksAheadTail(rs: seq<Reply>, n: nat)
    requires n >= 1 && AcksAhead(rs, n)
    ensures Head(rs) == Ack && AcksAhead(Tail(rs), n - 1)
  {
    assert AckAt(rs, 0);
    forall k | 0 <= k < n - 1
      ensures AckAt(Tail(rs), k)
    {
      assert AckAt(rs, k + 1);
    }
  }

  lemma AcksAheadDrop2(rs: seq<Reply>, n: nat)
    requires n >= 2 && AcksAhead(rs, n)
    ensures Head(rs) == Ack && AckAt(rs, 1) && AcksAhead(Drop(rs, 2), n - 2)
  {
    assert AckAt(rs, 0) && AckAt(rs, 1);
    forall k | 0 <= k < n - 2
      ensures AckAt(Drop(rs, 2), k)
    {
      assert AckAt(rs, k + 2);
    }
  }

  /** Dropping `k` transfers and then `j` more is dropping `k + j`. */
  lemma DropAdd(rs: seq<Reply>, k: nat, j: nat)
    ensures Drop(Drop(rs, k), j) == Drop(rs, k + j)
    ensures AckAt(Drop(rs, k), j) <==> AckAt(rs, k + j)
  {
    if k + j < |rs| {
      assert rs[k..][j..] == rs[k + j..];
    }
  }

  /** Acknowledgements still ahead after `k` of them have been used. */
  lemma AcksAheadDrop(rs: seq<Reply>, n: nat, k: nat)
    requires k <= n && AcksAhead(rs, n)
    ensures AcksAhead(Drop(rs, k), n - k)
  {
    forall j | 0 <= j < n - k
      ensures AckAt(Drop(rs, k), j)
    {
      assert AckAt(rs, k + j);
    }
  }

  /** Index of the first acknowledged transfer among the next `n`, or `n` if none is. */
  function FirstAck(rs: seq<Reply>, n: nat): (k: nat)
    ensures k <= n
    ensures forall j :: 0 <= j < k ==> !AckAt(rs, j)
    ensures k < n ==> AckAt(rs, k)
  {
    if n == 0 then 0
    else if rs == [] then n
    else if rs[0] == Ack then 0
    else
      var k := FirstAck(rs[1..], n - 1);
      assert forall j :: 0 < j < k + 1 ==> (AckAt(rs[1..], j - 1) <==> AckAt(rs, j));
      1 + k
  }

  /** The SDK's return code: the byte count on success, a negative error otherwise. */
  function RcOf(r: Reply, n: nat): (rc: int)
    ensures rc >= 0 <==> r == Ack
  {
    match r
    case Ack => n
    case Nack => PICO_ERROR_GENERIC
    case Stall => PICO_ERROR_TIMEOUT
  }

  /** Register writes with auto-increment: `data` goes to `reg`, `reg+1`, ... (mod 256). */
  function Store(regs: RegFile, reg: byte, data: seq<byte>): RegFile
    decreases |data|
  {
    if data == [] then regs else Store(regs[reg := data[0]], (reg + 1) % 256, data[1..])
  }

  /** A block that does not run past register 255 lands exactly where it is aimed. */
  lemma {:induction false} StoreSpec(regs: RegFile, reg: byte, data: seq<byte>)
    requires reg + |data| <= 256
    decreases |data|
    ensures forall k :: 0 <= k < 256 ==>
      Store(regs, reg, data)[k] == if reg <= k < reg + |data| then data[k - reg] else regs[k]
  {
    if data != [] {
      StoreSpec(regs[reg := data[0]], (reg + 1) % 256, data[1..]);
    }
  }

  /** `len` registers read with auto-increment from `start`. */
  function Window(regs: RegFile, start: byte, len: nat): (r: seq<byte>)
    ensures |r| == len
  {
    seq(len, i requires 0 <= i < len => regs[(start + i) % 256])
  }

  /**
   * `i2c_write_timeout_us`: one transfer.  When the peer acknowledges, the
   * first byte sets its register pointer and the rest are stored from there.
   */
  function RawWrite(w: Wire, dev: byte, bytes: seq<byte>, nostop: bool, timeoutUs: nat): (r: WriteOutcome)
    ensures r.wire.peer == w.peer
    ensures r.wire.log == w.log + [WriteTxn(dev, bytes, nostop, timeoutUs)]
    ensures r.wire.replies == Tail(w.replies)
    ensures r.rc >= 0 <==> Head(w.replies) == Ack
    ensures Head(w.replies) != Ack || dev != w.peer || bytes == [] ==> r.wire.regs == w.regs && r.wire.ptr == w.ptr
  {
    var lands := Head(w.replies) == Ack && dev == w.peer && bytes != [];
    var w' := w.(replies := Tail(w.replies),
                 log := w.log + [WriteTxn(dev, bytes, nostop, timeoutUs)],
                 regs := if lands then Store(w.regs, bytes[0], bytes[1..]) else w.regs,
                 ptr := if lands then (bytes[0] + |bytes| - 1) % 256 else w.ptr);
    WriteOutcome(w', RcOf(Head(w.replies), |bytes|))
  }

  /**
   * `i2c_read_timeout_us`: one transfer.  An acknowledged read from the peer
   * returns its registers from the pointer on; any other device that
   * acknowledges is taken to return zero bytes.  A failed read returns nothing.
   */
  function RawRead(w: Wire, dev: byte, len: nat, nostop: bool, timeoutUs: nat): (r: ReadOutcome)
    ensures r.wire == w.(replies := Tail(w.replies), log := w.log + [ReadTxn(dev, len, nostop, timeoutUs)],
                         ptr := r.wire.ptr)
    ensures r.rc >= 0 <==> Head(w.replies) == Ack
    ensures r.rc >= 0 ==> |r.data| == len
    ensures r.rc >= 0 && dev == w.peer ==> r.data == Window(w.regs, w.ptr, len)
  {
    var ok := Head(w.replies) == Ack;
    var data := if dev == w.peer then Window(w.regs, w.ptr, len) else seq(len, _ => 0);
    var w' := w.(replies := Tail(w.replies),
                 log := w.log + [ReadTxn(dev, len, nostop, timeoutUs)],
                 ptr := if ok && dev == w.peer then (w.ptr + len) % 256 else w.ptr);
    ReadOutcome(w', RcOf(Head(w.replies), len), if ok then data else [])
  }

  /** The data-line level seen by sample `k`; past the end the pull-up wins. */
  predicate HighAt(samples: seq<bool>, k: nat)
  {
    k >= |samples| || samples[k]
  }

  function DropSamples(samples: seq<bool>, k: nat): (r: seq<bool>)
    ensures HighAt(r, 0) <==> HighAt(samples, k)
  {
    if k >= |samples| then [] else samples[k..]
  }

  /** Index of the first high sample among the next `n`, or `n` if all are low. */
  function FirstHigh(samples: seq<bool>, n: nat): (k: nat)
    ensures k <= n
    ensures forall j :: 0 <= j < k ==> !HighAt(samples, j)
    ensures k < n ==> HighAt(samples, k)
  {
    if n == 0 then 0
    else if samples == [] || samples[0] then 0
    else
      var k := FirstHigh(samples[1..], n - 1);
      assert forall j :: 0 < j < k + 1 ==> (HighAt(samples[1..], j - 1) <==> HighAt(samples, j));
      1 + k
  }

  lemma DropSamplesStep(samples: seq<bool>, k: nat)
    ensures DropSamples(DropSamples(samples, k), 1) == DropSamples(samples, k + 1)
  {
    if k < |samples| {
      assert samples[k..][1..] == samples[k + 1..];
    }
  }

  /** The I2C peripheral, its two pins, the clock and the peer on the bus. */
  class Bus {
    const peer: byte
    var regs: RegFile
    var ptr: byte
    var replies: seq<Reply>
    var log: seq<Event>
    var samples: seq<bool>
    var initRc: int
    var now: nat

    /** What an I2C transfer sees. */
    function Snapshot(): Wire
      reads this
    {
      Wire(peer, regs, ptr, replies, log)
    }

    /** What only pin, init and clock operations touch. */
    function Env(): (seq<bool>, int, nat)
      reads this
    {
      (samples, initRc, now)
    }

    constructor (peer: byte, regs: RegFile, replies: seq<Reply>, samples: seq<bool>, initRc: int)
      ensures Snapshot() == Wire(peer, regs, 0, replies, [])
      ensures Env() == (samples, initRc, 0)
    {
      this.peer := peer;
      this.regs := regs;
      this.ptr := 0;
      this.replies := replies;
      this.log := [];
      this.samples := samples;
      this.initRc := initRc;
      this.now := 0;
    }

    method SetWire(w: Wire)
      requires w.peer == peer
      modifies this
      ensures Snapshot() == w && Env() == old(Env())
    {
      regs, ptr, replies, log := w.regs, w.ptr, w.replies, w.log;
    }

    /** `i2c_write_timeout_us`. */
    method WriteTimeoutUs(dev: byte, src: seq<byte>, nostop: bool, timeoutUs: nat) returns (rc: int)
      modifies this
      ensures Snapshot() == RawWrite(old(Snapshot()), dev, src, nostop, timeoutUs).wire
      ensures rc == RawWrite(old(Snapshot()), dev, src, nostop, timeoutUs).rc
      ensures Env() == old(Env())
    {
      var out := RawWrite(Snapshot(), dev, src, nostop, timeoutUs);
      SetWire(out.wire);
      rc := out.rc;
    }

    /** `i2c_read_timeout_us`; `dst` holds what the SDK stored, empty on failure. */
    method ReadTimeoutUs(dev: byte, len: nat, nostop: bool, timeoutUs: nat) returns (rc: int, dst: seq<byte>)
      modifies this
      ensures Snapshot() == RawRead(old(Snapshot()), dev, len, nostop, timeoutUs).wire
      ensures rc == RawRead(old(Snapshot()), dev, len, nostop, timeoutUs).rc
      ensures dst == RawRead(old(Snapshot()), dev, len, nostop, timeoutUs).data
      ensures Env() == old(Env())
    {
      var out := RawRead(Snapshot(), dev, len, nostop, timeoutUs);
      SetWire(out.wire);
      rc, dst := out.rc, out.data;
    }

    /** `i2c_init`: reports the configured return code. */
    method PeriphInitialize(baud: nat) returns (rc: int)
      modifies this
      ensures rc == initRc
      ensures Snapshot() == old(Snapshot()).(log := old(log) + [PeriphInit(baud)])
      ensures Env() == old(Env())
    {
      log := log + [PeriphInit(baud)];
      rc := initRc;
    }

    /** `i2c_deinit`. */
    method PeriphDeinitialize()
      modifies this
      ensures Snapshot() == old(Snapshot()).(log := old(log) + [PeriphDeinit])
      ensures Env() == old(Env())
    {
      log := log + [PeriphDeinit];
    }

    /** `gpio_set_function(.., GPIO_FUNC_I2C)` and `gpio_pull_up` on both pins. */
    method PinsI2c(sda: nat, scl: nat)
      modifies this
      ensures Snapshot() == old(Snapshot()).(log := old(log) + [PinsToI2c(sda, scl)])
      ensures Env() == old(Env())
    {
      log := log + [PinsToI2c(sda, scl)];
    }

    /** `gpio_init`, clock as output, data as input, pull-ups on both. */
    method PinsGpio(sda: nat, scl: nat)
      modifies this
      ensures Snapshot() == old(Snapshot()).(log := old(log) + [PinsToGpio(sda, scl)])
      ensures Env() == old(Env())
    {
      log := log + [PinsToGpio(sda, scl)];
    }

    /** `gpio_put(scl, 0)` then `gpio_put(scl, 1)`: one clock pulse. */
    method PulseScl(scl: nat)
      modifies this
      ensures Snapshot() == old(Snapshot()).(log := old(log) + [SclPulse(scl)])
      ensures Env() == old(Env())
    {
      log := log + [SclPulse(scl)];
    }

    /** `gpio_get(sda)`: takes the next sample. */
    method SampleSda() returns (high: bool)
      modifies this
      ensures high == HighAt(old(samples), 0)
      ensures samples == DropSamples(old(samples), 1)
      ensures Snapshot() == old(Snapshot()) && initRc == old(initRc) && now == old(now)
    {
      high := HighAt(samples, 0);
      samples := DropSamples(samples, 1);
    }

    /** `to_ms_since_boot(get_absolute_time())`. */
    method NowMs() returns (t: nat)
      ensures t == now
    {
      t := now;
    }

    /** `sleep_ms`. */
    method SleepMs(ms: nat)
      modifies this
      ensures now == old(now) + ms
      ensures Snapshot() == old(Snapshot()) && samples == old(samples) && initRc == old(initRc)
    {
      now := now + ms;
    }
  }

  /** What `getchar_timeout_us` returns: nothing within the timeout, or one character. */
  datatype Input = TimedOut | Char(c: char)

  /** The USB console's receive side. */
  class Console {
    var pending: seq<Input>

    constructor (pending: seq<Input>)
      ensures this.pending == pending
    {
      this.pending := pending;
    }

    /** `getchar_timeout_us`: the next input, or a timeout once none is left. */
    method GetChar() returns (k: Input)
      modifies this
      ensures k == (if old(pending) == [] then TimedOut else old(pending)[0])
      ensures pending == (if old(pending) == [] then [] else old(pending)[1..])
    {
      if pending == [] {
        k := TimedOut;
      } else {
        k := pending[0];
        pending := pending[1..];
      }
    }
  }
}
