/** The bus transaction engine: one SMBus byte write or byte read against the
    controller's I/O window at `addr`.

    Port input is the environment: the k-th read of the status register
    returns `env.status(k)`, the k-th read of the control register
    `env.control(k)`, the k-th read of the data register `env.data(k)`.
    Port output is recorded: every `outb` appends one IoWrite to the trace the
    method returns. */
module Bus {
  import opened Errors

  type uint32 = x: nat | x < 0x1_0000_0000

  /** One `outb(value, port)`. */
  datatype IoWrite = Out(port: bv16, value: bv8)

  /** What the three input ports return, read after read. */
  datatype Env = Env(status: nat -> bv8, control: nat -> bv8, data: nat -> bv8)

  /** Status register bits and values. */
  const ErrorBit: bv8 := 0x04
  const LatchBits: bv8 := 0x90
  const StatusAckBits: bv8 := 0x94
  const Idle: bv8 := 0x40
  const Done: bv8 := 0x42
  /** The code written to the control register to start a transaction. */
  const StartCode: bv8 := 0x48

  /** Registers of the window, as offsets from its base (16-bit port
      arithmetic wraps). */
  function StatusPort(addr: bv16): bv16 { addr }
  function ControlPort(addr: bv16): bv16 { addr + 2 }
  function CommandPort(addr: bv16): bv16 { addr + 3 }
  function AddressPort(addr: bv16): bv16 { addr + 4 }
  function DataPort(addr: bv16): bv16 { addr + 5 }

  /** The iteration bound of each polling phase: `wait * 100` computed in
      32-bit unsigned arithmetic. */
  function Budget(wait: uint32): (n: nat)
    ensures n < 0x1_0000_0000
    ensures wait * 100 < 0x1_0000_0000 ==> n == wait * 100
  {
    (wait * 100) % 0x1_0000_0000
  }

  /** A status byte that ends a polling loop waiting for `sentinel`. */
  predicate Stops(b: bv8, sentinel: bv8)
  {
    b & ErrorBit != 0 || b == sentinel
  }

  /** The index of the first status read in [from, from + n) that ends the
      polling loop, or from + n when none does. */
  function FirstStop(s: nat -> bv8, from: nat, n: nat, sentinel: bv8): (j: nat)
    ensures from <= j <= from + n
    ensures j < from + n ==> Stops(s(j), sentinel)
    ensures forall k :: from <= k < j ==> !Stops(s(k), sentinel)
    decreases n
  {
    if n == 0 then from
    else if Stops(s(from), sentinel) then from
    else FirstStop(s, from + 1, n - 1, sentinel)
  }

  /** FirstStop is the only index with its three properties: a loop that
      stops at the first stopping read stops exactly there. */
  lemma FirstStopUnique(s: nat -> bv8, from: nat, n: nat, sentinel: bv8, j: nat)
    requires from <= j <= from + n
    requires j < from + n ==> Stops(s(j), sentinel)
    requires forall k :: from <= k < j ==> !Stops(s(k), sentinel)
    ensures FirstStop(s, from, n, sentinel) == j
  {
  }

  /** None of the status reads from `from` up to j - 1 has the error bit. */
  predicate NoErrorBefore(s: nat -> bv8, from: nat, j: nat)
  {
    forall k :: from <= k < j ==> s(k) & ErrorBit == 0
  }

  /** Within n status reads starting at `from`, the sentinel is seen before
      any read with the error bit set. */
  ghost predicate Reaches(s: nat -> bv8, from: nat, n: nat, sentinel: bv8)
  {
    exists j :: from <= j < from + n && s(j) == sentinel && NoErrorBefore(s, from, j)
  }

  /** A polling loop of n reads from `from` succeeds: the read it stops at
      is within the budget and is the sentinel (not an error). */
  predicate Sees(s: nat -> bv8, from: nat, n: nat, sentinel: bv8)
  {
    FirstStop(s, from, n, sentinel) < from + n && s(FirstStop(s, from, n, sentinel)) == sentinel
  }

  /** The loop that stops at FirstStop succeeds exactly when the sentinel is
      reached in time. */
  lemma ReachesIffSees(s: nat -> bv8, from: nat, n: nat, sentinel: bv8)
    requires sentinel & ErrorBit == 0
    ensures Reaches(s, from, n, sentinel) <==> Sees(s, from, n, sentinel)
  {
    if Reaches(s, from, n, sentinel) {
      ReachesSees(s, from, n, sentinel);
    }
    if Sees(s, from, n, sentinel) {
      SeesReaches(s, from, n, sentinel);
    }
  }

  lemma ReachesSees(s: nat -> bv8, from: nat, n: nat, sentinel: bv8)
    requires sentinel & ErrorBit == 0 && Reaches(s, from, n, sentinel)
    ensures Sees(s, from, n, sentinel)
  {
    var j := FirstStop(s, from, n, sentinel);
    var w :| from <= w < from + n && s(w) == sentinel && NoErrorBefore(s, from, w);
    assert Stops(s(w), sentinel);
    if j < w {
      assert Stops(s(j), sentinel) && s(j) & ErrorBit == 0;
    }
  }

  lemma SeesReaches(s: nat -> bv8, from: nat, n: nat, sentinel: bv8)
    requires Sees(s, from, n, sentinel)
    ensures Reaches(s, from, n, sentinel)
  {
    var j := FirstStop(s, from, n, sentinel);
    forall k | from <= k < j
      ensures s(k) & ErrorBit == 0
    {
      assert !Stops(s(k), sentinel);
    }
    assert from <= j < from + n && s(j) == sentinel && NoErrorBefore(s, from, j);
  }

  /** Phase 1 reads status from index 1 on (index 0 is the read before it)
      and succeeds when it sees the idle sentinel in time. */
  predicate PhaseOne(env: Env, wait: uint32)
  {
    Sees(env.status, 1, Budget(wait), Idle)
  }

  /** Phase 2 reads status from the read after phase 1's last one and
      succeeds when it sees the completion sentinel in time. */
  predicate PhaseTwo(env: Env, wait: uint32)
  {
    Sees(env.status, FirstStop(env.status, 1, Budget(wait), Idle) + 1, Budget(wait), Done)
  }

  /** Phase 1 in declarative terms: it succeeds exactly when idle is read
      within the budget before any read with the error bit. */
  lemma PhaseOneReaches(env: Env, wait: uint32)
    ensures PhaseOne(env, wait) <==> Reaches(env.status, 1, Budget(wait), Idle)
  {
    ReachesIffSees(env.status, 1, Budget(wait), Idle);
  }

  /** Phase 2 in declarative terms: it succeeds exactly when done is read
      within the budget before any error, counting from the read after
      phase 1's last. */
  lemma PhaseTwoReaches(env: Env, wait: uint32)
    ensures PhaseTwo(env, wait) <==>
      Reaches(env.status, FirstStop(env.status, 1, Budget(wait), Idle) + 1, Budget(wait), Done)
  {
    var start := FirstStop(env.status, 1, Budget(wait), Idle) + 1;
    ReachesIffSees(env.status, start, Budget(wait), Done);
  }

  /** With a zero budget neither phase can succeed. */
  lemma NoBudgetNoPhase(env: Env, wait: uint32)
    requires Budget(wait) == 0
    ensures !PhaseOne(env, wait) && !PhaseTwo(env, wait)
  {
  }

  /** Housekeeping writes of phase 1: acknowledging the latch bits through the
      control register (the value always has bit 1 set), or writing status
      bits back to the status register. */
  predicate PhaseOneAck(w: IoWrite, addr: bv16)
  {
    (w.port == ControlPort(addr) && w.value & 0x02 != 0) ||
    (w.port == StatusPort(addr) && w.value != 0 && w.value & !StatusAckBits == 0)
  }

  /** The writes that open the wait for idle: status all-clear and, for reads,
      the pre-cleared data register. */
  function Opening(addr: bv16, isRead: bool): seq<IoWrite>
  {
    if isRead then [Out(StatusPort(addr), 0xFF), Out(DataPort(addr), 0x00)]
    else [Out(StatusPort(addr), 0xFF)]
  }

  /** The control-register write acknowledging the latch bits of status byte
      `b`, given the byte just read from the control register. */
  function LatchAck(addr: bv16, control: bv8, b: bv8): IoWrite
  {
    Out(ControlPort(addr), control | (b & 0x80) | 0x02)
  }

  /** The writes one phase-1 poll makes after reading status byte `b`: the
      latch acknowledgement when a latch bit is set, then the write-back of
      the acknowledged status bits when any is set. */
  function ReadAcks(addr: bv16, control: bv8, b: bv8): seq<IoWrite>
  {
    (if b & LatchBits != 0 then [LatchAck(addr, control, b)] else []) +
    (if b & StatusAckBits != 0 then [Out(StatusPort(addr), b & StatusAckBits)] else [])
  }

  /** How many of the status reads from .. until - 1 carry a latch bit: each of them
      consumes one control-register read. */
  function Latches(s: nat -> bv8, from: nat, until: nat): nat
    decreases until
  {
    if until <= from then 0
    else Latches(s, from, until - 1) + (if s(until - 1) & LatchBits != 0 then 1 else 0)
  }

  /** The writes of phase-1 polls over status reads from .. until - 1, whose latch
      acknowledgements use the control reads from index `ct` on. */
  function PollAcks(env: Env, addr: bv16, from: nat, until: nat, ct: nat): seq<IoWrite>
    decreases until
  {
    if until <= from then []
    else
      PollAcks(env, addr, from, until - 1, ct) +
      ReadAcks(addr, env.control(ct + Latches(env.status, from, until - 1)), env.status(until - 1))
  }

  /** One past the last status read of the phase-1 loop: the read it stopped
      at is included, and when the budget ran out the loop read indices
      1 .. budget. */
  function PhaseOneEnd(s: nat -> bv8, wait: uint32): (e: nat)
    ensures 1 <= e <= 1 + Budget(wait)
  {
    var j := FirstStop(s, 1, Budget(wait), Idle);
    if j < 1 + Budget(wait) then j + 1 else j
  }

  /** The latch acknowledgement made from the status read before phase 1. */
  function PreAck(env: Env, addr: bv16): seq<IoWrite>
  {
    if env.status(0) & LatchBits != 0 then [LatchAck(addr, env.control(0), env.status(0))] else []
  }

  /** Every write of the clearing part of a transaction, in order: the
      pre-check acknowledgement, the opening, then the writes of each phase-1
      poll. */
  function ClearingTrace(env: Env, addr: bv16, isRead: bool, wait: uint32): seq<IoWrite>
  {
    PreAck(env, addr) + Opening(addr, isRead) +
    PollAcks(env, addr, 1, PhaseOneEnd(env.status, wait), |PreAck(env, addr)|)
  }

  /** The writes of phase 2 started at status index `start`: one 0x04 to the
      status register when the loop stopped on the error bit, and none
      otherwise. */
  function DoneAcks(s: nat -> bv8, addr: bv16, start: nat, wait: uint32): seq<IoWrite>
  {
    var j := FirstStop(s, start, Budget(wait), Done);
    if j < start + Budget(wait) && s(j) & ErrorBit != 0 then [Out(StatusPort(addr), ErrorBit)] else []
  }

  /** One more poll appends its writes and counts its latch bits. */
  lemma PollStep(env: Env, addr: bv16, from: nat, until: nat, ct: nat)
    requires from <= until
    ensures PollAcks(env, addr, from, until + 1, ct) ==
      PollAcks(env, addr, from, until, ct) +
      ReadAcks(addr, env.control(ct + Latches(env.status, from, until)), env.status(until))
    ensures Latches(env.status, from, until + 1) ==
      Latches(env.status, from, until) + (if env.status(until) & LatchBits != 0 then 1 else 0)
  {
  }

  /** Every write a phase-1 poll makes is a housekeeping write. */
  lemma {:induction false} PollAcksAreAcks(env: Env, addr: bv16, from: nat, until: nat, ct: nat)
    ensures forall w :: w in PollAcks(env, addr, from, until, ct) ==> PhaseOneAck(w, addr)
    decreases until
  {
    if from < until {
      PollAcksAreAcks(env, addr, from, until - 1, ct);
      var b := env.status(until - 1);
      var c := env.control(ct + Latches(env.status, from, until - 1));
      assert (c | (b & 0x80) | 0x02) & 0x02 != 0;
      assert b & StatusAckBits != 0 ==> (b & StatusAckBits) & !StatusAckBits == 0;
    }
  }

  /** The trace of the clearing part of a transaction: at most one latch
      acknowledgement from the first status read, the opening, and then
      phase-1 housekeeping writes only. */
  ghost predicate ClearingWrites(ws: seq<IoWrite>, addr: bv16, isRead: bool)
  {
    var op := Opening(addr, isRead);
    var h := if |ws| > 0 && ws[0].port == ControlPort(addr) then 1 else 0;
    |ws| >= h + |op| && ws[h..h + |op|] == op &&
    (h == 1 ==> PhaseOneAck(ws[0], addr)) &&
    forall k :: h + |op| <= k < |ws| ==> PhaseOneAck(ws[k], addr)
  }

  /** The framing of a write: device address, command, data, start code. */
  function WriteFrame(addr: bv16, i2cAddr: bv8, cmd: bv8, data: bv8): seq<IoWrite>
  {
    [Out(AddressPort(addr), i2cAddr), Out(CommandPort(addr), cmd),
     Out(DataPort(addr), data), Out(ControlPort(addr), StartCode)]
  }

  /** The framing of a read: device address + 1 (read direction), command,
      start code; no data byte. */
  function ReadFrame(addr: bv16, i2cAddr: bv8, cmd: bv8): seq<IoWrite>
  {
    [Out(AddressPort(addr), i2cAddr + 1), Out(CommandPort(addr), cmd),
     Out(ControlPort(addr), StartCode)]
  }

  /** The registers of the window are five distinct ports. */
  lemma PortsDistinct(addr: bv16)
    ensures StatusPort(addr) != ControlPort(addr) && StatusPort(addr) != CommandPort(addr)
    ensures StatusPort(addr) != AddressPort(addr) && StatusPort(addr) != DataPort(addr)
    ensures ControlPort(addr) != CommandPort(addr) && ControlPort(addr) != AddressPort(addr)
    ensures ControlPort(addr) != DataPort(addr) && CommandPort(addr) != AddressPort(addr)
    ensures CommandPort(addr) != DataPort(addr) && AddressPort(addr) != DataPort(addr)
  {
  }

  /** A write that frames no transaction: not to the address or command
      register, not the start code, and to the data register only the read's
      pre-clearing 0. */
  predicate Unframing(w: IoWrite, addr: bv16, isRead: bool)
  {
    w.port != AddressPort(addr) && w.port != CommandPort(addr) &&
    w != Out(ControlPort(addr), StartCode) &&
    (w.port == DataPort(addr) ==> isRead && w.value == 0)
  }

  /** No transaction was framed: no write of the trace frames one. */
  predicate NoFraming(ws: seq<IoWrite>, addr: bv16, isRead: bool)
  {
    forall k :: 0 <= k < |ws| ==> Unframing(ws[k], addr, isRead)
  }

  lemma ClearingFramesNothing(ws: seq<IoWrite>, addr: bv16, isRead: bool)
    requires ClearingWrites(ws, addr, isRead)
    ensures NoFraming(ws, addr, isRead)
  {
    var op := Opening(addr, isRead);
    var h := if |ws| > 0 && ws[0].port == ControlPort(addr) then 1 else 0;
    PortsDistinct(addr);
    assert StartCode & 0x02 == 0;
    forall k | 0 <= k < |ws|
      ensures Unframing(ws[k], addr, isRead)
    {
      if h <= k < h + |op| {
        assert ws[k] == op[k - h];
      } else {
        assert PhaseOneAck(ws[k], addr);
      }
    }
  }

  /** Housekeeping writes keep a clearing trace a clearing trace. */
  lemma ClearingExtends(ws: seq<IoWrite>, w: IoWrite, addr: bv16, isRead: bool)
    requires ClearingWrites(ws, addr, isRead) && PhaseOneAck(w, addr)
    ensures ClearingWrites(ws + [w], addr, isRead)
  {
    var op := Opening(addr, isRead);
    var h := if |ws| > 0 && ws[0].port == ControlPort(addr) then 1 else 0;
    assert (ws + [w])[0] == ws[0];
    assert (ws + [w])[h..h + |op|] == ws[h..h + |op|];
  }

  /** Any run of housekeeping writes keeps a clearing trace a clearing
      trace. */
  lemma ClearingExtendsAll(ws: seq<IoWrite>, acks: seq<IoWrite>, addr: bv16, isRead: bool)
    requires ClearingWrites(ws, addr, isRead)
    requires forall q :: 0 <= q < |acks| ==> PhaseOneAck(acks[q], addr)
    ensures ClearingWrites(ws + acks, addr, isRead)
    decreases |acks|
  {
    if acks != [] {
      ClearingExtends(ws, acks[0], addr, isRead);
      ClearingExtendsAll(ws + [acks[0]], acks[1..], addr, isRead);
      assert ws + [acks[0]] + acks[1..] == ws + acks;
    }
  }

  /** The clearing part of a transaction has the shape ClearingWrites
      describes: whatever the chip answers, its writes are one optional latch
      acknowledgement, the opening, then housekeeping writes. */
  lemma ClearingTraceClears(env: Env, addr: bv16, isRead: bool, wait: uint32)
    ensures ClearingWrites(ClearingTrace(env, addr, isRead, wait), addr, isRead)
  {
    var pre, op := PreAck(env, addr), Opening(addr, isRead);
    var b := env.status(0);
    assert (env.control(0) | (b & 0x80) | 0x02) & 0x02 != 0;
    assert (pre + op)[|pre|..|pre| + |op|] == op;
    assert ClearingWrites(pre + op, addr, isRead);
    PollAcksAreAcks(env, addr, 1, PhaseOneEnd(env.status, wait), |pre|);
    ClearingExtendsAll(pre + op, PollAcks(env, addr, 1, PhaseOneEnd(env.status, wait), |pre|), addr, isRead);
  }

  /** The shape of a transaction's whole trace once phase 1 has succeeded:
      clearing writes, then the frame, then only error acknowledgements of
      phase 2. */
  ghost predicate FramedTrace(ws: seq<IoWrite>, addr: bv16, isRead: bool, frame: seq<IoWrite>)
  {
    exists k :: 0 <= k <= |ws| - |frame| &&
      ClearingWrites(ws[..k], addr, isRead) && ws[k..k + |frame|] == frame &&
      forall q :: k + |frame| <= q < |ws| ==> ws[q] == Out(StatusPort(addr), ErrorBit)
  }

  /** Phase 1, shared by both transactions: acknowledge latched bits, write
      the opening, then poll for the idle sentinel. `next` is the index of the
      next status read, where phase 2 begins. */
  method ClearBus(env: Env, addr: bv16, isRead: bool, wait: uint32)
    returns (ok: bool, next: nat, trace: seq<IoWrite>)
    ensures ok <==> PhaseOne(env, wait)
    ensures ok ==> next == FirstStop(env.status, 1, Budget(wait), Idle) + 1
    ensures trace == ClearingTrace(env, addr, isRead, wait)
    ensures ClearingWrites(trace, addr, isRead)
  {
    var ct := 0;
    trace := [];
    var b := env.status(0);
    if b & LatchBits != 0 {
      trace := trace + [LatchAck(addr, env.control(ct), b)];
      ct := ct + 1;
    }
    assert trace == PreAck(env, addr) && ct == |trace|;
    trace := trace + Opening(addr, isRead);
    var stop, acks;
    ok, stop, acks := AwaitIdle(env, addr, ct, wait);
    next := stop + 1;
    trace := trace + acks;
    ClearingTraceClears(env, addr, isRead, wait);
  }

  /** The polling loop of phase 1: each status read's latch bits are
      acknowledged through the control register (control reads from index
      `ct` on) and its status bits written back, until the idle sentinel or
      the error bit is seen or the budget runs out. `stop` is the index of
      the last status read. */
  method AwaitIdle(env: Env, addr: bv16, ct: nat, wait: uint32)
    returns (ok: bool, stop: nat, acks: seq<IoWrite>)
    ensures ok <==> PhaseOne(env, wait)
    ensures stop == FirstStop(env.status, 1, Budget(wait), Idle)
    ensures acks == PollAcks(env, addr, 1, PhaseOneEnd(env.status, wait), ct)
  {
    var c := ct;
    acks := [];
    var budget := Budget(wait);
    var b: bv8 := Idle;
    var i := 0;
    ghost var end := 1;
    while i < budget
      invariant i <= budget && end == 1 + i
      invariant forall k :: 1 <= k < 1 + i ==> !Stops(env.status(k), Idle)
      invariant acks == PollAcks(env, addr, 1, end, ct)
      invariant c == ct + Latches(env.status, 1, end)
    {
      b := env.status(1 + i);
      var ws;
      PollStep(env, addr, 1, end, ct);
      ws, c := Acknowledge(env, addr, b, c);
      acks := acks + ws;
      end := 2 + i;
      if b & ErrorBit != 0 || b == Idle {
        break;
      }
      i := i + 1;
    }
    ok := !(b & ErrorBit != 0 || i >= budget);
    stop := 1 + i;
    FirstStopUnique(env.status, 1, budget, Idle, stop);
  }

  /** The acknowledgements of one phase-1 status read `b`: latch bits through
      the control register (reading control byte `c`), then status bits
      written back. `c'` is the index of the next control read. */
  method Acknowledge(env: Env, addr: bv16, b: bv8, c: nat) returns (ws: seq<IoWrite>, c': nat)
    ensures ws == ReadAcks(addr, env.control(c), b)
    ensures c' == c + if b & LatchBits != 0 then 1 else 0
  {
    ws := [];
    c' := c;
    if b & LatchBits != 0 {
      ws := ws + [LatchAck(addr, env.control(c'), b)];
      c' := c' + 1;
    }
    if b & StatusAckBits != 0 {
      ws := ws + [Out(StatusPort(addr), b & StatusAckBits)];
    }
  }

  /** Phase 2, shared by both transactions: poll for the completion sentinel,
      acknowledging the error bit whenever it is set. */
  method AwaitDone(env: Env, addr: bv16, start: nat, wait: uint32)
    returns (ok: bool, acks: seq<IoWrite>)
    ensures ok <==> Sees(env.status, start, Budget(wait), Done)
    ensures acks == DoneAcks(env.status, addr, start, wait)
  {
    acks := [];
    var budget := Budget(wait);
    var b: bv8 := Done;
    var i := 0;
    while i < budget
      invariant i <= budget
      invariant forall k :: start <= k < start + i ==> !Stops(env.status(k), Done)
      invariant acks == []
    {
      b := env.status(start + i);
      if b & ErrorBit != 0 {
        acks := acks + [Out(StatusPort(addr), ErrorBit)];
      }
      if b & ErrorBit != 0 || b == Done {
        break;
      }
      i := i + 1;
    }
    ok := !(b & ErrorBit != 0 || i >= budget);
    FirstStopUnique(env.status, start, budget, Done, start + i);
  }

  /** Clearing writes followed by a frame and phase-2 acknowledgements have
      the shape FramedTrace describes. */
  lemma FramedTraceOf(cleared: seq<IoWrite>, frame: seq<IoWrite>, acks: seq<IoWrite>, addr: bv16, isRead: bool)
    requires ClearingWrites(cleared, addr, isRead)
    requires forall q :: 0 <= q < |acks| ==> acks[q] == Out(StatusPort(addr), ErrorBit)
    ensures FramedTrace(cleared + frame + acks, addr, isRead, frame)
  {
    var ws := cleared + frame + acks;
    var k := |cleared|;
    assert ws[..k] == cleared;
    assert ws[k..k + |frame|] == frame;
    forall q | k + |frame| <= q < |ws|
      ensures ws[q] == Out(StatusPort(addr), ErrorBit)
    {
      assert ws[q] == acks[q - k - |frame|];
    }
  }

  /** smb_write_byte. */
  method SmbWriteByte(env: Env, addr: bv16, i2cAddr: bv8, cmd: bv8, data: bv8, wait: uint32)
    returns (r: Result<()>, trace: seq<IoWrite>)
    ensures r == Ok(()) || r == Err(Busy)
    ensures r.Ok? <==> PhaseOne(env, wait) && PhaseTwo(env, wait)
    ensures PhaseOne(env, wait) ==>
      trace == ClearingTrace(env, addr, false, wait) + WriteFrame(addr, i2cAddr, cmd, data) +
               DoneAcks(env.status, addr, FirstStop(env.status, 1, Budget(wait), Idle) + 1, wait)
    ensures !PhaseOne(env, wait) ==> trace == ClearingTrace(env, addr, false, wait)
    ensures PhaseOne(env, wait) ==> FramedTrace(trace, addr, false, WriteFrame(addr, i2cAddr, cmd, data))
    ensures !PhaseOne(env, wait) ==> ClearingWrites(trace, addr, false) && NoFraming(trace, addr, false)
    ensures Budget(wait) == 0 ==> r == Err(Busy) && NoFraming(trace, addr, false)
  {
    var ok, next;
    ok, next, trace := ClearBus(env, addr, false, wait);
    if !ok {
      ClearingFramesNothing(trace, addr, false);
      return Err(Busy), trace;
    }
    ghost var cleared := trace;
    trace := trace + [Out(AddressPort(addr), i2cAddr)];
    trace := trace + [Out(CommandPort(addr), cmd)];
    trace := trace + [Out(DataPort(addr), data)];
    trace := trace + [Out(ControlPort(addr), StartCode)];
    assert trace == cleared + WriteFrame(addr, i2cAddr, cmd, data);
    var acks;
    ok, acks := AwaitDone(env, addr, next, wait);
    FramedTraceOf(cleared, WriteFrame(addr, i2cAddr, cmd, data), acks, addr, false);
    trace := trace + acks;
    r := if ok then Ok(()) else Err(Busy);
  }

  /** smb_read_byte; `hasDest` is false when the caller passed a null data
      pointer. The byte read is the value, so it exists only on success. */
  method SmbReadByte(env: Env, addr: bv16, i2cAddr: bv8, cmd: bv8, hasDest: bool, wait: uint32)
    returns (r: Result<bv8>, trace: seq<IoWrite>)
    ensures !hasDest ==> r == Err(InvalidArgument) && trace == []
    ensures hasDest ==> (r.Ok? <==> PhaseOne(env, wait) && PhaseTwo(env, wait))
    ensures hasDest && r.Err? ==> r.error == Busy
    ensures r.Ok? ==> r.value == env.data(0)
    ensures hasDest && PhaseOne(env, wait) ==>
      trace == ClearingTrace(env, addr, true, wait) + ReadFrame(addr, i2cAddr, cmd) +
               DoneAcks(env.status, addr, FirstStop(env.status, 1, Budget(wait), Idle) + 1, wait)
    ensures hasDest && !PhaseOne(env, wait) ==> trace == ClearingTrace(env, addr, true, wait)
    ensures hasDest && PhaseOne(env, wait) ==> FramedTrace(trace, addr, true, ReadFrame(addr, i2cAddr, cmd))
    ensures hasDest && !PhaseOne(env, wait) ==> ClearingWrites(trace, addr, true) && NoFraming(trace, addr, true)
    ensures hasDest && Budget(wait) == 0 ==> r == Err(Busy) && NoFraming(trace, addr, true)
  {
    if !hasDest {
      return Err(InvalidArgument), [];
    }
    var ok, next;
    ok, next, trace := ClearBus(env, addr, true, wait);
    if !ok {
      ClearingFramesNothing(trace, addr, true);
      return Err(Busy), trace;
    }
    ghost var cleared := trace;
    trace := trace + [Out(AddressPort(addr), i2cAddr + 1)];
    trace := trace + [Out(CommandPort(addr), cmd)];
    trace := trace + [Out(ControlPort(addr), StartCode)];
    assert trace == cleared + ReadFrame(addr, i2cAddr, cmd);
    var acks;
    ok, acks := AwaitDone(env, addr, next, wait);
    FramedTraceOf(cleared, ReadFrame(addr, i2cAddr, cmd), acks, addr, true);
    trace := trace + acks;
    if !ok {
      return Err(Busy), trace;
    }
    r := Ok(env.data(0));
  }
}
