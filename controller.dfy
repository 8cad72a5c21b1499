/** The port controller: the public getters and setters, each a short
    sequence of register reads and writes over the bus.

    The chip is abstract: a register map, the log of bus transactions issued
    so far, and the environment's choice of which transactions time out
    (`busyAt` holds their numbers, counted from 0). A read returns the
    register; a write that succeeds stores its byte. Every port operation is
    a fixed plan of transactions that is run until the first transaction
    that fails, with nothing undone (Runs). */
module PortController {
  import opened Errors
  import opened PortRegisters

  /** One bus transaction: smb_read_byte or smb_write_byte with the fixed
      bus address, device address and timeout. */
  datatype Txn = Rd(cmd: Cmd) | Wr(cmd: Cmd, value: bv8)

  type Registers = map<Cmd, bv8>

  function Apply(regs: Registers, t: Txn): Registers
  {
    match t
    case Rd(_) => regs
    case Wr(c, v) => regs[c := v]
  }

  /** The registers after every transaction of `ts` has taken effect. */
  function ApplyAll(regs: Registers, ts: seq<Txn>): Registers
    decreases |ts|
  {
    if ts == [] then regs else ApplyAll(Apply(regs, ts[0]), ts[1..])
  }

  /** Running `plan` from log `log0` and registers `regs0` ends with `log`,
      `regs` and outcome `ok`: transactions are issued in order; the first
      one whose number is in `busyAt` fails and ends the operation; the
      effects of those before it remain. */
  ghost predicate Runs(plan: seq<Txn>, busyAt: set<nat>, log0: seq<Txn>, regs0: Registers,
                       log: seq<Txn>, regs: Registers, ok: bool)
    decreases |plan|
  {
    if plan == [] then log == log0 && regs == regs0 && ok
    else if |log0| in busyAt then log == log0 + [plan[0]] && regs == regs0 && !ok
    else Runs(plan[1..], busyAt, log0 + [plan[0]], Apply(regs0, plan[0]), log, regs, ok)
  }

  /** What Runs means, stated without recursion: a prefix of the plan is
      issued; the operation succeeds exactly when none of the plan's
      transaction numbers is busy; a failure is the first busy transaction;
      and the registers hold the effects of every transaction issued before
      it (no rollback). */
  lemma {:induction false} RunsIssuesPrefix(plan: seq<Txn>, busyAt: set<nat>, log0: seq<Txn>, regs0: Registers,
                                            log: seq<Txn>, regs: Registers, ok: bool)
    requires Runs(plan, busyAt, log0, regs0, log, regs, ok)
    ensures |log0| <= |log| <= |log0| + |plan| && log == log0 + plan[..|log| - |log0|]
    ensures ok <==> forall t :: |log0| <= t < |log0| + |plan| ==> t !in busyAt
    ensures ok ==> |log| == |log0| + |plan| && regs == ApplyAll(regs0, plan)
    ensures !ok ==> |log| > |log0| && |log| - 1 in busyAt
    ensures !ok ==> forall t :: |log0| <= t < |log| - 1 ==> t !in busyAt
    ensures !ok ==> regs == ApplyAll(regs0, plan[..|log| - |log0| - 1])
    decreases |plan|
  {
    if plan == [] {
    } else if |log0| in busyAt {
      assert plan[..1] == [plan[0]];
      assert plan[..0] == [];
    } else {
      var log1, regs1 := log0 + [plan[0]], Apply(regs0, plan[0]);
      RunsIssuesPrefix(plan[1..], busyAt, log1, regs1, log, regs, ok);
      var n := |log| - |log1|;
      assert log == log0 + plan[..n + 1] by {
        assert plan[..n + 1] == [plan[0]] + plan[1..][..n];
      }
      assert ok ==> plan[1..] == plan[1..][..|plan| - 1];
      if !ok {
        assert plan[..n] == [plan[0]] + plan[1..][..n - 1];
        assert plan[..n][0] == plan[0] && plan[..n][1..] == plan[1..][..n - 1];
      }
    }
  }

  /** Running one plan to success and then another is running the two
      concatenated. */
  lemma {:induction false} RunsThen(p: seq<Txn>, q: seq<Txn>, busyAt: set<nat>,
                                    log0: seq<Txn>, regs0: Registers, log1: seq<Txn>, regs1: Registers,
                                    log2: seq<Txn>, regs2: Registers, ok: bool)
    requires Runs(p, busyAt, log0, regs0, log1, regs1, true)
    requires Runs(q, busyAt, log1, regs1, log2, regs2, ok)
    ensures Runs(p + q, busyAt, log0, regs0, log2, regs2, ok)
    decreases |p|
  {
    if p == [] {
      assert p + q == q;
    } else {
      assert (p + q)[0] == p[0] && (p + q)[1..] == p[1..] + q;
      RunsThen(p[1..], q, busyAt, log0 + [p[0]], Apply(regs0, p[0]), log1, regs1, log2, regs2, ok);
    }
  }

  /** A plan that fails stops there: whatever would follow is never issued. */
  lemma {:induction false} RunsStops(p: seq<Txn>, q: seq<Txn>, busyAt: set<nat>,
                                     log0: seq<Txn>, regs0: Registers, log1: seq<Txn>, regs1: Registers)
    requires Runs(p, busyAt, log0, regs0, log1, regs1, false)
    ensures Runs(p + q, busyAt, log0, regs0, log1, regs1, false)
    decreases |p|
  {
    assert p != [];
    assert (p + q)[0] == p[0] && (p + q)[1..] == p[1..] + q;
    if |log0| !in busyAt {
      RunsStops(p[1..], q, busyAt, log0 + [p[0]], Apply(regs0, p[0]), log1, regs1);
    }
  }

  lemma {:induction false} ApplyAllConcat(regs: Registers, p: seq<Txn>, q: seq<Txn>)
    ensures ApplyAll(regs, p + q) == ApplyAll(ApplyAll(regs, p), q)
    decreases |p|
  {
    if p != [] {
      assert (p + q)[0] == p[0] && (p + q)[1..] == p[1..] + q;
      ApplyAllConcat(Apply(regs, p[0]), p[1..], q);
    } else {
      assert p + q == q;
    }
  }

  /** n reads of the mode register. */
  function ModeReads(n: nat): seq<Txn>
  {
    seq(n, _ => Rd(CmdMode))
  }

  lemma ModeReadsSplit(a: nat, b: nat)
    ensures ModeReads(a + b) == ModeReads(a) + ModeReads(b)
  {
  }

  lemma {:induction false} ReadsChangeNothing(regs: Registers, n: nat)
    ensures ApplyAll(regs, ModeReads(n)) == regs
  {
    if n > 0 {
      assert ModeReads(n)[1..] == ModeReads(n - 1);
      ReadsChangeNothing(regs, n - 1);
    }
  }

  lemma ApplyReadWrite(regs: Registers, c: Cmd, d: Cmd, v: bv8)
    ensures ApplyAll(regs, [Rd(c), Wr(d, v)]) == regs[d := v]
  {
    calc {
      ApplyAll(regs, [Rd(c), Wr(d, v)]);
      { assert [Rd(c), Wr(d, v)][1..] == [Wr(d, v)]; }
      ApplyAll(regs, [Wr(d, v)]);
      { assert [Wr(d, v)][1..] == []; }
      ApplyAll(regs[d := v], []);
    }
  }

  /** A single write stores its byte exactly when it succeeds. */
  lemma WriteOnce(c: Cmd, v: bv8, busyAt: set<nat>, log0: seq<Txn>, regs0: Registers,
                  log: seq<Txn>, regs: Registers, ok: bool)
    requires Runs([Wr(c, v)], busyAt, log0, regs0, log, regs, ok)
    ensures ok <==> |log0| !in busyAt
    ensures regs == if ok then regs0[c := v] else regs0
    ensures log == log0 + [Wr(c, v)]
  {
    assert [Wr(c, v)][1..] == [];
  }

  /** A read-then-write plan (every setter but setPortMode) takes effect
      entirely or not at all: it succeeds exactly when neither of its two
      transactions is busy, a failed read issues nothing further, and the
      registers change only by the written byte and only on success. */
  lemma ReadWriteAllOrNothing(c: Cmd, d: Cmd, v: bv8, busyAt: set<nat>, log0: seq<Txn>, regs0: Registers,
                              log: seq<Txn>, regs: Registers, ok: bool)
    requires Runs([Rd(c), Wr(d, v)], busyAt, log0, regs0, log, regs, ok)
    ensures ok <==> |log0| !in busyAt && |log0| + 1 !in busyAt
    ensures regs == if ok then regs0[d := v] else regs0
    ensures log == log0 + if |log0| in busyAt then [Rd(c)] else [Rd(c), Wr(d, v)]
  {
    if |log0| !in busyAt {
      var log1 := log0 + [Rd(c)];
      assert [Rd(c), Wr(d, v)][1..] == [Wr(d, v)];
      assert Runs([Wr(d, v)], busyAt, log1, regs0, log, regs, ok);
      assert log1 + [Wr(d, v)] == log0 + [Rd(c), Wr(d, v)];
      if |log1| !in busyAt {
        assert [Wr(d, v)][1..] == [];
        assert Runs([], busyAt, log1 + [Wr(d, v)], regs0[d := v], log, regs, ok);
      }
    }
  }

  /** The plans of the port operations: the transactions each issues when
      none fails, given the register bytes it reads. */
  function StatePlan(port: bv8, state: int): seq<Txn>
    requires port < 4
  {
    [Rd(CmdStateRead), Wr(CmdStateWrite, StateCommand(port, state))]
  }

  function DetectionPlan(enable: bv8, port: bv8, on: bool): seq<Txn>
    requires port < 4
  {
    [Rd(CmdEnable), Wr(CmdEnable, WithDetection(enable, port, on))]
  }

  function ClassificationPlan(enable: bv8, port: bv8, on: bool): seq<Txn>
    requires port < 4
  {
    [Rd(CmdEnable), Wr(CmdEnable, WithClassification(enable, port, on))]
  }

  function SensingPlan(sensing: bv8, port: bv8, on: bool): seq<Txn>
    requires port < 4
  {
    [Rd(CmdSensing), Wr(CmdSensing, WithSensing(sensing, port, on))]
  }

  /** The mode byte write, preceded by one read of the mode register for
      each of the other three ports. */
  function ModeWritePlan(modes: bv8, port: bv8, mode: int): seq<Txn>
    requires port < 4 && 0 <= mode < 4
  {
    ModeReads(3) + [Wr(CmdMode, WithMode(modes, port, mode as bv8))]
  }

  /** setPortMode: the mode byte, then the port's functions. */
  function ModePlan(modes: bv8, sensing: bv8, enable: bv8, port: bv8, mode: int): seq<Txn>
    requires port < 4 && 0 <= mode < 4
  {
    ModeWritePlan(modes, port, mode) + FunctionsPlan(enable, sensing, port, mode == PoeAuto)
  }

  /** Detection, then classification (which reads back the enable byte
      detection wrote), then sensing. */
  function FunctionsPlan(enable: bv8, sensing: bv8, port: bv8, on: bool): seq<Txn>
    requires port < 4
  {
    DetectionPlan(enable, port, on) + ClassificationPlan(WithDetection(enable, port, on), port, on)
      + SensingPlan(sensing, port, on)
  }

  /** The mode part of setPortMode's plan stores only the rebuilt mode byte. */
  lemma ModeWriteApplies(regs0: Registers, modes: bv8, port: bv8, mode: int)
    requires port < 4 && 0 <= mode < 4
    ensures ApplyAll(regs0, ModeWritePlan(modes, port, mode)) == regs0[CmdMode := WithMode(modes, port, mode as bv8)]
  {
    var w := [Wr(CmdMode, WithMode(modes, port, mode as bv8))];
    ApplyAllConcat(regs0, ModeReads(3), w);
    ReadsChangeNothing(regs0, 3);
    assert w[1..] == [];
  }

  /** The function part of setPortMode's plan stores detection's enable
      byte, then classification's, then the sensing byte. */
  lemma FunctionsApply(regs: Registers, enable: bv8, sensing: bv8, port: bv8, on: bool)
    requires port < 4
    ensures var d := WithDetection(enable, port, on);
      ApplyAll(regs, FunctionsPlan(enable, sensing, port, on))
        == regs[CmdEnable := d][CmdEnable := WithClassification(d, port, on)]
               [CmdSensing := WithSensing(sensing, port, on)]
  {
    var d := WithDetection(enable, port, on);
    var dp := DetectionPlan(enable, port, on);
    var cp := ClassificationPlan(d, port, on);
    var sp := SensingPlan(sensing, port, on);
    var r2: Registers := regs[CmdEnable := d];
    var r3: Registers := r2[CmdEnable := WithClassification(d, port, on)];
    ApplyAllConcat(regs, dp + cp, sp);
    ApplyAllConcat(regs, dp, cp);
    ApplyReadWrite(regs, CmdEnable, CmdEnable, d);
    ApplyReadWrite(r2, CmdEnable, CmdEnable, WithClassification(d, port, on));
    ApplyReadWrite(r3, CmdSensing, CmdSensing, WithSensing(sensing, port, on));
  }

  /** The registers after setPortMode's whole plan: the rebuilt mode byte,
      the enable byte with detection and then classification applied, and
      the sensing byte. */
  lemma ModePlanApplies(regs0: Registers, port: bv8, mode: int)
    requires CmdMode in regs0 && CmdSensing in regs0 && CmdEnable in regs0
    requires port < 4 && (mode == PoeAuto || mode == PoeManual)
    ensures var on := mode == PoeAuto;
      ApplyAll(regs0, ModePlan(regs0[CmdMode], regs0[CmdSensing], regs0[CmdEnable], port, mode))
        == regs0[CmdMode := WithMode(regs0[CmdMode], port, mode as bv8)]
                [CmdEnable := WithClassification(WithDetection(regs0[CmdEnable], port, on), port, on)]
                [CmdSensing := WithSensing(regs0[CmdSensing], port, on)]
  {
    var on := mode == PoeAuto;
    var a := ModeWritePlan(regs0[CmdMode], port, mode);
    var fp := FunctionsPlan(regs0[CmdEnable], regs0[CmdSensing], port, on);
    var r1: Registers := regs0[CmdMode := WithMode(regs0[CmdMode], port, mode as bv8)];
    ApplyAllConcat(regs0, a, fp);
    ModeWriteApplies(regs0, regs0[CmdMode], port, mode);
    FunctionsApply(r1, regs0[CmdEnable], regs0[CmdSensing], port, on);
    var d := WithDetection(regs0[CmdEnable], port, on);
    assert r1[CmdEnable := d][CmdEnable := WithClassification(d, port, on)]
      == r1[CmdEnable := WithClassification(d, port, on)];
  }

  /** When setPortMode's plan runs without a failure, port `port` has mode
      `mode` (getPortMode reads it back), the other three ports keep their
      modes, detection, classification and sensing of `port` are on exactly
      in auto mode, every other bit of the enable register and the other low
      bits of the sensing register are kept, the upper nibble of the sensing
      register is cleared, and no other register changes. */
  lemma ModeChangeEffect(regs0: Registers, port: bv8, mode: int)
    requires forall c: Cmd :: c in regs0
    requires port < 4 && (mode == PoeAuto || mode == PoeManual)
    ensures var regs := ApplyAll(regs0, ModePlan(regs0[CmdMode], regs0[CmdSensing], regs0[CmdEnable], port, mode));
      && (forall c: Cmd :: c in regs)
      && ModeBits(regs[CmdMode], port) as int == mode
      && (forall q: bv8 :: q < 4 && q != port ==> ModeBits(regs[CmdMode], q) == ModeBits(regs0[CmdMode], q))
      && (regs[CmdEnable] & Bit(port) != 0 <==> mode == PoeAuto)
      && (regs[CmdEnable] & Bit(port + 4) != 0 <==> mode == PoeAuto)
      && regs[CmdEnable] & !(Bit(port) | Bit(port + 4)) == regs0[CmdEnable] & !(Bit(port) | Bit(port + 4))
      && (regs[CmdSensing] & Bit(port) != 0 <==> mode == PoeAuto)
      && regs[CmdSensing] & (0x0F ^ Bit(port)) == regs0[CmdSensing] & (0x0F ^ Bit(port))
      && regs[CmdSensing] & 0xF0 == 0
      && (forall c: Cmd :: c != CmdMode && c != CmdEnable && c != CmdSensing ==> regs[c] == regs0[c])
  {
    var on := mode == PoeAuto;
    ModePlanApplies(regs0, port, mode);
    var m := WithMode(regs0[CmdMode], port, mode as bv8);
    var d := WithDetection(regs0[CmdEnable], port, on);
    var e := WithClassification(d, port, on);
    var s := WithSensing(regs0[CmdSensing], port, on);
    var regs := ApplyAll(regs0, ModePlan(regs0[CmdMode], regs0[CmdSensing], regs0[CmdEnable], port, mode));
    var r1 := regs0[CmdMode := m];
    var r3 := r1[CmdEnable := e];
    assert regs == r3[CmdSensing := s];
    assert CmdMode != CmdEnable && CmdMode != CmdSensing && CmdEnable != CmdSensing;
    assert r1[CmdMode] == m;
    assert r3[CmdMode] == m && r3[CmdEnable] == e;
    assert regs[CmdMode] == m && regs[CmdEnable] == e && regs[CmdSensing] == s;
    assert forall c: Cmd :: c != CmdMode && c != CmdEnable && c != CmdSensing ==> regs[c] == regs0[c];
    assert ModeBits(m, port) == mode as bv8;
    assert (mode as bv8) as int == mode by {
      if mode == PoeAuto {
        assert (3 as bv8) as int == 3;
      } else {
        assert (1 as bv8) as int == 1;
      }
    }
    assert e & Bit(port) == d & Bit(port) by {
      assert Bit(port) & !Bit(port + 4) == Bit(port);
    }
    assert e & !(Bit(port) | Bit(port + 4)) == regs0[CmdEnable] & !(Bit(port) | Bit(port + 4)) by {
      assert !(Bit(port) | Bit(port + 4)) == !Bit(port) & !Bit(port + 4);
    }
  }

  /** The controller chip as the bus sees it. */
  class Chip {
    var regs: Registers
    var log: seq<Txn>
    const busyAt: set<nat>

    ghost predicate Valid()
      reads this
    {
      forall c: Cmd :: c in regs
    }

    constructor (regs0: Registers, busyAt0: set<nat>)
      requires forall c: Cmd :: c in regs0
      ensures Valid() && regs == regs0 && log == [] && busyAt == busyAt0
    {
      regs, log, busyAt := regs0, [], busyAt0;
    }

    /** smb_read_byte(BUS_ADDR, DEV_ADDR, cmd, &byte, 30). */
    method Read(cmd: Cmd) returns (r: Result<bv8>)
      requires Valid()
      modifies this`log
      ensures Runs([Rd(cmd)], busyAt, old(log), regs, log, regs, r.Ok?)
      ensures r.Ok? ==> r.value == regs[cmd]
      ensures r.Err? ==> r.error == Busy
    {
      r := if |log| in busyAt then Err(Busy) else Ok(regs[cmd]);
      log := log + [Rd(cmd)];
    }

    /** smb_write_byte(BUS_ADDR, DEV_ADDR, cmd, value, 30). */
    method Write(cmd: Cmd, value: bv8) returns (r: Result<()>)
      requires Valid()
      modifies this`log, this`regs
      ensures Valid()
      ensures Runs([Wr(cmd, value)], busyAt, old(log), old(regs), log, regs, r.Ok?)
      ensures r.Err? ==> r.error == Busy
    {
      if |log| in busyAt {
        r := Err(Busy);
      } else {
        r := Ok(());
        regs := regs[cmd := value];
      }
      log := log + [Wr(cmd, value)];
    }
  }

  /** Runs a two-transaction read-then-write plan: the shared body of the
      setters. */
  lemma ReadThenWrite(busyAt: set<nat>, c: Cmd, d: Cmd, v: bv8, log0: seq<Txn>, regs0: Registers,
                      log1: seq<Txn>, log2: seq<Txn>, regs2: Registers, ok: bool)
    requires Runs([Rd(c)], busyAt, log0, regs0, log1, regs0, true)
    requires Runs([Wr(d, v)], busyAt, log1, regs0, log2, regs2, ok)
    ensures Runs([Rd(c), Wr(d, v)], busyAt, log0, regs0, log2, regs2, ok)
  {
    RunsThen([Rd(c)], [Wr(d, v)], busyAt, log0, regs0, log1, regs0, log2, regs2, ok);
    assert [Rd(c)] + [Wr(d, v)] == [Rd(c), Wr(d, v)];
  }

  lemma ReadFails(busyAt: set<nat>, c: Cmd, w: Txn, log0: seq<Txn>, regs0: Registers, log1: seq<Txn>)
    requires Runs([Rd(c)], busyAt, log0, regs0, log1, regs0, false)
    ensures Runs([Rd(c), w], busyAt, log0, regs0, log1, regs0, false)
  {
    RunsStops([Rd(c)], [w], busyAt, log0, regs0, log1, regs0);
    assert [Rd(c)] + [w] == [Rd(c), w];
  }

  /** getDeviceId: the identification byte. */
  method GetDeviceId(chip: Chip) returns (r: Result<nat>)
    requires chip.Valid()
    modifies chip`log
    ensures Runs([Rd(CmdDeviceId)], chip.busyAt, old(chip.log), chip.regs, chip.log, chip.regs, r.Ok?)
    ensures r.Ok? ==> r.value == chip.regs[CmdDeviceId] as int && r.value < 256
    ensures r.Err? ==> r.error == Busy
    ensures ReturnCode(r) == if r.Ok? then chip.regs[CmdDeviceId] as int else -EBUSY
  {
    var rd := chip.Read(CmdDeviceId);
    if rd.Err? {
      return Err(rd.error);
    }
    r := Ok(rd.value as nat);
  }

  /** getPortState: bit `port` of the state register, as 0 or 1. */
  method GetPortState(chip: Chip, port: bv8) returns (r: Result<nat>)
    requires chip.Valid() && port < 4
    modifies chip`log
    ensures Runs([Rd(CmdStateRead)], chip.busyAt, old(chip.log), chip.regs, chip.log, chip.regs, r.Ok?)
    ensures r.Ok? ==> (r.value == 0 || r.value == 1) && (r.value == 1 <==> chip.regs[CmdStateRead] & Bit(port) != 0)
    ensures r.Err? ==> r.error == Busy
    ensures ReturnCode(r) == if r.Err? then -EBUSY else if chip.regs[CmdStateRead] & Bit(port) != 0 then 1 else 0
  {
    var rd := chip.Read(CmdStateRead);
    if rd.Err? {
      return Err(rd.error);
    }
    r := Ok(StateOf(rd.value, port));
  }

  /** setPortState: reads the state register (the value is not used), then
      writes the packed state command to register 0x19. */
  method SetPortState(chip: Chip, port: bv8, state: int) returns (r: Result<()>)
    requires chip.Valid() && port < 4
    modifies chip
    ensures chip.Valid()
    ensures Runs(StatePlan(port, state), chip.busyAt, old(chip.log), old(chip.regs), chip.log, chip.regs, r.Ok?)
    ensures r.Err? ==> r.error == Busy
  {
    ghost var log0, regs0 := chip.log, chip.regs;
    var current := chip.Read(CmdStateRead);
    if current.Err? {
      ReadFails(chip.busyAt, CmdStateRead, Wr(CmdStateWrite, StateCommand(port, state)), log0, regs0, chip.log);
      return Err(current.error);
    }
    ghost var log1 := chip.log;
    var data := StateCommand(port, state);
    r := chip.Write(CmdStateWrite, data);
    ReadThenWrite(chip.busyAt, CmdStateRead, CmdStateWrite, data, log0, regs0, log1, chip.log, chip.regs, r.Ok?);
  }

  /** getPortMode: the 2-bit mode field of `port`. */
  method GetPortMode(chip: Chip, port: bv8) returns (r: Result<nat>)
    requires chip.Valid() && port < 4
    modifies chip`log
    ensures Runs([Rd(CmdMode)], chip.busyAt, old(chip.log), chip.regs, chip.log, chip.regs, r.Ok?)
    ensures r.Ok? ==> r.value < 4 && r.value as bv8 == ModeBits(chip.regs[CmdMode], port)
    ensures r.Err? ==> r.error == Busy
    ensures ReturnCode(r) == if r.Ok? then ModeBits(chip.regs[CmdMode], port) as int else -EBUSY
  {
    var modes := chip.Read(CmdMode);
    if modes.Err? {
      return Err(modes.error);
    }
    r := Ok(ModeBits(modes.value, port) as nat);
  }

  /** setPortDetection: bit `port` of the enable register set to `detect`. */
  method SetPortDetection(chip: Chip, port: bv8, detect: bool) returns (r: Result<()>)
    requires chip.Valid() && port < 4
    modifies chip
    ensures chip.Valid()
    ensures Runs(DetectionPlan(old(chip.regs)[CmdEnable], port, detect), chip.busyAt,
                 old(chip.log), old(chip.regs), chip.log, chip.regs, r.Ok?)
    ensures r.Err? ==> r.error == Busy
  {
    ghost var log0, regs0 := chip.log, chip.regs;
    var detection := chip.Read(CmdEnable);
    if detection.Err? {
      ReadFails(chip.busyAt, CmdEnable, DetectionPlan(regs0[CmdEnable], port, detect)[1], log0, regs0, chip.log);
      return Err(detection.error);
    }
    ghost var log1 := chip.log;
    var data := WithDetection(detection.value, port, detect);
    r := chip.Write(CmdEnable, data);
    ReadThenWrite(chip.busyAt, CmdEnable, CmdEnable, data, log0, regs0, log1, chip.log, chip.regs, r.Ok?);
  }

  /** setPortClassification: bit `port + 4` of the enable register set to
      `classify`. */
  method SetPortClassification(chip: Chip, port: bv8, classify: bool) returns (r: Result<()>)
    requires chip.Valid() && port < 4
    modifies chip
    ensures chip.Valid()
    ensures Runs(ClassificationPlan(old(chip.regs)[CmdEnable], port, classify), chip.busyAt,
                 old(chip.log), old(chip.regs), chip.log, chip.regs, r.Ok?)
    ensures r.Err? ==> r.error == Busy
  {
    ghost var log0, regs0 := chip.log, chip.regs;
    var classification := chip.Read(CmdEnable);
    if classification.Err? {
      ReadFails(chip.busyAt, CmdEnable, ClassificationPlan(regs0[CmdEnable], port, classify)[1], log0, regs0, chip.log);
      return Err(classification.error);
    }
    ghost var log1 := chip.log;
    var data := WithClassification(classification.value, port, classify);
    r := chip.Write(CmdEnable, data);
    ReadThenWrite(chip.busyAt, CmdEnable, CmdEnable, data, log0, regs0, log1, chip.log, chip.regs, r.Ok?);
  }

  /** setPortSensing: the sensing register with its upper nibble cleared and
      bit `port` set to `sense`. */
  method SetPortSensing(chip: Chip, port: bv8, sense: bool) returns (r: Result<()>)
    requires chip.Valid() && port < 4
    modifies chip
    ensures chip.Valid()
    ensures Runs(SensingPlan(old(chip.regs)[CmdSensing], port, sense), chip.busyAt,
                 old(chip.log), old(chip.regs), chip.log, chip.regs, r.Ok?)
    ensures r.Err? ==> r.error == Busy
  {
    ghost var log0, regs0 := chip.log, chip.regs;
    var sensing := chip.Read(CmdSensing);
    if sensing.Err? {
      ReadFails(chip.busyAt, CmdSensing, SensingPlan(regs0[CmdSensing], port, sense)[1], log0, regs0, chip.log);
      return Err(sensing.error);
    }
    ghost var log1 := chip.log;
    var data := WithSensing(sensing.value, port, sense);
    r := chip.Write(CmdSensing, data);
    ReadThenWrite(chip.busyAt, CmdSensing, CmdSensing, data, log0, regs0, log1, chip.log, chip.regs, r.Ok?);
  }

  /** One more mode read extends a successful run of mode reads; if it
      fails, so do all three. */
  lemma ModeReadStep(n: nat, busyAt: set<nat>, log0: seq<Txn>, regs: Registers,
                     log1: seq<Txn>, log2: seq<Txn>, ok: bool)
    requires n < 3
    requires Runs(ModeReads(n), busyAt, log0, regs, log1, regs, true)
    requires Runs([Rd(CmdMode)], busyAt, log1, regs, log2, regs, ok)
    ensures Runs(ModeReads(n + 1), busyAt, log0, regs, log2, regs, ok)
    ensures !ok ==> Runs(ModeReads(3), busyAt, log0, regs, log2, regs, false)
  {
    RunsThen(ModeReads(n), [Rd(CmdMode)], busyAt, log0, regs, log1, regs, log2, regs, ok);
    assert ModeReads(n) + [Rd(CmdMode)] == ModeReads(n + 1);
    if !ok {
      ModeReadsSplit(n + 1, 2 - n);
      RunsStops(ModeReads(n + 1), ModeReads(2 - n), busyAt, log0, regs, log2, regs);
    }
  }

  /** setPortMode's loop: the mode byte with `mode` in the field of `port`
      and, in the other three fields, the modes getPortMode reads back, one
      read each, stopping at the first that fails. */
  method CollectModes(chip: Chip, port: bv8, mode: int) returns (r: Result<bv8>)
    requires chip.Valid() && port < 4 && (mode == PoeAuto || mode == PoeManual)
    modifies chip`log
    ensures Runs(ModeReads(3), chip.busyAt, old(chip.log), chip.regs, chip.log, chip.regs, r.Ok?)
    ensures r.Ok? ==> r.value == WithMode(chip.regs[CmdMode], port, mode as bv8)
    ensures r.Err? ==> r.error == Busy
  {
    ghost var log0 := chip.log;
    ghost var target := WithMode(chip.regs[CmdMode], port, mode as bv8);
    var modes: bv8 := 0;
    var i: bv8 := 0;
    while i < 4
      invariant i <= 4
      invariant Runs(ModeReads(if i <= port then i as nat else i as nat - 1), chip.busyAt, log0, chip.regs, chip.log, chip.regs, true)
      invariant modes == LowFields(target, i)
    {
      if i == port {
        assert ModeBits(target, i) == mode as bv8;
        AddField(target, modes, i, mode as bv8);
        modes := modes | ((mode as bv8) << (i * 2));
      } else {
        ghost var n: nat := if i <= port then i as nat else i as nat - 1;
        ghost var log1 := chip.log;
        var m := GetPortMode(chip, i);
        ModeReadStep(n, chip.busyAt, log0, chip.regs, log1, chip.log, m.Ok?);
        if m.Err? {
          return Err(m.error);
        }
        var field := m.value as bv8;
        assert ModeBits(target, i) == field;
        AddField(target, modes, i, field);
        modes := modes | (field << (i * 2));
      }
      i := i + 1;
    }
    r := Ok(modes);
  }

  /** setPortMode: rejects a mode other than auto or manual before any bus
      traffic; otherwise rebuilds the mode byte from the other ports' modes,
      writes it, then sets detection, classification and sensing to
      (mode == auto), stopping at the first failure without undoing
      anything. */
  method SetPortMode(chip: Chip, port: bv8, mode: int) returns (r: Result<()>)
    requires chip.Valid() && port < 4
    modifies chip
    ensures chip.Valid()
    ensures mode != PoeAuto && mode != PoeManual ==>
      r == Err(InvalidArgument) && chip.log == old(chip.log) && chip.regs == old(chip.regs)
    ensures mode == PoeAuto || mode == PoeManual ==>
      Runs(ModePlan(old(chip.regs)[CmdMode], old(chip.regs)[CmdSensing], old(chip.regs)[CmdEnable], port, mode),
           chip.busyAt, old(chip.log), old(chip.regs), chip.log, chip.regs, r.Ok?)
    ensures mode == PoeAuto || mode == PoeManual ==> (r.Err? ==> r.error == Busy)
  {
    var state: bool;
    if mode == PoeAuto {
      state := true;
    } else if mode == PoeManual {
      state := false;
    } else {
      return Err(InvalidArgument);
    }
    ghost var log0, regs0 := chip.log, chip.regs;
    ghost var first := ModeWritePlan(regs0[CmdMode], port, mode);
    ghost var functions := FunctionsPlan(regs0[CmdEnable], regs0[CmdSensing], port, state);
    assert ModePlan(regs0[CmdMode], regs0[CmdSensing], regs0[CmdEnable], port, mode) == first + functions;

    r := WriteModes(chip, port, mode);
    if r.Err? {
      RunsStops(first, functions, chip.busyAt, log0, regs0, chip.log, chip.regs);
      return;
    }

    ghost var log1, regs1 := chip.log, chip.regs;
    assert regs1[CmdEnable] == regs0[CmdEnable] && regs1[CmdSensing] == regs0[CmdSensing];
    r := SetPortFunctions(chip, port, state);
    RunsThen(first, functions, chip.busyAt, log0, regs0, log1, regs1, chip.log, chip.regs, r.Ok?);
  }

  /** The first part of setPortMode: the mode byte rebuilt from the other
      ports' modes and written back, stopping at the first failure. On
      success only the mode register has changed. */
  method WriteModes(chip: Chip, port: bv8, mode: int) returns (r: Result<()>)
    requires chip.Valid() && port < 4 && (mode == PoeAuto || mode == PoeManual)
    modifies chip
    ensures chip.Valid()
    ensures Runs(ModeWritePlan(old(chip.regs)[CmdMode], port, mode), chip.busyAt,
                 old(chip.log), old(chip.regs), chip.log, chip.regs, r.Ok?)
    ensures r.Ok? ==> chip.regs == old(chip.regs)[CmdMode := WithMode(old(chip.regs)[CmdMode], port, mode as bv8)]
    ensures r.Err? ==> r.error == Busy
  {
    ghost var log0, regs0 := chip.log, chip.regs;
    ghost var modeWrite := [Wr(CmdMode, WithMode(regs0[CmdMode], port, mode as bv8))];
    var modes := CollectModes(chip, port, mode);
    if modes.Err? {
      RunsStops(ModeReads(3), modeWrite, chip.busyAt, log0, regs0, chip.log, regs0);
      return Err(modes.error);
    }
    ghost var log1 := chip.log;
    assert modeWrite == [Wr(CmdMode, modes.value)];
    r := chip.Write(CmdMode, modes.value);
    RunsThen(ModeReads(3), modeWrite, chip.busyAt, log0, regs0, log1, regs0, chip.log, chip.regs, r.Ok?);
    WriteOnce(CmdMode, modes.value, chip.busyAt, log1, regs0, chip.log, chip.regs, r.Ok?);
  }

  /** The last part of setPortMode: detection, classification and sensing
      of `port` set to `on`, in that order, stopping at the first failure. */
  method SetPortFunctions(chip: Chip, port: bv8, on: bool) returns (r: Result<()>)
    requires chip.Valid() && port < 4
    modifies chip
    ensures chip.Valid()
    ensures Runs(FunctionsPlan(old(chip.regs)[CmdEnable], old(chip.regs)[CmdSensing], port, on), chip.busyAt,
                 old(chip.log), old(chip.regs), chip.log, chip.regs, r.Ok?)
    ensures r.Err? ==> r.error == Busy
  {
    ghost var log0, regs0 := chip.log, chip.regs;
    ghost var d := WithDetection(regs0[CmdEnable], port, on);
    ghost var dp := DetectionPlan(regs0[CmdEnable], port, on);
    ghost var cp := ClassificationPlan(d, port, on);
    ghost var sp := SensingPlan(regs0[CmdSensing], port, on);
    assert FunctionsPlan(regs0[CmdEnable], regs0[CmdSensing], port, on) == dp + cp + sp;
    r := SetPortDetection(chip, port, on);
    if r.Err? {
      RunsStops(dp, cp, chip.busyAt, log0, regs0, chip.log, chip.regs);
      RunsStops(dp + cp, sp, chip.busyAt, log0, regs0, chip.log, chip.regs);
      return;
    }

    ghost var log1, regs1 := chip.log, chip.regs;
    RunsIssuesPrefix(dp, chip.busyAt, log0, regs0, log1, regs1, true);
    ApplyReadWrite(regs0, CmdEnable, CmdEnable, d);
    assert regs1 == regs0[CmdEnable := d];
    r := SetPortClassification(chip, port, on);
    RunsThen(dp, cp, chip.busyAt, log0, regs0, log1, regs1, chip.log, chip.regs, r.Ok?);
    if r.Err? {
      RunsStops(dp + cp, sp, chip.busyAt, log0, regs0, chip.log, chip.regs);
      return;
    }

    ghost var log2, regs2 := chip.log, chip.regs;
    RunsIssuesPrefix(cp, chip.busyAt, log1, regs1, log2, regs2, true);
    ApplyReadWrite(regs1, CmdEnable, CmdEnable, WithClassification(d, port, on));
    assert regs2 == regs1[CmdEnable := WithClassification(d, port, on)];
    assert regs2[CmdSensing] == regs0[CmdSensing];
    r := SetPortSensing(chip, port, on);
    RunsThen(dp + cp, sp, chip.busyAt, log0, regs0, log2, regs2, chip.log, chip.regs, r.Ok?);
  }
}
