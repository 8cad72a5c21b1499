# PoE controller driver: bus engine and port operations

A Dafny model of the two layers of the PoE controller driver in `poe.c`
(with the mode constants of `poe.h`).

- **Bus transaction engine** (`bus.dfy`, module `Bus`). `smb_write_byte` and
  `smb_read_byte` each run one SMBus byte transaction against the I/O window
  at `addr`. A transaction has three parts:
  - Phase 1 acknowledges latched bits, writes the opening bytes, then polls
    the status register for the idle sentinel 0x40. It aborts on error bit
    0x04.
  - The transaction is then framed: address, command, data (writes only),
    and the start code 0x48.
  - Phase 2 polls for the completion sentinel 0x42, acknowledging the error
    bit whenever it is set.

  Each phase has a budget of `wait * 100` iterations, computed in 32-bit
  unsigned arithmetic.

  `inb` is environment input: `Env` gives, for each of the status, control
  and data registers, the byte returned by its k-th read. `outb` appends an
  `IoWrite` to the trace the method returns. The phases are specified in
  two ways:
  - by the index `FirstStop` at which a polling loop stops, which the loop
    methods are proved against;
  - declaratively by `Reaches`: the sentinel is read within the budget
    before any error. Lemmas prove the two readings equivalent.

  The trace is specified write for write: `ClearingTrace` lists the writes of
  phase 1 as a function of the status and control bytes read, and `DoneAcks`
  those of phase 2. The shapes `ClearingWrites` and `FramedTrace` are proved
  of these traces.
- **Port register model** (`registers.dfy`, module `PortRegisters`). This is
  the byte arithmetic on the packed controller registers:
  - 0x10 holds the port states (one bit per port);
  - 0x19 is the state command;
  - 0x12 holds the modes (two bits per port; auto = 0b11, manual = 0b01);
  - 0x13 holds sensing;
  - 0x14 holds detection (low nibble) and classification (high nibble).

  Ports are unsigned bytes below 4.
- **Port controller** (`controller.dfy`, module `PortController`). This covers
  `getDeviceId`, `getPortState`, `setPortState`, `getPortMode`, `setPortMode`,
  `setPortSensing`, `setPortDetection` and `setPortClassification`. They run
  over an abstract chip (class `Chip`) with three parts:
  - a map from command code to register byte;
  - the log of bus transactions issued so far;
  - the set `busyAt` of transaction numbers that fail with -EBUSY.

  Each operation is proved to run a fixed plan of transactions (`Runs`):
  - the transactions are issued in order;
  - the first failing one ends the operation with its error;
  - nothing already written is undone.

  An unsupported mode is rejected with -EINVAL before any bus traffic.
- **Errors** (`errors.dfy`, module `Errors`). Failure is a `Result`.
  `ReturnCode` maps a result back to the C convention: a non-negative value,
  or a negative errno.

## Model

| member | source | states |
|---|---|---|
| Errors.Errno | poe.c:20-21 | an error code is negative, and it is -EBUSY exactly for a busy bus |
| Errors.ReturnCode | poe.c:108-115 | the return value is negative exactly for an error, and on success it is the value |
| Errors.ReturnCodeRoundTrip | poe.c:108-115 | the result can be recovered from the C return value |
| Bus.Budget | poe.c:15 | the iteration bound is `wait * 100` mod 2^32: exactly `wait * 100` when that fits, and 0 for wait 0 |
| Bus.FirstStop | poe.c:15-19 | the index where a polling loop stops lies within its budget; the read there is the error bit or the sentinel, unless the budget ran out; no earlier read is |
| Bus.FirstStopUnique | poe.c:15-19 | an index with those three properties is FirstStop |
| Bus.ReachesIffSees | poe.c:18-21 | a loop that stops at FirstStop succeeds exactly when the sentinel is read within the budget before any error |
| Bus.ReachesSees | poe.c:18-21 | reaching the sentinel in time implies the loop ends on it |
| Bus.SeesReaches | poe.c:18-21 | a loop that ends on the sentinel has reached it with no error before |
| Bus.PhaseOneReaches | poe.c:15-21 | phase 1 succeeds exactly when idle 0x40 is read within the budget before any read with bit 0x04 |
| Bus.PhaseTwoReaches | poe.c:26-31 | phase 2 succeeds exactly when done 0x42 is read within the budget before any error, counting from the read after phase 1's last |
| Bus.NoBudgetNoPhase | poe.c:15-21 | with a zero budget neither phase can succeed |
| Bus.ClearingFramesNothing | poe.c:13-21 | phase-1 writes never touch the address or command register, never write the start code, and write the data register only with the read's pre-clearing 0 |
| Bus.PollAcksAreAcks | poe.c:16-17 | every write of a phase-1 poll is a latch acknowledgement with bit 1 set or a status write-back of acknowledged bits only |
| Bus.ClearingTraceClears | poe.c:13-21 | the writes of phase 1 are one optional latch acknowledgement, the opening, then housekeeping writes only |
| Bus.ClearBus | poe.c:13-21 | phase 1 succeeds exactly when PhaseOne holds; phase 2 then starts at the read after the one it stopped at. Its trace is exactly ClearingTrace: the latch acknowledgement of the first status read when it has bit 0x10 or 0x80 (the control byte OR bit 7 of the status byte OR 0x02), the opening, then the writes of every poll up to the one the loop stopped at |
| Bus.AwaitIdle | poe.c:15-21 | the polling loop of phase 1 stops at FirstStop and succeeds exactly when PhaseOne holds. Its writes are exactly those of each status read up to and including the stopping one, with the control reads taken in order from index `ct` |
| Bus.Acknowledge | poe.c:16-17 | one poll writes the latch acknowledgement when the status byte has a latch bit (consuming one control read), then the write-back `b & 0x94` when that is non-zero |
| Bus.AwaitDone | poe.c:26-31 | phase 2 succeeds exactly when done is read within the budget before an error. It writes one 0x04 to the status register when it stopped on the error bit, and nothing otherwise |
| Bus.FramedTraceOf | poe.c:22-29 | phase-1 writes, then a frame, then phase-2 acknowledgements form a framed trace |
| Bus.SmbWriteByte | poe.c:8-33 | the result is 0 exactly when both phases succeed, and -EBUSY otherwise. The trace is exactly ClearingTrace; after phase 1 succeeds it continues with address, command, data and start code, then DoneAcks. So the trace is phase-1 writes, then address, command, data and start code in that order, then phase-2 acknowledgements. After phase 1 fails, nothing is framed. With wait 0 the result is -EBUSY before any framing |
| Bus.SmbReadByte | poe.c:35-63 | a null destination gives -EINVAL with no I/O. Otherwise the result is a byte exactly when both phases succeed, and that byte is the one read from the data register; failure is -EBUSY. The trace is exactly ClearingTrace, then (after phase 1 succeeds) address + 1, command and start code, with no data byte, then DoneAcks. The data register is pre-cleared to 0. A failed phase 1 frames nothing |
| PortRegisters.StateOf | poe.c:123 | getPortState's value is 0 or 1, and it is 1 exactly when bit `port` of the state register is set |
| PortRegisters.ModeBits | poe.c:149-151 | the mode field is below 4; its bits are bits 2p and 2p+1 of the register |
| PortRegisters.WithMode | poe.c:164-173 | the rebuilt mode byte has `m` in field `port` and keeps the other three fields |
| PortRegisters.LowFieldsFields | poe.c:164-173 | after n iterations of the mode loop, the byte holds the first n fields and zeros above |
| PortRegisters.WithDetection | poe.c:88-89 | bit `port` is set exactly when `detect` is; every other bit is kept |
| PortRegisters.WithClassification | poe.c:102-103 | bit `port + 4` is set exactly when `classify` is; every other bit is kept |
| PortRegisters.WithSensing | poe.c:73-75 | the upper nibble is cleared; bit `port` is set exactly when `sense` is; the other low bits are kept |
| PortRegisters.StateCommand | poe.c:135-137 | for state ≠ 0 the byte is `(1<<p)` OR-ed with `0xF0 ^ (1<<(p+4))`, whose upper nibble complements the lower. For state 0 it is `0xFF ^ (1<<p)`, whose upper nibble is 0xF |
| PortController.RunsIssuesPrefix | poe.c:174-187 | a plan issues a prefix of its transactions. It succeeds exactly when none is busy. A failure is the first busy transaction. The registers keep every write issued before it, with no rollback |
| PortController.ReadWriteAllOrNothing | poe.c:70-77 | a read-then-write setter changes the register only by the written byte and only on success. A failed read issues no write |
| PortController.WriteOnce | poe.c:8-33 | a single write transaction stores its byte exactly when its number is not busy, and is logged either way |
| PortController.ModePlanApplies | poe.c:164-187 | a successful setPortMode leaves the setters' bytes in registers 0x12, 0x14 and 0x13 |
| PortController.ModeChangeEffect | poe.c:154-188 | after a successful setPortMode, getPortMode(port) reads back `mode` and the other ports keep their modes. Detection, classification and sensing of `port` are on exactly in auto mode. All other enable bits and the other low sensing bits are kept, the upper nibble of 0x13 is cleared, and no other register changes |
| PortController.Chip.Read | poe.c:35-63 | one read transaction: it returns the register byte, or fails with -EBUSY; registers are unchanged |
| PortController.Chip.Write | poe.c:8-33 | one write transaction: it stores the byte on success; a failure is -EBUSY |
| PortController.GetDeviceId | poe.c:108-115 | one read of 0x43; the value is that byte, or the error is passed on. The C return value is the byte, or -EBUSY |
| PortController.GetPortState | poe.c:117-124 | one read of 0x10; the value is 0 or 1 and equals bit `port`, or the read's error is passed on. The C return value is that bit, or -EBUSY |
| PortController.SetPortState | poe.c:126-140 | read 0x10 (value unused), then write StateCommand to 0x19; no write if the read fails |
| PortController.GetPortMode | poe.c:142-152 | one read of 0x12; the value is in 0..3 and equals field `port`, or the read's error is passed on. The C return value is that field, or -EBUSY |
| PortController.SetPortDetection | poe.c:80-92 | read 0x14, then write it back with bit `port` set to `detect`; no write if the read fails |
| PortController.SetPortClassification | poe.c:94-106 | read 0x14, then write it back with bit `port + 4` set to `classify`; no write if the read fails |
| PortController.SetPortSensing | poe.c:65-78 | read 0x13, then write it with the upper nibble cleared and bit `port` set to `sense`; no write if the read fails |
| PortController.CollectModes | poe.c:164-173 | three reads of 0x12, stopping at the first failure. The byte built has `mode` in field `port` and the read-back modes elsewhere |
| PortController.SetPortMode | poe.c:154-188 | a mode other than auto or manual is -EINVAL with no bus traffic. Otherwise the operation runs its plan: mode reads, the mode byte write, then detection, classification and sensing set to (mode == auto). It stops at the first error and undoes nothing |
| PortController.WriteModes | poe.c:164-176 | the mode reads, then the write of the rebuilt byte, stopping at the first failure; on success only register 0x12 changed, and it holds `mode` in field `port` and the read-back modes elsewhere |
| PortController.SetPortFunctions | poe.c:178-185 | detection, classification and sensing are set in that order; classification reads back detection's byte. The sequence stops at the first error |

## Left out

- poe_driver.c (sysfs attributes, parsing and formatting, allocation, module init and exit) and main.c (module registration) are not part of this model.
- The chip's real responses are not modelled. The status, control and data bytes are free inputs, so no relation is assumed between what 0x19 receives and what 0x10 later returns.
- Timing: `wait` is only an iteration bound, not real time.
- Concurrency: the driver has no locking, and no interleaving of bus callers is modelled.
- Ports 4 and above are excluded by the precondition `port < 4`. For them the C shifts alias or truncate.
- StateCommand: the left shift of a negative `int` in `~data << 4` is undefined in ISO C. It is modelled as the byte-wide shift, which is what truncation to `uint8_t` keeps.
- Chip.Write: a failed write leaves the register unchanged. A real chip could have latched a frame whose completion timed out in phase 2.
- The controller is not composed with the bus engine. `Chip.Read` and `Chip.Write` stand for `smb_read_byte` and `smb_write_byte` with bus address 0xF040, device address 0x40 and wait 30. Which transactions fail comes from `busyAt` rather than from status bytes.
- SmbReadByte: the caller's pointer is the flag `hasDest`, and the byte comes back in the result instead of being stored through the pointer. Nothing is stored on failure.
- Setters: the C value of a setter is 0 or the negative errno. The model returns `Result<()>`, and `ReturnCode` is applied to the getters only.
- The engine reads each input register from its own stream of bytes, not from one interleaved stream. The code is deterministic, so this loses no behaviour.
- setPortState: the rule "the upper nibble is the complement of the lower" holds in the code only for a non-zero state. For state 0 the code sends `0xFF ^ (1<<p)`, whose upper nibble is 0xF. The model follows the code.
