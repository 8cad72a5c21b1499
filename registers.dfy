/** The port register model: which bits of which controller register hold
    each port's state, mode and enables, and the byte arithmetic the port
    operations do on them. A port is an unsigned byte below 4. */
module PortRegisters {

  /** Mode encodings. */
  const PoeAuto: int := 3
  const PoeManual: int := 1

  /** A command (register) code: an unsigned byte. */
  type Cmd = c: int | 0 <= c < 256

  /** Command (register) codes. */
  const CmdDeviceId: Cmd := 0x43
  const CmdStateRead: Cmd := 0x10
  const CmdStateWrite: Cmd := 0x19
  const CmdMode: Cmd := 0x12
  const CmdSensing: Cmd := 0x13
  /** Detection in the low nibble, classification in the high nibble. */
  const CmdEnable: Cmd := 0x14

  function Bit(n: bv8): bv8
    requires n < 8
  {
    1 << n
  }

  /** getPortState's extraction: bit `port` of the state register as 0 or 1. */
  function StateOf(reg: bv8, port: bv8): (v: int)
    requires port < 4
    ensures v == 0 || v == 1
    ensures v == 1 <==> reg & Bit(port) != 0
  {
    ((Bit(port) & reg) >> port) as int
  }

  /** The 2-bit mode field of `port`: bits 2*port and 2*port+1. */
  function ModeBits(reg: bv8, port: bv8): (m: bv8)
    requires port < 4
    ensures m < 4
    ensures m & 1 != 0 <==> reg & Bit(2 * port) != 0
    ensures m & 2 != 0 <==> reg & Bit(2 * port + 1) != 0
  {
    (reg & (3 << (port * 2))) >> (port * 2)
  }

  /** The mode byte with the field of `port` replaced by `m`: fields of the
      other ports are kept. */
  function WithMode(reg: bv8, port: bv8, m: bv8): (r: bv8)
    requires port < 4 && m < 4
    ensures forall q: bv8 :: q < 4 ==> ModeBits(r, q) == if q == port then m else ModeBits(reg, q)
  {
    (reg & !(3 << (port * 2))) | (m << (port * 2))
  }

  /** The low `n` mode fields of a byte (bits 0 .. 2n-1), n <= 4. */
  function LowFields(x: bv8, n: bv8): bv8
    requires n <= 4
  {
    if n == 4 then x else x & ((1 << (2 * n)) - 1)
  }

  /** After n iterations of setPortMode's loop the byte holds the first n
      mode fields of `x` and zeros in the fields above. */
  lemma LowFieldsFields(x: bv8, n: bv8)
    requires n <= 4
    ensures forall q: bv8 :: q < 4 ==> ModeBits(LowFields(x, n), q) == if q < n then ModeBits(x, q) else 0
  {
  }

  /** Adding field n to the low n fields gives the low n + 1 fields. */
  lemma LowFieldsStep(x: bv8, n: bv8)
    requires n < 4
    ensures LowFields(x, n + 1) == LowFields(x, n) | (ModeBits(x, n) << (n * 2))
  {
  }

  /** OR-ing field n of `x` into its low n fields gives its low n + 1
      fields: one step of setPortMode's loop. */
  lemma AddField(x: bv8, low: bv8, n: bv8, v: bv8)
    requires n < 4 && low == LowFields(x, n) && v == ModeBits(x, n)
    ensures low | (v << (n * 2)) == LowFields(x, n + 1)
  {
    LowFieldsStep(x, n);
  }

  /** setPortDetection's byte: bit `port` set to `on`, every other bit kept. */
  function WithDetection(reg: bv8, port: bv8, on: bool): (r: bv8)
    requires port < 4
    ensures r & Bit(port) != 0 <==> on
    ensures r & !Bit(port) == reg & !Bit(port)
  {
    if on then reg | Bit(port) else reg & !Bit(port)
  }

  /** setPortClassification's byte: bit `port + 4` set to `on`, every other
      bit kept. */
  function WithClassification(reg: bv8, port: bv8, on: bool): (r: bv8)
    requires port < 4
    ensures r & Bit(port + 4) != 0 <==> on
    ensures r & !Bit(port + 4) == reg & !Bit(port + 4)
  {
    if on then reg | Bit(port + 4) else reg & !Bit(port + 4)
  }

  /** setPortSensing's byte: the upper nibble cleared, bit `port` set to `on`,
      the other low bits kept. */
  function WithSensing(reg: bv8, port: bv8, on: bool): (r: bv8)
    requires port < 4
    ensures r & 0xF0 == 0
    ensures r & Bit(port) != 0 <==> on
    ensures r & (0x0F ^ Bit(port)) == reg & (0x0F ^ Bit(port))
  {
    var low := reg & 0x0F;
    if on then low | Bit(port) else low & !Bit(port)
  }

  /** setPortState's byte for register 0x19: one bit at `port`, inverted when
      `state` is 0, then OR-ed with its own complement shifted into the high
      nibble, the shift taken mod 256. */
  function StateCommand(port: bv8, state: int): (r: bv8)
    requires port < 4
    ensures state != 0 ==> r == Bit(port) | (0xF0 ^ Bit(port + 4))
    ensures state == 0 ==> r == 0xFF ^ Bit(port)
    ensures state != 0 ==> r >> 4 == !r & 0x0F
    ensures state == 0 ==> r >> 4 == 0x0F
  {
    var data := Bit(port);
    var data' := if state == 0 then !data else data;
    data' | (!data' << 4)
  }
}
