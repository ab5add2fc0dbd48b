/**
  The I2C motor-driver board (server/driver/IIC.py): register map, big-endian
  byte packing of speed commands, 32-bit encoder decoding, battery reading and
  the 520-motor configuration sequence. The bus is a log of block writes; block
  reads come from a map from register to the bytes the board answers with.
*/
module Iic {
  import opened Wrappers

  type Byte = x: int | 0 <= x < 256
  type Block2 = b: seq<Byte> | |b| == 2 witness [0, 0]
  type Block4 = b: seq<Byte> | |b| == 4 witness [0, 0, 0, 0]

  const ADDR := 0x26
  const REG_TYPE := 0x01
  const REG_DEADZONE := 0x02
  const REG_PULSE_LINE := 0x03
  const REG_PULSE_PHASE := 0x04
  const REG_WHEEL_DIA := 0x05
  const REG_SPEED_CTRL := 0x06
  const REG_ENCODER_ALL := 0x20
  const REG_BATTERY_VOLTAGE := 0x1B

  const TWO_16 := 0x1_0000
  const TWO_31 := 0x8000_0000
  const TWO_32 := 0x1_0000_0000

  /** Python `(m >> 8) & 0xFF`: `>>` is floor division, as Dafny's `/` by a positive divisor. */
  function Hi(m: int): Byte { (m / 256) % 256 }

  /** Python `m & 0xFF`. */
  function Lo(m: int): Byte { m % 256 }

  /** The 16-bit word a high and a low byte stand for. */
  function Word(hi: Byte, lo: Byte): (w: int)
    ensures 0 <= w < TWO_16
  {
    hi * 256 + lo
  }

  /** A 16-bit word read as two's complement. */
  function Signed16(w: int): int
    requires 0 <= w < TWO_16
  {
    if w >= 0x8000 then w - TWO_16 else w
  }

  /** The bytes `control_speed` sends: high then low byte of m1, m2, m3, m4. */
  function SpeedFrame(m1: int, m2: int, m3: int, m4: int): (frame: seq<Byte>)
    ensures |frame| == 8
    ensures frame[0] == Hi(m1) && frame[1] == Lo(m1) && frame[2] == Hi(m2) && frame[3] == Lo(m2)
    ensures frame[4] == Hi(m3) && frame[5] == Lo(m3) && frame[6] == Hi(m4) && frame[7] == Lo(m4)
  {
    [Hi(m1), Lo(m1), Hi(m2), Lo(m2), Hi(m3), Lo(m3), Hi(m4), Lo(m4)]
  }

  /** Any speed is sent modulo 2^16: out-of-range speeds wrap around. */
  lemma SpeedBytesWrap(m: int)
    ensures Word(Hi(m), Lo(m)) == m % TWO_16
  {
    var q := m / 256;
    var k := q / 256;
    assert m == 256 * q + m % 256;
    assert q == 256 * k + q % 256;
    assert m == TWO_16 * k + (256 * (q % 256) + m % 256);
    DivModUnique(m, TWO_16, k, 256 * (q % 256) + m % 256);
  }

  /** Euclidean division is unique (for the constant divisors used here). */
  lemma DivModUnique(m: int, d: int, q: int, r: int)
    requires d == 0x100 || d == TWO_16 || d == 0x100_0000 || d == TWO_32
    requires 0 <= r < d && m == q * d + r
    ensures m / d == q && m % d == r
  {
  }

  /** A signed 16-bit speed is recovered exactly from its two bytes. */
  lemma SpeedBytesSigned(m: int)
    requires -0x8000 <= m < 0x8000
    ensures Signed16(Word(Hi(m), Lo(m))) == m
  {
    SpeedBytesWrap(m);
    if m < 0 {
      DivModUnique(m, TWO_16, -1, m + TWO_16);
    } else {
      DivModUnique(m, TWO_16, 0, m);
    }
  }

  /** An unsigned 16-bit value is recovered exactly from its two bytes. */
  lemma SpeedBytesUnsigned(m: int)
    requires 0 <= m < TWO_16
    ensures Word(Hi(m), Lo(m)) == m
  {
    SpeedBytesWrap(m);
    DivModUnique(m, TWO_16, 0, m);
  }

  /** `read_encoders`' decoding: big-endian 32 bits, then two's complement. */
  function DecodeS32(b: Block4): (v: int)
    ensures -TWO_31 <= v < TWO_31
  {
    var u := b[0] as int * 0x100_0000 + b[1] as int * 0x1_0000 + b[2] as int * 0x100 + b[3] as int;
    if u >= TWO_31 then u - TWO_32 else u
  }

  /** What the board stores for a signed 32-bit count: big-endian two's complement. */
  function EncodeS32(v: int): Block4
    requires -TWO_31 <= v < TWO_31
  {
    var u := v % TWO_32;
    [u / 0x100_0000, (u / 0x1_0000) % 256, (u / 0x100) % 256, u % 256]
  }

  /** Decoding inverts encoding ... */
  lemma DecodeEncodeS32(v: int)
    requires -TWO_31 <= v < TWO_31
    ensures DecodeS32(EncodeS32(v)) == v
  {
    var u := v % TWO_32;
    if v < 0 {
      DivModUnique(v, TWO_32, -1, v + TWO_32);
    } else {
      DivModUnique(v, TWO_32, 0, v);
    }
    ByteDigits(u);
  }

  /** A 32-bit unsigned value is the sum of its four big-endian bytes. */
  lemma ByteDigits(u: int)
    requires 0 <= u < TWO_32
    ensures 0 <= u / 0x100_0000 < 256
    ensures u == (u / 0x100_0000) * 0x100_0000 + ((u / 0x1_0000) % 256) * 0x1_0000
               + ((u / 0x100) % 256) * 0x100 + u % 256
  {
    var q1 := u / 256;
    var q2 := q1 / 256;
    var q3 := q2 / 256;
    assert u == 256 * q1 + u % 256;
    assert q1 == 256 * q2 + q1 % 256;
    assert q2 == 256 * q3 + q2 % 256;
    DivModUnique(u, 0x1_0000, q2, 256 * (q1 % 256) + u % 256);
    DivModUnique(u, 0x100_0000, q3, 0x1_0000 * (q2 % 256) + 256 * (q1 % 256) + u % 256);
  }

  /** ... and encoding inverts decoding: the two are a bijection. */
  lemma EncodeDecodeS32(b: Block4)
    ensures EncodeS32(DecodeS32(b)) == b
  {
    var u := b[0] as int * 0x100_0000 + b[1] as int * 0x1_0000 + b[2] as int * 0x100 + b[3] as int;
    var v := DecodeS32(b);
    if u >= TWO_31 {
      DivModUnique(v, TWO_32, -1, u);
    } else {
      DivModUnique(v, TWO_32, 0, u);
    }
    var b0, b1, b2, b3: int := b[0], b[1], b[2], b[3];
    DivModUnique(u, 0x100_0000, b0, b1 * 0x1_0000 + b2 * 0x100 + b3);
    DivModUnique(u, TWO_16, b0 * 0x100 + b1, b2 * 0x100 + b3);
    DivModUnique(b0 * 0x100 + b1, 0x100, b0, b1);
    DivModUnique(u, 0x100, b0 * 0x1_0000 + b1 * 0x100 + b2, b3);
    DivModUnique(b0 * 0x1_0000 + b1 * 0x100 + b2, 0x100, b0 * 0x100 + b1, b2);
    var e := EncodeS32(v);
    assert e[0] == b[0] && e[1] == b[1] && e[2] == b[2] && e[3] == b[3];
  }

  /** Motor `i` (0..3) keeps its count at register 0x20 + 2 * i. */
  function EncoderRegister(i: nat): int {
    REG_ENCODER_ALL + i * 2
  }

  /**
    `read_encoders`: four block reads in motor order. A register the board does
    not answer raises in Python; there is no `try`, so the caller sees the
    exception (`None`) and no partial list.
  */
  method ReadEncoders(board: map<int, Block4>) returns (r: Option<seq<int>>)
    ensures r.Some? <==> forall i :: 0 <= i < 4 ==> EncoderRegister(i) in board
    ensures r.Some? ==> |r.value| == 4
    ensures r.Some? ==> forall i :: 0 <= i < 4 ==> r.value[i] == DecodeS32(board[EncoderRegister(i)])
    ensures r.Some? ==> forall i :: 0 <= i < 4 ==> -TWO_31 <= r.value[i] < TWO_31
  {
    var results: seq<int> := [];
    for i := 0 to 4
      invariant |results| == i
      invariant forall k :: 0 <= k < i ==> EncoderRegister(k) in board
      invariant forall k :: 0 <= k < i ==> results[k] == DecodeS32(board[EncoderRegister(k)])
    {
      if EncoderRegister(i) !in board {
        return None;
      }
      var data := board[EncoderRegister(i)];
      results := results + [DecodeS32(data)];
    }
    return Some(results);
  }

  /** `read_battery_voltage` in millivolts: a failed read (any exception) gives 0. */
  function BatteryMillivolts(read: Option<Block2>): (mv: int)
    ensures 0 <= mv < TWO_16
    ensures read.None? ==> mv == 0
    ensures read.Some? ==> mv == read.value[0] as int * 256 + read.value[1]
  {
    match read
    case None => 0
    case Some(data) => Word(data[0], data[1])
  }

  /** `read_battery_voltage` in volts. */
  function ReadBatteryVoltage(read: Option<Block2>): (volts: real)
    ensures 0.0 <= volts < 65.536
    ensures read.None? ==> volts == 0.0
    ensures read.Some? ==> volts * 1000.0 == (read.value[0] as int * 256 + read.value[1] as int) as real
  {
    BatteryMillivolts(read) as real / 1000.0
  }

  /** Little-endian IEEE 754 binary32 bytes of 67.0 (`struct.pack('<f', 67.00)`). */
  const WHEEL_DIAMETER_BYTES: seq<Byte> := [0x00, 0x00, 0x86, 0x42]

  function Pow2(n: nat): (p: nat)
    ensures p >= 1
  {
    if n == 0 then 1 else 2 * Pow2(n - 1)
  }

  /** The value of a positive normal binary32 bit pattern whose exponent field lies in [127, 150). */
  function Binary32Value(bits: int): real
    requires 0 <= bits < TWO_31 && 127 <= bits / 0x80_0000 < 150
  {
    var exponent := bits / 0x80_0000;
    var mantissa := bits % 0x80_0000;
    (0x80_0000 + mantissa) as real / Pow2(150 - exponent) as real
  }

  /** The four wheel-diameter bytes, read little-endian, are 67.0 as a binary32. */
  lemma WheelDiameterIs67()
    ensures Binary32Value(
      WHEEL_DIAMETER_BYTES[3] as int * 0x100_0000 + WHEEL_DIAMETER_BYTES[2] as int * 0x1_0000
      + WHEEL_DIAMETER_BYTES[1] as int * 0x100 + WHEEL_DIAMETER_BYTES[0] as int) == 67.0
  {
    var bits := 0x4286_0000;
    assert bits / 0x80_0000 == 133 && bits % 0x80_0000 == 0x06_0000;
    assert Pow2(4) == 16;
    assert Pow2(8) == 256;
    assert Pow2(12) == 4096;
    assert Pow2(16) == 65536;
    assert Pow2(17) == 131072;
  }

  datatype Write = Write(addr: int, reg: int, data: seq<Byte>)

  /** The five writes of `set_520_motor_params`, in order. */
  function MotorParamWrites(): (ws: seq<Write>)
    ensures |ws| == 5
    ensures forall k :: 0 <= k < 5 ==> ws[k].addr == ADDR
  {
    [ Write(ADDR, REG_TYPE, [1]),
      Write(ADDR, REG_PULSE_PHASE, [0, 30]),
      Write(ADDR, REG_PULSE_LINE, [0, 11]),
      Write(ADDR, REG_WHEEL_DIA, WHEEL_DIAMETER_BYTES),
      Write(ADDR, REG_DEADZONE, [Hi(1600), Lo(1600)]) ]
  }

  /** The configuration registers come in the order type, phase, line, diameter, deadzone. */
  lemma MotorParamOrder()
    ensures [MotorParamWrites()[0].reg, MotorParamWrites()[1].reg, MotorParamWrites()[2].reg,
             MotorParamWrites()[3].reg, MotorParamWrites()[4].reg]
         == [REG_TYPE, REG_PULSE_PHASE, REG_PULSE_LINE, REG_WHEEL_DIA, REG_DEADZONE]
    ensures MotorParamWrites()[4].data == [6, 64]
    ensures Word(6, 64) == 1600
    ensures MotorParamWrites()[1].data == [Hi(30), Lo(30)]
    ensures MotorParamWrites()[2].data == [Hi(11), Lo(11)]
    ensures MotorParamWrites()[0].data == [1]
    ensures MotorParamWrites()[3].data == WHEEL_DIAMETER_BYTES
    ensures var d := MotorParamWrites()[3].data;
      |d| == 4
      && Binary32Value(d[3] as int * 0x100_0000 + d[2] as int * 0x1_0000 + d[1] as int * 0x100 + d[0] as int) == 67.0
  {
    WheelDiameterIs67();
  }

  /** The shared bus: every block write goes to the log, in order. */
  class Bus {
    var writes: seq<Write>

    constructor ()
      ensures writes == []
    {
      writes := [];
    }

    /** `i2c_write(reg, data)`: one block write to the board. */
    method I2cWrite(reg: int, data: seq<Byte>)
      modifies this
      ensures writes == old(writes) + [Write(ADDR, reg, data)]
    {
      writes := writes + [Write(ADDR, reg, data)];
    }

    /** `set_520_motor_params`: the configuration writes, in the order the board expects. */
    method SetMotorParams()
      modifies this
      ensures writes == old(writes) + MotorParamWrites()
    {
      I2cWrite(REG_TYPE, [1]);
      I2cWrite(REG_PULSE_PHASE, [0, 30]);
      I2cWrite(REG_PULSE_LINE, [0, 11]);
      I2cWrite(REG_WHEEL_DIA, WHEEL_DIAMETER_BYTES);
      I2cWrite(REG_DEADZONE, [Hi(1600), Lo(1600)]);
    }

    /** `control_speed`: one 8-byte write to the speed register. */
    method ControlSpeed(m1: int, m2: int, m3: int, m4: int)
      modifies this
      ensures writes == old(writes) + [Write(ADDR, REG_SPEED_CTRL, SpeedFrame(m1, m2, m3, m4))]
    {
      I2cWrite(REG_SPEED_CTRL, SpeedFrame(m1, m2, m3, m4));
    }
  }
}
