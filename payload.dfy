/** Byte layout of the three 8-byte CAN payloads the cluster emulator fills in
    (src/main.cpp, canWriteRpm, canWriteTemp and canWriteMisc). */
module Payload {

  /** An `unsigned char` of the payload arrays. */
  type byte = x: int | 0 <= x < 256

  const FRAME_LENGTH := 8

  /** Lamp code of byte 0 of the misc frame: 2 is the check-engine lamp, 16 the EML lamp and
      18 (their sum) both; the program always sends "no lamp". */
  const NO_LAMPS: byte := 0
  /** Byte 3 of the misc frame when the red temperature alarm light is on. */
  const OVERHEAT_FLAG: byte := 8
  /** Coolant temperature in degrees Celsius from which the alarm light is lit. */
  const TEMP_ALARM_LIGHT := 110

  /** `(unsigned char) v`: conversion to an unsigned 8-bit type keeps v modulo 256. */
  function LowByte(v: int): byte
  {
    v % 256
  }

  /** `(unsigned char) (v >> 8)`: the right shift of a signed int is arithmetic on the target,
      that is division by 256 rounded down, which is what Dafny's `/` does for a positive divisor. */
  function HighByte(v: int): byte
  {
    (v / 256) % 256
  }

  /** Reads back a little-endian 16-bit quantity from its two bytes. */
  function Join(lo: byte, hi: byte): (v: int)
    ensures 0 <= v < 65536
  {
    hi * 256 + lo
  }

  /** Two's-complement wrap of an integer into the 16-bit `int` of the target. */
  function Wrap16(v: int): (w: int)
    ensures -32768 <= w < 32768
    ensures (w - v) % 65536 == 0
  {
    (v + 32768) % 65536 - 32768
  }

  /** Quotient and remainder by 256 are determined by any decomposition. */
  lemma DivMod256(n: int, q: int, r: int)
    requires 0 <= r < 256 && n == 256 * q + r
    ensures n / 256 == q && n % 256 == r
  {
  }

  /** Splitting and joining again keeps the value modulo 2^16: exact for 0 <= v < 65536. */
  lemma JoinSplit(v: int)
    ensures Join(LowByte(v), HighByte(v)) == v % 65536
  {
    var q := v / 65536;
    var r := v % 65536;
    assert v == 65536 * q + r;
    assert v / 256 == 256 * q + r / 256;
    assert (v / 256) % 256 == r / 256;
    assert v % 256 == r % 256;
  }

  /** The other direction: any two bytes are split back out of their join. */
  lemma SplitJoin(lo: byte, hi: byte)
    ensures LowByte(Join(lo, hi)) == lo && HighByte(Join(lo, hi)) == hi
  {
  }

  /** The bytes of a value do not change when the value wraps around 16 bits. */
  lemma SplitIgnoresWrap(v: int)
    ensures LowByte(Wrap16(v)) == LowByte(v) && HighByte(Wrap16(v)) == HighByte(v)
  {
    var w := Wrap16(v);
    var k := (w - v) / 65536;
    assert w == v + 65536 * k;
    var a, b := v / 256, v % 256;
    DivMod256(w, a + 256 * k, b);
    var c, e := a / 256, a % 256;
    DivMod256(a + 256 * k, c + k, e);
  }

  /** Byte 3 of the misc frame: the red alarm light on the temperature gauge. */
  function AlarmByte(tempCelsius: int): (b: byte)
    ensures b == OVERHEAT_FLAG <==> tempCelsius >= TEMP_ALARM_LIGHT
    ensures b == 0 <==> tempCelsius < TEMP_ALARM_LIGHT
  {
    if tempCelsius >= TEMP_ALARM_LIGHT then OVERHEAT_FLAG else 0
  }

  /** The RPM frame: scaled engine speed at bytes 2 (LSB) and 3 (MSB), every other byte zero. */
  function RpmFrame(scaled: int): (f: seq<byte>)
  {
    [0, 0, LowByte(scaled), HighByte(scaled), 0, 0, 0, 0]
  }

  /** What the cluster reads out of an RPM frame. */
  function RpmOf(f: seq<byte>): int
    requires |f| == FRAME_LENGTH
  {
    Join(f[2], f[3])
  }

  predicate IsRpmFrame(f: seq<byte>)
  {
    |f| == FRAME_LENGTH && f[0] == 0 && f[1] == 0 && f[4..] == [0, 0, 0, 0]
  }

  /** An RPM frame carries the scaled speed modulo 2^16, and nothing else. */
  lemma RpmFrameRoundTrip(scaled: int)
    ensures IsRpmFrame(RpmFrame(scaled))
    ensures RpmOf(RpmFrame(scaled)) == scaled % 65536
    ensures 0 <= scaled < 65536 ==> RpmOf(RpmFrame(scaled)) == scaled
  {
    JoinSplit(scaled);
  }

  /** Every well-formed RPM frame is the encoding of the speed it carries. */
  lemma RpmFrameOfRpm(f: seq<byte>)
    requires IsRpmFrame(f)
    ensures RpmFrame(RpmOf(f)) == f
  {
    SplitJoin(f[2], f[3]);
  }

  /** The temperature frame: the encoded coolant temperature at byte 1, every other byte zero. */
  function TempFrame(code: byte): (f: seq<byte>)
  {
    [0, code, 0, 0, 0, 0, 0, 0]
  }

  /** The misc frame: lamp code, little-endian fuel consumption, temperature alarm, zeros. */
  function MiscFrame(fuel: int, tempCelsius: int): (f: seq<byte>)
  {
    [NO_LAMPS, LowByte(fuel), HighByte(fuel), AlarmByte(tempCelsius), 0, 0, 0, 0]
  }

  /** The fuel consumption value the cluster reads out of a misc frame. */
  function FuelOf(f: seq<byte>): int
    requires |f| == FRAME_LENGTH
  {
    Join(f[1], f[2])
  }

  /** A misc frame carries no lamp, the consumption modulo 2^16, and the alarm exactly at or
      above the alarm temperature. */
  lemma MiscFrameRoundTrip(fuel: int, tempCelsius: int)
    ensures |MiscFrame(fuel, tempCelsius)| == FRAME_LENGTH
    ensures MiscFrame(fuel, tempCelsius)[0] == NO_LAMPS
    ensures FuelOf(MiscFrame(fuel, tempCelsius)) == fuel % 65536
    ensures MiscFrame(fuel, tempCelsius)[3] == OVERHEAT_FLAG <==> tempCelsius >= TEMP_ALARM_LIGHT
    ensures MiscFrame(fuel, tempCelsius)[4..] == [0, 0, 0, 0]
  {
    JoinSplit(fuel);
  }

  /** The misc frame built from an unbounded consumption value is the one built from the value
      after 16-bit two's-complement wrap-around. */
  lemma MiscFrameWraps(fuel: int, tempCelsius: int)
    ensures MiscFrame(fuel, tempCelsius) == MiscFrame(Wrap16(fuel), tempCelsius)
  {
    SplitIgnoresWrap(fuel);
  }
}
