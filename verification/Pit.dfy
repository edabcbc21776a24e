/** The divisor arithmetic of `drivers/pit.rs`. */
module Pit {
  import opened Prelude

  const PIT_DIVIDEND: nat := 1193182

  const COMMAND_REG := 0x43
  const CHANNEL0 := 0x40
  const LO_HI_RATE_GENERATOR := 0x34  // channel 0, both bytes, mode 2, binary

  datatype PortWrite = PortWrite(port: nat, value: nat)

  function Divisor(frequency: nat): nat
    requires frequency > 0
  {
    PIT_DIVIDEND / frequency + if PIT_DIVIDEND % frequency > frequency / 2 then 1 else 0
  }

  function Abs(x: int): nat {
    if x < 0 then -x else x
  }

  /** How far a divisor misses the dividend: the rounding error, in units of the period. */
  function Error(d: nat, frequency: nat): nat {
    Abs(d * frequency - PIT_DIVIDEND)
  }

  /** `count as u16`. */
  function Truncated(count: nat): nat {
    count % 0x1_0000
  }

  /** The count `read_pit_count` puts together from the two bytes it reads. */
  function Assembled(low: nat, high: nat): nat {
    low + 256 * high
  }

  lemma BytesOfCount(count: nat)
    ensures Truncated(count) % 256 == count % 256 && Truncated(count) / 256 == count / 256 % 256
  {
  }

  /** `set_frequency`; a frequency of 0 divides by zero. */
  method SetFrequency(frequency: nat) returns (writes: seq<PortWrite>)
    requires frequency > 0
    ensures |writes| == 3 && writes[0] == PortWrite(0x43, 0x34)
    ensures writes[1] == PortWrite(0x40, Divisor(frequency) % 256)
    ensures writes[2] == PortWrite(0x40, Divisor(frequency) / 256 % 256)
    ensures Assembled(writes[1].value, writes[2].value) == Truncated(Divisor(frequency))
  {
    var newDivisor := PIT_DIVIDEND / frequency;
    if PIT_DIVIDEND % frequency > frequency / 2 {
      newDivisor := newDivisor + 1;
    }
    writes := [PortWrite(COMMAND_REG, LO_HI_RATE_GENERATOR)];
    var count := Truncated(newDivisor);
    BytesOfCount(newDivisor);
    writes := writes + [PortWrite(CHANNEL0, count % 256)];
    writes := writes + [PortWrite(CHANNEL0, count / 256)];
  }

  /** No divisor is closer, and the error is at most half a period unit. */
  lemma DivisorIsNearest(frequency: nat, d: nat)
    requires frequency > 0
    ensures Error(Divisor(frequency), frequency) <= Error(d, frequency)
    ensures 2 * Error(Divisor(frequency), frequency) <= frequency
  {
    var q, r := PIT_DIVIDEND / frequency, PIT_DIVIDEND % frequency;
    assert PIT_DIVIDEND == q * frequency + r;
    assert (q + 1) * frequency == q * frequency + frequency;
    assert d * frequency - q * frequency == (d - q) * frequency;
    MulGrows(d - q, frequency);
    MulGrows(q - d, frequency);
    assert (q - d) * frequency == -((d - q) * frequency);
  }

  /** It is the one divisor this near: halves are rounded down. */
  lemma DivisorIsRounded(frequency: nat, d: nat)
    requires frequency > 0
    ensures d == Divisor(frequency) <==> -(frequency as int) <= 2 * (d * frequency - 1193182) < frequency
  {
    var q, r := PIT_DIVIDEND / frequency, PIT_DIVIDEND % frequency;
    assert PIT_DIVIDEND == q * frequency + r;
    assert (q + 1) * frequency == q * frequency + frequency;
    var e := Divisor(frequency);
    assert d * frequency - e * frequency == (d - e) * frequency;
    MulGrows(d - e, frequency);
  }

  lemma MulMonotone(a: nat, b: nat, f: nat)
    requires a <= b
    ensures a * f <= b * f
  {
  }

  /** The divisor fits the sixteen-bit counter and is not zero for exactly these frequencies. */
  lemma DivisorFits(frequency: nat)
    requires frequency > 0
    ensures 1 <= Divisor(frequency) <= 0xffff <==> 19 <= frequency <= 2386363
  {
    var q, r := PIT_DIVIDEND / frequency, PIT_DIVIDEND % frequency;
    assert PIT_DIVIDEND == q * frequency + r;
    if frequency < 19 {
      assert (q + 1) * frequency == q * frequency + frequency;
      MulMonotone(frequency, 18, q + 1);
      assert (q + 1) * 18 > PIT_DIVIDEND;
    } else if frequency <= PIT_DIVIDEND {
      MulMonotone(19, frequency, q);
      MulMonotone(1, q + 1, frequency);
      assert q * 19 <= PIT_DIVIDEND;
      assert q >= 1;
    } else {
      assert q == 0 && r == PIT_DIVIDEND;
    }
  }

  /** Every frequency the timer can be set to is programmed exactly as rounded. */
  lemma ProgrammedAsRounded(frequency: nat)
    requires frequency > 0
    ensures Truncated(Divisor(frequency)) == Divisor(frequency) <==> frequency >= 19
  {
    DivisorFits(frequency);
  }
}
