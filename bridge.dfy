/** One H-bridge of the chip: two inputs driven either as digital pins (`Bridge`) or as PWM
    channels (`PwmBridge`), and the percent-to-duty `Remap` used for speed control. */
module Bridges {
  import opened Hal
  import opened Errors

  /** Rust's saturating `as u16` conversion. */
  function SaturateU16(x: int): U16 {
    if x < 0 then 0 else if x > 0xFFFF then 0xFFFF else x
  }

  /** Scales `value` percent linearly from `min` towards `max` and truncates, as
      `(value / 100 * (max - min) + min) as u16` does over the reals. */
  function Remap(value: U8, min: U16, max: U16): (r: U16)
    ensures value == 0 ==> r == min
    ensures value == 100 ==> r == max
    ensures value <= 100 && min <= max ==> min <= r <= max
    ensures value <= 100 && max <= min ==> max <= r <= min
  {
    ScaledStep(value, max - min);
    SaturateU16(min + value * (max - min) / 100)
  }

  /** For a percentage in range, the scaled step `value * d / 100` lies between 0 and `d`. */
  lemma ScaledStep(value: int, d: int)
    ensures 0 <= value <= 100 && d >= 0 ==> 0 <= value * d / 100 <= d
    ensures 0 <= value <= 100 && d <= 0 ==> d <= value * d / 100 <= 0
    ensures value == 100 ==> value * d / 100 == d
  {
    if 0 <= value <= 100 {
      if d >= 0 {
        MulMonotone(0, value, d);
        MulMonotone(value, 100, d);
        DivMonotone(0, value * d);
        DivMonotone(value * d, 100 * d);
      } else {
        MulMonotone(0, value, -d);
        MulMonotone(value, 100, -d);
        DivMonotone(value * d, 0);
        DivMonotone(100 * d, value * d);
      }
    }
  }

  /** Remap never moves away from `max` as the percentage grows. */
  lemma RemapMonotone(v1: U8, v2: U8, min: U16, max: U16)
    requires v1 <= v2
    ensures min <= max ==> Remap(v1, min, max) <= Remap(v2, min, max)
    ensures max <= min ==> Remap(v2, min, max) <= Remap(v1, min, max)
  {
    var d := max - min;
    if d >= 0 {
      assert v1 * d <= v2 * d by { MulMonotone(v1, v2, d); }
      DivMonotone(v1 * d, v2 * d);
    } else {
      assert v2 * d <= v1 * d by { MulMonotone(v1, v2, -d); }
      DivMonotone(v2 * d, v1 * d);
    }
  }

  lemma MulMonotone(a: int, b: int, k: nat)
    requires a <= b
    ensures a * k <= b * k
  {
    assert b * k - a * k == (b - a) * k;
  }

  lemma DivMonotone(x: int, y: int)
    requires x <= y
    ensures x / 100 <= y / 100
  {
  }

  /** Interior interpolation points (the end points are part of `Remap`'s contract). */
  lemma RemapExamples()
    ensures Remap(50, 0, 100) == 50
    ensures Remap(50, 10, 100) == 55
    ensures Remap(10, 0, 100) == 10
  {
  }

  datatype Command = Forward | Reverse | Coast | Stop

  /** The levels of a bridge's two inputs. */
  datatype PinPair = PinPair(in1: Level, in2: Level)

  /** The chip's input table: which input levels select which bridge behaviour. */
  function TruthTable(c: Command): PinPair {
    match c
    case Forward => PinPair(High, Low)
    case Reverse => PinPair(Low, High)
    case Coast => PinPair(Low, Low)
    case Stop => PinPair(High, High)
  }

  /** What the chip does for a given pair of input levels. */
  function Decode(p: PinPair): (c: Command)
    ensures TruthTable(c) == p
  {
    match p
    case PinPair(High, Low) => Forward
    case PinPair(Low, High) => Reverse
    case PinPair(Low, Low) => Coast
    case PinPair(High, High) => Stop
  }

  /** Distinct commands select distinct input pairs. */
  lemma DecodeTruthTable(c: Command)
    ensures Decode(TruthTable(c)) == c
  {
  }

  /** The four commands exhaust the input combinations: whatever levels a bridge's pins are
      left at, they select one of forward, reverse, coast and stop. */
  lemma TruthTableCovers(p: PinPair)
    ensures exists c :: TruthTable(c) == p
  {
    assert TruthTable(Decode(p)) == p;
  }

  /** A bridge driven through two digital output pins. */
  class Bridge {
    const in1: OutputPin
    const in2: OutputPin

    /** The bridge owns two different pins. */
    ghost predicate Valid() {
      in1 != in2
    }

    constructor (in1: OutputPin, in2: OutputPin)
      requires in1 != in2
      ensures this.in1 == in1 && this.in2 == in2 && Valid()
    {
      this.in1 := in1;
      this.in2 := in2;
    }

    function Levels(): PinPair
      reads in1, in2
    {
      PinPair(in1.level, in2.level)
    }

    predicate Faulty()
    {
      in1.fault.Some? || in2.fault.Some?
    }

    /** `in1` was written `target.in1`, and only if that succeeded `in2` was written
        `target.in2`; a failed write leaves its pin's level as it was. */
    twostate predicate Drove(target: PinPair)
      reads in1, in2
    {
      && in1.writes == old(in1.writes) + [target.in1]
      && in1.level == (if in1.fault.None? then target.in1 else old(in1.level))
      && in2.writes == old(in2.writes) + (if in1.fault.None? then [target.in2] else [])
      && in2.level == (if !Faulty() then target.in2 else old(in2.level))
    }

    /** Neither pin was written. */
    twostate predicate Untouched()
      reads in1, in2
    {
      && in1.writes == old(in1.writes) && in1.level == old(in1.level)
      && in2.writes == old(in2.writes) && in2.level == old(in2.level)
    }

    method Forward() returns (r: Status<MotorDriverError>)
      requires Valid()
      modifies in1, in2
      ensures Drove(PinPair(High, Low))
      ensures r == if Faulty() then Err(GpioError) else Ok
      ensures r.Ok? ==> Decode(Levels()) == Command.Forward
    {
      var r1 := in1.SetState(High);
      if r1.Err? {
        return Err(GpioError);
      }
      var r2 := in2.SetState(Low);
      if r2.Err? {
        return Err(GpioError);
      }
      return Ok;
    }

    method Reverse() returns (r: Status<MotorDriverError>)
      requires Valid()
      modifies in1, in2
      ensures Drove(PinPair(Low, High))
      ensures r == if Faulty() then Err(GpioError) else Ok
      ensures r.Ok? ==> Decode(Levels()) == Command.Reverse
    {
      var r1 := in1.SetState(Low);
      if r1.Err? {
        return Err(GpioError);
      }
      var r2 := in2.SetState(High);
      if r2.Err? {
        return Err(GpioError);
      }
      return Ok;
    }

    method Coast() returns (r: Status<MotorDriverError>)
      requires Valid()
      modifies in1, in2
      ensures Drove(PinPair(Low, Low))
      ensures r == if Faulty() then Err(GpioError) else Ok
      ensures r.Ok? ==> Decode(Levels()) == Command.Coast
    {
      var r1 := in1.SetState(Low);
      if r1.Err? {
        return Err(GpioError);
      }
      var r2 := in2.SetState(Low);
      if r2.Err? {
        return Err(GpioError);
      }
      return Ok;
    }

    method Stop() returns (r: Status<MotorDriverError>)
      requires Valid()
      modifies in1, in2
      ensures Drove(PinPair(High, High))
      ensures r == if Faulty() then Err(GpioError) else Ok
      ensures r.Ok? ==> Decode(Levels()) == Command.Stop
    {
      var r1 := in1.SetState(High);
      if r1.Err? {
        return Err(GpioError);
      }
      var r2 := in2.SetState(High);
      if r2.Err? {
        return Err(GpioError);
      }
      return Ok;
    }
  }

  /** `a` and then `b` were driven to `target`, `b` only if every write to `a` succeeded. */
  twostate predicate DroveInTurn(a: Bridge, b: Bridge, target: PinPair)
    reads a.in1, a.in2, b.in1, b.in2
  {
    && a.Drove(target)
    && if a.Faulty() then b.Untouched() else b.Drove(target)
  }

  /** A bridge driven through two PWM channels, with a minimum duty that percentages are
      scaled from. */
  class PwmBridge {
    const in1: PwmChannel
    const in2: PwmChannel
    var minDuty: U16

    ghost predicate Valid() {
      in1 != in2
    }

    constructor (in1: PwmChannel, in2: PwmChannel, minDuty: U16)
      requires in1 != in2
      ensures this.in1 == in1 && this.in2 == in2 && this.minDuty == minDuty && Valid()
    {
      this.in1 := in1;
      this.in2 := in2;
      this.minDuty := minDuty;
    }

    predicate Faulty()
    {
      in1.fault.Some? || in2.fault.Some?
    }

    method SetMinDuty(duty: U16)
      modifies this`minDuty
      ensures minDuty == duty
    {
      minDuty := duty;
    }

    /** Reads `in1`'s maximum, sets `in1` to the remapped duty, then turns `in2` fully off. */
    method Forward(percent: U8) returns (r: Status<MotorDriverError>)
      requires Valid()
      modifies in1, in2
      ensures in1.Attempted([ReadMax(in1.maxDuty)], Remap(percent, minDuty, in1.maxDuty))
      ensures if in1.fault.None? then in2.Attempted([], 0) else in2.Untouched()
      ensures r == if Faulty() then Err(UnableToSetDuty) else Ok
    {
      var max := in1.MaxDutyCycle();
      var duty := Remap(percent, minDuty, max);
      var r1 := in1.SetDutyCycle(duty);
      if r1.Err? {
        return Err(UnableToSetDuty);
      }
      var r2 := in2.SetDutyCycleFullyOff();
      if r2.Err? {
        return Err(UnableToSetDuty);
      }
      return Ok;
    }

    /** Reads `in2`'s maximum, turns `in1` fully off, then sets `in2` to the remapped duty. */
    method Reverse(percent: U8) returns (r: Status<MotorDriverError>)
      requires Valid()
      modifies in1, in2
      ensures in1.Attempted([], 0)
      ensures if in1.fault.None?
              then in2.Attempted([ReadMax(in2.maxDuty)], Remap(percent, minDuty, in2.maxDuty))
              else in2.ops == old(in2.ops) + [ReadMax(in2.maxDuty)] && in2.duty == old(in2.duty)
      ensures r == if Faulty() then Err(UnableToSetDuty) else Ok
    {
      var max := in2.MaxDutyCycle();
      var duty := Remap(percent, minDuty, max);
      var r1 := in1.SetDutyCycleFullyOff();
      if r1.Err? {
        return Err(UnableToSetDuty);
      }
      var r2 := in2.SetDutyCycle(duty);
      if r2.Err? {
        return Err(UnableToSetDuty);
      }
      return Ok;
    }

    method Coast() returns (r: Status<MotorDriverError>)
      requires Valid()
      modifies in1, in2
      ensures in1.Attempted([], 0)
      ensures if in1.fault.None? then in2.Attempted([], 0) else in2.Untouched()
      ensures r == if Faulty() then Err(GpioError) else Ok
    {
      var r1 := in1.SetDutyCycleFullyOff();
      if r1.Err? {
        return Err(GpioError);
      }
      var r2 := in2.SetDutyCycleFullyOff();
      if r2.Err? {
        return Err(GpioError);
      }
      return Ok;
    }

    method Stop() returns (r: Status<MotorDriverError>)
      requires Valid()
      modifies in1, in2
      ensures in1.Attempted([ReadMax(in1.maxDuty)], in1.maxDuty)
      ensures if in1.fault.None? then in2.Attempted([ReadMax(in2.maxDuty)], in2.maxDuty) else in2.Untouched()
      ensures r == if Faulty() then Err(GpioError) else Ok
    {
      var r1 := in1.SetDutyCycleFullyOn();
      if r1.Err? {
        return Err(GpioError);
      }
      var r2 := in2.SetDutyCycleFullyOn();
      if r2.Err? {
        return Err(GpioError);
      }
      return Ok;
    }
  }
}
