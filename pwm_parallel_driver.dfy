/** PWM parallel mode: one PWM channel, shared behind a lock, sets the speed, and two
    digital bridges are then driven the same way, `a` first. */
module PwmParallel {
  import opened Hal
  import opened Errors
  import opened Bridges
  import opened Split

  /** A PWM channel shared behind a mutex. Whether the mutex is poisoned (another holder
      panicked) is fixed when the model is built; locking a poisoned mutex fails. */
  class SharedPwm {
    const channel: PwmChannel
    const poisoned: bool

    constructor (channel: PwmChannel, poisoned: bool)
      ensures this.channel == channel && this.poisoned == poisoned
    {
      this.channel := channel;
      this.poisoned := poisoned;
    }
  }

  /** The duty written for an in-range percentage: 0 is fully off, 100 fully on, and any
      other value is remapped between the minimum duty and the channel's maximum. */
  function DutyFor(percent: U8, minDuty: U16, maxDuty: U16): (d: U16)
    requires percent <= 100
    ensures percent == 0 ==> d == 0
    ensures percent == 100 ==> d == maxDuty
    ensures minDuty <= maxDuty ==> d <= maxDuty && (percent != 0 ==> minDuty <= d)
    ensures maxDuty < minDuty && 0 < percent < 100 ==> maxDuty <= d <= minDuty
  {
    if percent == 0 then 0
    else if percent == 100 then maxDuty
    else Remap(percent, minDuty, maxDuty)
  }

  /** Apart from 0, which must switch the motor off rather than run it at the minimum duty,
      the special cases agree with plain remapping. */
  lemma DutyForIsRemap(percent: U8, minDuty: U16, maxDuty: U16)
    requires 0 < percent <= 100
    ensures DutyFor(percent, minDuty, maxDuty) == Remap(percent, minDuty, maxDuty)
  {
  }

  /** When the minimum duty does not exceed the channel maximum, a larger percentage never gives
      a smaller duty. */
  lemma DutyForMonotone(p1: U8, p2: U8, minDuty: U16, maxDuty: U16)
    requires p1 <= p2 <= 100 && minDuty <= maxDuty
    ensures DutyFor(p1, minDuty, maxDuty) <= DutyFor(p2, minDuty, maxDuty)
  {
    if 0 < p1 {
      RemapMonotone(p1, p2, minDuty, maxDuty);
    }
  }

  /** A minimum above the channel's maximum is not rejected: 1% then writes a duty above the
      maximum, and 99% writes a smaller duty than 1% does. */
  lemma DutyForAboveMaximum()
    ensures DutyFor(1, 200, 100) == 199
    ensures DutyFor(99, 200, 100) == 101
  {
  }

  /** A minimum just above the maximum: the truncation lands on the maximum itself, so every
      percentage strictly between 0 and 100 writes exactly the maximum. */
  lemma DutyForJustAboveMaximum(percent: U8, maxDuty: U16)
    requires 0 < percent < 100 && maxDuty < 0xFFFF
    ensures DutyFor(percent, maxDuty + 1, maxDuty) == maxDuty
  {
    assert percent * (maxDuty - (maxDuty + 1)) == -(percent as int);
    assert -(percent as int) / 100 == -1;
  }

  /** The duties written by the crate's PWM test sequence on a channel of maximum 100. */
  lemma DutyForExamples()
    ensures DutyFor(50, 0, 100) == 50 && DutyFor(10, 0, 100) == 10
  {
  }

  class PwmParallelDriver {
    const pwm: SharedPwm
    const split: SplitDriver
    var minDuty: U16

    ghost predicate Valid() {
      split.Valid()
    }

    /** Wires the pins into a split driver and keeps the shared channel; the minimum duty
        starts at 0 and nothing is written. */
    constructor (in1: OutputPin, in2: OutputPin, in3: OutputPin, in4: OutputPin, pwm: SharedPwm)
      requires Distinct4(in1, in2, in3, in4)
      ensures this.pwm == pwm && minDuty == 0
      ensures split.a.in1 == in1 && split.a.in2 == in2 && split.b.in1 == in3 && split.b.in2 == in4
      ensures Valid() && fresh(split) && fresh(split.a) && fresh(split.b)
      ensures unchanged(in1, in2, in3, in4, pwm, pwm.channel)
    {
      this.pwm := pwm;
      minDuty := 0;
      split := new SplitDriver(in1, in2, in3, in4);
    }

    method SetMinDuty(duty: U16)
      modifies this`minDuty
      ensures minDuty == duty
    {
      minDuty := duty;
    }

    /** What setting `percent` reports: a range error first, then a poisoned lock, then a
        failing channel. */
    function DutyStatus(percent: U8): Status<MotorDriverError>
    {
      if percent > 100 then Err(InvalidRange)
      else if pwm.poisoned then Err(PwmLocked)
      else if pwm.channel.fault.Some? then Err(UnableToSetDuty)
      else Ok
    }

    /** The channel is untouched unless the percentage is in range and the lock is taken;
        then the maximum is read unless the percentage is 0, and `DutyFor` is written. */
    twostate predicate DutyWritten(percent: U8)
      reads this, pwm, pwm.channel
    {
      if percent > 100 || pwm.poisoned then pwm.channel.Untouched()
      else pwm.channel.Attempted(if percent == 0 then [] else [ReadMax(pwm.channel.maxDuty)],
                                 DutyFor(percent, minDuty, pwm.channel.maxDuty))
    }

    method SetDutyCyclePercent(percent: U8) returns (r: Status<MotorDriverError>)
      modifies pwm.channel
      ensures r == DutyStatus(percent)
      ensures DutyWritten(percent)
    {
      if percent > 100 {
        return Err(InvalidRange);
      }
      if pwm.poisoned {
        return Err(PwmLocked);
      }
      var result;
      if percent == 0 {
        result := pwm.channel.SetDutyCycleFullyOff();
      } else if percent == 100 {
        result := pwm.channel.SetDutyCycleFullyOn();
      } else {
        var max := pwm.channel.MaxDutyCycle();
        var remapped := Remap(percent, minDuty, max);
        result := pwm.channel.SetDutyCycle(remapped);
      }
      if result.Err? {
        return Err(UnableToSetDuty);
      }
      return Ok;
    }

    /** The duty for `percent` was written as `DutyWritten` says; if that failed, its error
        is returned and no pin was written, otherwise both bridges were driven to `target`
        in turn. */
    twostate predicate DroveAfterDuty(percent: U8, target: PinPair, new r: Status<MotorDriverError>)
      reads this, pwm, pwm.channel, split.a.in1, split.a.in2, split.b.in1, split.b.in2
    {
      && DutyWritten(percent)
      && if DutyStatus(percent).Err? then
           r == DutyStatus(percent) && split.a.Untouched() && split.b.Untouched()
         else
           && DroveInTurn(split.a, split.b, target)
           && r == if split.a.Faulty() || split.b.Faulty() then Err(GpioError) else Ok
    }

    method Forward(percent: U8) returns (r: Status<MotorDriverError>)
      requires Valid()
      modifies pwm.channel, split.a.in1, split.a.in2, split.b.in1, split.b.in2
      ensures DroveAfterDuty(percent, PinPair(High, Low), r)
      ensures r.Ok? ==> split.a.Levels() == split.b.Levels() == TruthTable(Command.Forward)
    {
      r := SetDutyCyclePercent(percent);
      if r.Err? {
        return;
      }
      r := split.a.Forward();
      if r.Err? {
        return;
      }
      r := split.b.Forward();
    }

    method Reverse(percent: U8) returns (r: Status<MotorDriverError>)
      requires Valid()
      modifies pwm.channel, split.a.in1, split.a.in2, split.b.in1, split.b.in2
      ensures DroveAfterDuty(percent, PinPair(Low, High), r)
      ensures r.Ok? ==> split.a.Levels() == split.b.Levels() == TruthTable(Command.Reverse)
    {
      r := SetDutyCyclePercent(percent);
      if r.Err? {
        return;
      }
      r := split.a.Reverse();
      if r.Err? {
        return;
      }
      r := split.b.Reverse();
    }

    /** Turns the shared channel fully off, then coasts both bridges. */
    method Coast() returns (r: Status<MotorDriverError>)
      requires Valid()
      modifies pwm.channel, split.a.in1, split.a.in2, split.b.in1, split.b.in2
      ensures DroveAfterDuty(0, PinPair(Low, Low), r)
      ensures r.Ok? ==> pwm.channel.duty == 0
      ensures r.Ok? ==> split.a.Levels() == split.b.Levels() == TruthTable(Command.Coast)
    {
      r := SetDutyCyclePercent(0);
      if r.Err? {
        return;
      }
      r := split.a.Coast();
      if r.Err? {
        return;
      }
      r := split.b.Coast();
    }

    /** Turns the shared channel fully on, then brakes both bridges. */
    method Stop() returns (r: Status<MotorDriverError>)
      requires Valid()
      modifies pwm.channel, split.a.in1, split.a.in2, split.b.in1, split.b.in2
      ensures DroveAfterDuty(100, PinPair(High, High), r)
      ensures r.Ok? ==> pwm.channel.duty == pwm.channel.maxDuty
      ensures r.Ok? ==> split.a.Levels() == split.b.Levels() == TruthTable(Command.Stop)
    {
      r := SetDutyCyclePercent(100);
      if r.Err? {
        return;
      }
      r := split.a.Stop();
      if r.Err? {
        return;
      }
      r := split.b.Stop();
    }
  }
}
