/** PWM split mode: two PWM bridges driven independently through the public fields `a`
    (channels in1/in2) and `b` (channels in3/in4). Each bridge keeps its own minimum duty;
    the driver's `SetMinDuty` sets both at once. */
module PwmSplit {
  import opened Hal
  import opened Bridges

  class PwmSplitDriver {
    const a: PwmBridge
    const b: PwmBridge

    ghost predicate Valid() {
      a.Valid() && b.Valid() && a != b && Distinct4(a.in1, a.in2, b.in1, b.in2)
    }

    /** Both bridges start with a minimum duty of 0; no channel is touched. */
    constructor (in1: PwmChannel, in2: PwmChannel, in3: PwmChannel, in4: PwmChannel)
      requires Distinct4(in1, in2, in3, in4)
      ensures a.in1 == in1 && a.in2 == in2 && b.in1 == in3 && b.in2 == in4
      ensures a.minDuty == 0 && b.minDuty == 0
      ensures Valid() && fresh(a) && fresh(b)
      ensures unchanged(in1, in2, in3, in4)
    {
      a := new PwmBridge(in1, in2, 0);
      b := new PwmBridge(in3, in4, 0);
    }

    method SetMinDuty(duty: U16)
      requires Valid()
      modifies a`minDuty, b`minDuty
      ensures a.minDuty == duty && b.minDuty == duty
    {
      a.SetMinDuty(duty);
      b.SetMinDuty(duty);
    }
  }
}
