/** Parallel mode: two digital bridges always driven the same way, `a` first. */
module Parallel {
  import opened Hal
  import opened Errors
  import opened Bridges

  class ParallelDriver {
    const a: Bridge
    const b: Bridge

    ghost predicate Valid() {
      a.Valid() && b.Valid() && Distinct4(a.in1, a.in2, b.in1, b.in2)
    }

    predicate Faulty()
    {
      a.Faulty() || b.Faulty()
    }

    /** Wires in1/in2 into `a` and in3/in4 into `b`; no pin is written. */
    constructor (in1: OutputPin, in2: OutputPin, in3: OutputPin, in4: OutputPin)
      requires Distinct4(in1, in2, in3, in4)
      ensures a.in1 == in1 && a.in2 == in2 && b.in1 == in3 && b.in2 == in4
      ensures Valid() && fresh(a) && fresh(b)
      ensures unchanged(in1, in2, in3, in4)
    {
      a := new Bridge(in1, in2);
      b := new Bridge(in3, in4);
    }

    method Forward() returns (r: Status<MotorDriverError>)
      requires Valid()
      modifies a.in1, a.in2, b.in1, b.in2
      ensures DroveInTurn(a, b, PinPair(High, Low))
      ensures r == if Faulty() then Err(GpioError) else Ok
      ensures r.Ok? ==> a.Levels() == b.Levels() == TruthTable(Command.Forward)
    {
      r := a.Forward();
      if r.Err? {
        return;
      }
      r := b.Forward();
    }

    method Reverse() returns (r: Status<MotorDriverError>)
      requires Valid()
      modifies a.in1, a.in2, b.in1, b.in2
      ensures DroveInTurn(a, b, PinPair(Low, High))
      ensures r == if Faulty() then Err(GpioError) else Ok
      ensures r.Ok? ==> a.Levels() == b.Levels() == TruthTable(Command.Reverse)
    {
      r := a.Reverse();
      if r.Err? {
        return;
      }
      r := b.Reverse();
    }

    method Coast() returns (r: Status<MotorDriverError>)
      requires Valid()
      modifies a.in1, a.in2, b.in1, b.in2
      ensures DroveInTurn(a, b, PinPair(Low, Low))
      ensures r == if Faulty() then Err(GpioError) else Ok
      ensures r.Ok? ==> a.Levels() == b.Levels() == TruthTable(Command.Coast)
    {
      r := a.Coast();
      if r.Err? {
        return;
      }
      r := b.Coast();
    }

    method Stop() returns (r: Status<MotorDriverError>)
      requires Valid()
      modifies a.in1, a.in2, b.in1, b.in2
      ensures DroveInTurn(a, b, PinPair(High, High))
      ensures r == if Faulty() then Err(GpioError) else Ok
      ensures r.Ok? ==> a.Levels() == b.Levels() == TruthTable(Command.Stop)
    {
      r := a.Stop();
      if r.Err? {
        return;
      }
      r := b.Stop();
    }
  }
}
