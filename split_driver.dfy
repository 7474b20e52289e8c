/** Split mode: two digital bridges that callers drive independently through the public
    fields `a` (pins in1/in2) and `b` (pins in3/in4). */
module Split {
  import opened Hal
  import opened Bridges

  class SplitDriver {
    const a: Bridge
    const b: Bridge

    /** Both bridges are valid and own four different pins. */
    ghost predicate Valid() {
      a.Valid() && b.Valid() && Distinct4(a.in1, a.in2, b.in1, b.in2)
    }

    /** Wires in1/in2 into `a` and in3/in4 into `b`; no pin is written. */
    constructor (in1: OutputPin, in2: OutputPin, in3: OutputPin, in4: OutputPin)
      requires Distinct4(in1, in2, in3, in4)
      ensures a.in1 == in1 && a.in2 == in2 && b.in1 == in3 && b.in2 == in4
      ensures Valid() && fresh(a) && fresh(b)
      ensures unchanged(in1, in2, in3, in4)
    {
      a := new Bridge(in1, in2);
      b := new Bridge(in3, in4);
    }
  }
}
