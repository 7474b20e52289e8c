/** The hardware-abstraction capabilities the driver is written against: digital output
    pins and PWM duty-cycle channels. Each keeps the level or duty it drives, the ordered
    list of operations attempted on it (what a mock of the pin would record), and an
    injected fault: when `fault` is `Some(e)`, every write to it fails with `e`. */
module Hal {

  /** Rust's `u8` and `u16`. */
  type U8 = x: int | 0 <= x < 0x100
  type U16 = x: int | 0 <= x < 0x1_0000

  datatype Option<T> = None | Some(value: T)

  /** The opaque error a pin or channel reports. */
  datatype IoError = IoError(code: nat)

  /** `Result<(), E>`. */
  datatype Status<E> = Ok | Err(error: E)

  datatype Level = Low | High

  /** Four handles that are different objects, as ownership of four pins guarantees. */
  ghost predicate Distinct4(p1: object, p2: object, p3: object, p4: object) {
    p1 != p2 && p1 != p3 && p1 != p4 && p2 != p3 && p2 != p4 && p3 != p4
  }

  /** A digital output pin. A failed write is still recorded but does not change `level`. */
  class OutputPin {
    var level: Level
    var writes: seq<Level>
    const fault: Option<IoError>

    constructor (level: Level, fault: Option<IoError>)
      ensures this.level == level && writes == [] && this.fault == fault
    {
      this.level := level;
      writes := [];
      this.fault := fault;
    }

    method SetState(l: Level) returns (r: Status<IoError>)
      modifies this
      ensures writes == old(writes) + [l]
      ensures level == if fault.None? then l else old(level)
      ensures r == if fault.None? then Ok else Err(fault.value)
    {
      writes := writes + [l];
      if fault.None? {
        level := l;
        r := Ok;
      } else {
        r := Err(fault.value);
      }
    }
  }

  /** One operation as a PWM mock records it. */
  datatype PwmOp = ReadMax(max: U16) | WriteDuty(duty: U16)

  /** A PWM channel with a fixed maximum duty. */
  class PwmChannel {
    const maxDuty: U16
    var duty: U16
    var ops: seq<PwmOp>
    const fault: Option<IoError>

    constructor (maxDuty: U16, fault: Option<IoError>)
      ensures this.maxDuty == maxDuty && duty == 0 && ops == [] && this.fault == fault
    {
      this.maxDuty := maxDuty;
      duty := 0;
      ops := [];
      this.fault := fault;
    }

    /** The channel was asked for `queries` and then set to `d`; the duty took `d` unless the
        channel is faulty. */
    twostate predicate Attempted(queries: seq<PwmOp>, d: U16)
      reads this
    {
      && ops == old(ops) + queries + [WriteDuty(d)]
      && duty == if fault.None? then d else old(duty)
    }

    twostate predicate Untouched()
      reads this
    {
      ops == old(ops) && duty == old(duty)
    }

    method MaxDutyCycle() returns (m: U16)
      modifies this
      ensures m == maxDuty
      ensures ops == old(ops) + [ReadMax(maxDuty)] && duty == old(duty)
    {
      ops := ops + [ReadMax(maxDuty)];
      m := maxDuty;
    }

    method SetDutyCycle(d: U16) returns (r: Status<IoError>)
      modifies this
      ensures Attempted([], d)
      ensures r == if fault.None? then Ok else Err(fault.value)
    {
      ops := ops + [WriteDuty(d)];
      if fault.None? {
        duty := d;
        r := Ok;
      } else {
        r := Err(fault.value);
      }
    }

    method SetDutyCycleFullyOff() returns (r: Status<IoError>)
      modifies this
      ensures Attempted([], 0)
      ensures r == if fault.None? then Ok else Err(fault.value)
    {
      r := SetDutyCycle(0);
    }

    method SetDutyCycleFullyOn() returns (r: Status<IoError>)
      modifies this
      ensures Attempted([ReadMax(maxDuty)], maxDuty)
      ensures r == if fault.None? then Ok else Err(fault.value)
    {
      var m := MaxDutyCycle();
      r := SetDutyCycle(m);
    }
  }
}
