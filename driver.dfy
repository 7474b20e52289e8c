/** The chip-level wrapper: an inner driver for one of the wiring modes plus the sleep pin
    that puts the whole chip in standby. */
module Drv8833 {
  import opened Hal
  import opened Errors
  import opened Split
  import opened Parallel

  class Drv8833Driver<D> {
    const driver: D
    const sleepPin: OutputPin
    /** The bridge pins the inner driver owns. */
    ghost const bridgePins: set<OutputPin>

    /** The sleep pin is not one of the bridge pins. */
    ghost predicate Valid() {
      sleepPin !in bridgePins
    }

    /** `bridgePins` must list the inner driver's pins for the frames of `Sleep` and `Wakeup`
        to say anything about them; the generic wrapper cannot check this, and only `NewSync`
        and `NewParallel` establish it. */
    constructor (driver: D, sleepPin: OutputPin, ghost bridgePins: set<OutputPin>)
      requires sleepPin !in bridgePins
      ensures this.driver == driver && this.sleepPin == sleepPin
      ensures this.bridgePins == bridgePins && Valid()
    {
      this.driver := driver;
      this.sleepPin := sleepPin;
      this.bridgePins := bridgePins;
    }

    /** Shared access to the inner driver. */
    function Deref(): (d: D)
      ensures d == driver
    {
      driver
    }

    /** Mutable access to the inner driver: the same object, through which callers drive
        the bridges. */
    method DerefMut() returns (d: D)
      ensures d == driver
    {
      d := driver;
    }

    /** Drives the sleep pin low; a failing write is reported with its own error. */
    method Sleep() returns (r: Status<MotorDriverError>)
      requires Valid()
      modifies sleepPin
      ensures sleepPin.writes == old(sleepPin.writes) + [Low]
      ensures sleepPin.level == if sleepPin.fault.None? then Low else old(sleepPin.level)
      ensures r == if sleepPin.fault.None? then Ok else Err(EspError(sleepPin.fault.value))
      ensures unchanged(bridgePins)
    {
      var e := sleepPin.SetState(Low);
      r := if e.Ok? then Ok else Err(EspError(e.error));
    }

    /** Drives the sleep pin high; a failing write is reported with its own error. */
    method Wakeup() returns (r: Status<MotorDriverError>)
      requires Valid()
      modifies sleepPin
      ensures sleepPin.writes == old(sleepPin.writes) + [High]
      ensures sleepPin.level == if sleepPin.fault.None? then High else old(sleepPin.level)
      ensures r == if sleepPin.fault.None? then Ok else Err(EspError(sleepPin.fault.value))
      ensures unchanged(bridgePins)
    {
      var e := sleepPin.SetState(High);
      r := if e.Ok? then Ok else Err(EspError(e.error));
    }

    /** Reports a fault unconditionally, reading no pin. */
    function IsFault(): (faulty: bool)
      ensures faulty
    {
      true
    }
  }

  /** Builds the chip driver over two independently driven bridges; nothing is written. */
  method NewSync(in1: OutputPin, in2: OutputPin, in3: OutputPin, in4: OutputPin, sleep: OutputPin)
    returns (m: Drv8833Driver<SplitDriver>)
    requires Distinct4(in1, in2, in3, in4) && sleep !in {in1, in2, in3, in4}
    ensures fresh(m) && fresh(m.driver) && m.driver.Valid() && m.Valid()
    ensures m.driver.a.in1 == in1 && m.driver.a.in2 == in2
    ensures m.driver.b.in1 == in3 && m.driver.b.in2 == in4
    ensures m.sleepPin == sleep && m.bridgePins == {in1, in2, in3, in4}
    ensures unchanged(in1, in2, in3, in4, sleep)
  {
    var driver := new SplitDriver(in1, in2, in3, in4);
    m := new Drv8833Driver(driver, sleep, {in1, in2, in3, in4});
  }

  /** Builds the chip driver over two bridges driven as one; nothing is written. */
  method NewParallel(in1: OutputPin, in2: OutputPin, in3: OutputPin, in4: OutputPin, sleep: OutputPin)
    returns (m: Drv8833Driver<ParallelDriver>)
    requires Distinct4(in1, in2, in3, in4) && sleep !in {in1, in2, in3, in4}
    ensures fresh(m) && fresh(m.driver) && m.driver.Valid() && m.Valid()
    ensures m.driver.a.in1 == in1 && m.driver.a.in2 == in2
    ensures m.driver.b.in1 == in3 && m.driver.b.in2 == in4
    ensures m.sleepPin == sleep && m.bridgePins == {in1, in2, in3, in4}
    ensures unchanged(in1, in2, in3, in4, sleep)
  {
    var driver := new ParallelDriver(in1, in2, in3, in4);
    m := new Drv8833Driver(driver, sleep, {in1, in2, in3, in4});
  }
}
