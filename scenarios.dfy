/** The crate's own test sequences, replayed on fresh pins, plus two additional scenarios for
    error paths the tests do not exercise (`ParallelFailFast`, `PwmParallelOutOfRange`): each
    method returns what every pin recorded and the result of every call. */
module Scenarios {
  import opened Hal
  import opened Errors
  import opened Bridges
  import opened Split
  import opened Parallel
  import opened PwmSplit
  import opened PwmParallel
  import opened Drv8833

  /** Verification aid, not part of the driver: appending one element at a time to the empty
      sequence builds the literal, which lets the scenarios compare pin logs with literals
      cheaply. */
  lemma Snoc<T>(a: T, b: T, c: T, d: T)
    ensures [] + [a] == [a]
    ensures [a] + [b] == [a, b]
    ensures [a, b] + [c] == [a, b, c]
    ensures [a, b, c] + [d] == [a, b, c, d]
  {
  }

  /** Verification aid: appending nothing leaves a sequence as it is. */
  lemma AppendEmpty<T>(s: seq<T>)
    ensures s + [] == s
  {
  }

  /** Verification aid: the append chain the channel contracts produce for a remapped write,
      a fully-off write (no maximum read, hence the empty query), a remapped write and a
      fully-on write, flattened to a literal. */
  lemma OpChain<T>(a: T, b: T, c: T, d: T, e: T, f: T, g: T)
    ensures [] + [a] + [b] + [] + [c] + [d] + [e] + [f] + [g] == [a, b, c, d, e, f, g]
  {
  }

  /** Wake, forward, coast, reverse, stop and sleep in parallel mode: both bridges see the
      same writes. */
  method ParallelSequence() returns (w1: seq<Level>, w2: seq<Level>, w3: seq<Level>, w4: seq<Level>,
                                     ws: seq<Level>, results: seq<Status<MotorDriverError>>)
    ensures w1 == [High, Low, Low, High] && w2 == [Low, Low, High, High]
    ensures w3 == w1 && w4 == w2
    ensures ws == [High, Low]
    ensures results == [Ok, Ok, Ok, Ok, Ok, Ok]
  {
    var in1 := new OutputPin(Low, None);
    var in2 := new OutputPin(Low, None);
    var in3 := new OutputPin(Low, None);
    var in4 := new OutputPin(Low, None);
    var sleep := new OutputPin(Low, None);
    var motor := NewParallel(in1, in2, in3, in4, sleep);
    var r0 := motor.Wakeup();
    var inner := motor.DerefMut();
    var r1 := inner.Forward();
    var r2 := inner.Coast();
    var r3 := inner.Reverse();
    var r4 := inner.Stop();
    var r5 := motor.Sleep();
    Snoc(High, Low, Low, High);
    Snoc(Low, Low, High, High);
    w1, w2, w3, w4, ws := in1.writes, in2.writes, in3.writes, in4.writes, sleep.writes;
    results := [r0, r1, r2, r3, r4, r5];
  }

  /** In parallel mode a failing in1 aborts `Forward`: in2 is not written and bridge `b`
      is left alone. */
  method ParallelFailFast() returns (w1: seq<Level>, w2: seq<Level>, w3: seq<Level>, w4: seq<Level>,
                                     r: Status<MotorDriverError>)
    ensures w1 == [High] && w2 == [] && w3 == [] && w4 == []
    ensures r == Err(GpioError)
  {
    var in1 := new OutputPin(Low, Some(IoError(5)));
    var in2 := new OutputPin(Low, None);
    var in3 := new OutputPin(Low, None);
    var in4 := new OutputPin(Low, None);
    var motor := new ParallelDriver(in1, in2, in3, in4);
    r := motor.Forward();
    w1, w2, w3, w4 := in1.writes, in2.writes, in3.writes, in4.writes;
  }

  /** Wake, `a` forward, `b` reverse, `a` coast, `b` stop, sleep: each bridge sees only its
      own commands. */
  method SplitSequence() returns (w1: seq<Level>, w2: seq<Level>, w3: seq<Level>, w4: seq<Level>,
                                  ws: seq<Level>, results: seq<Status<MotorDriverError>>)
    ensures w1 == [High, Low] && w2 == [Low, Low]
    ensures w3 == [Low, High] && w4 == [High, High]
    ensures ws == [High, Low]
    ensures results == [Ok, Ok, Ok, Ok, Ok, Ok]
  {
    var in1 := new OutputPin(Low, None);
    var in2 := new OutputPin(Low, None);
    var in3 := new OutputPin(Low, None);
    var in4 := new OutputPin(Low, None);
    var sleep := new OutputPin(Low, None);
    var motor := NewSync(in1, in2, in3, in4, sleep);
    var r0 := motor.Wakeup();
    var inner := motor.DerefMut();
    var r1 := inner.a.Forward();
    var r2 := inner.b.Reverse();
    var r3 := inner.a.Coast();
    var r4 := inner.b.Stop();
    var r5 := motor.Sleep();
    Snoc(High, Low, Low, High);
    Snoc(Low, Low, High, High);
    Snoc(Low, High, Low, Low);
    Snoc(High, High, Low, Low);
    w1, w2, w3, w4, ws := in1.writes, in2.writes, in3.writes, in4.writes, sleep.writes;
    results := [r0, r1, r2, r3, r4, r5];
  }

  /** `a` forward at 50%, `b` reverse at 10%, `a` coast, `b` stop, on channels whose maximum
      duty is 100. */
  method PwmSplitSequence() returns (o1: seq<PwmOp>, o2: seq<PwmOp>, o3: seq<PwmOp>, o4: seq<PwmOp>,
                                     results: seq<Status<MotorDriverError>>)
    ensures o1 == [ReadMax(100), WriteDuty(50), WriteDuty(0)]
    ensures o2 == [WriteDuty(0), WriteDuty(0)]
    ensures o3 == [WriteDuty(0), ReadMax(100), WriteDuty(100)]
    ensures o4 == [ReadMax(100), WriteDuty(10), ReadMax(100), WriteDuty(100)]
    ensures results == [Ok, Ok, Ok, Ok]
  {
    var in1 := new PwmChannel(100, None);
    var in2 := new PwmChannel(100, None);
    var in3 := new PwmChannel(100, None);
    var in4 := new PwmChannel(100, None);
    var motor := new PwmSplitDriver(in1, in2, in3, in4);
    var r1 := motor.a.Forward(50);
    var r2 := motor.b.Reverse(10);
    var r3 := motor.a.Coast();
    var r4 := motor.b.Stop();
    Snoc(ReadMax(100), WriteDuty(50), WriteDuty(0), WriteDuty(0));
    Snoc(WriteDuty(0), WriteDuty(0), WriteDuty(0), WriteDuty(0));
    Snoc(WriteDuty(0), ReadMax(100), WriteDuty(100), WriteDuty(0));
    Snoc(ReadMax(100), WriteDuty(10), ReadMax(100), WriteDuty(100));
    AppendEmpty<PwmOp>([]);
    AppendEmpty([ReadMax(100), WriteDuty(50)]);
    AppendEmpty([WriteDuty(0)]);
    o1, o2, o3, o4 := in1.ops, in2.ops, in3.ops, in4.ops;
    results := [r1, r2, r3, r4];
  }

  /** Forward at 50%, coast, reverse at 10%, stop, with one shared channel of maximum 100:
      both bridges see the same writes and the channel records every duty. */
  method PwmParallelSequence() returns (w1: seq<Level>, w2: seq<Level>, w3: seq<Level>, w4: seq<Level>,
                                        ops: seq<PwmOp>, results: seq<Status<MotorDriverError>>)
    ensures w1 == [High, Low, Low, High] && w2 == [Low, Low, High, High]
    ensures w3 == w1 && w4 == w2
    ensures ops == [ReadMax(100), WriteDuty(50), WriteDuty(0), ReadMax(100), WriteDuty(10),
                    ReadMax(100), WriteDuty(100)]
    ensures results == [Ok, Ok, Ok, Ok]
  {
    var in1 := new OutputPin(Low, None);
    var in2 := new OutputPin(Low, None);
    var in3 := new OutputPin(Low, None);
    var in4 := new OutputPin(Low, None);
    var channel := new PwmChannel(100, None);
    var pwm := new SharedPwm(channel, false);
    var motor := new PwmParallelDriver(in1, in2, in3, in4, pwm);
    var r1 := motor.Forward(50);
    var r2 := motor.Coast();
    var r3 := motor.Reverse(10);
    var r4 := motor.Stop();
    Snoc(High, Low, Low, High);
    Snoc(Low, Low, High, High);
    DutyForExamples();
    OpChain(ReadMax(100), WriteDuty(50), WriteDuty(0), ReadMax(100), WriteDuty(10),
            ReadMax(100), WriteDuty(100));
    w1, w2, w3, w4, ops := in1.writes, in2.writes, in3.writes, in4.writes, channel.ops;
    results := [r1, r2, r3, r4];
  }

  /** A percentage above 100 is refused before the lock is taken or anything is written. */
  method PwmParallelOutOfRange() returns (w1: seq<Level>, w2: seq<Level>, w3: seq<Level>, w4: seq<Level>,
                                          ops: seq<PwmOp>, r: Status<MotorDriverError>)
    ensures w1 == [] && w2 == [] && w3 == [] && w4 == [] && ops == []
    ensures r == Err(InvalidRange)
  {
    var in1 := new OutputPin(Low, None);
    var in2 := new OutputPin(Low, None);
    var in3 := new OutputPin(Low, None);
    var in4 := new OutputPin(Low, None);
    var channel := new PwmChannel(100, None);
    var pwm := new SharedPwm(channel, true);
    var motor := new PwmParallelDriver(in1, in2, in3, in4, pwm);
    r := motor.Forward(150);
    w1, w2, w3, w4, ops := in1.writes, in2.writes, in3.writes, in4.writes, channel.ops;
  }
}
