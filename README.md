# DRV8833 motor driver — a Dafny model

This project models the pin-level behaviour of the `drv8833-driver` Rust crate, a driver for a
dual H-bridge motor chip. Every motor operation in the crate is a short, fixed sequence of
fallible writes to digital output pins or PWM duty-cycle channels. A failing write aborts the
rest of the sequence (`?`).

The model keeps that shape:

- `Hal` — the two hardware capabilities the crate is written against.
  - `OutputPin` and `PwmChannel` are classes. Each holds its level or duty and the ordered log of
    operations attempted on it, which is what a mock pin records.
  - Each also holds an injected fault. A write to a faulty pin is logged, leaves the level or duty
    as it was, and reports the fault's error.
  - A fully-on write reads the channel's maximum and then writes it. A fully-off write writes 0.
- `Errors` — the error variants the crate's files use.
- `Bridges` — the percentage-to-duty `Remap` function, the chip's input truth table, and the
  `Bridge` and `PwmBridge` classes.
  - `Bridge` maps forward, reverse, coast and stop onto two digital pins: H/L, L/H, L/L and H/H.
  - `PwmBridge` does the same over two PWM channels.
- `Split`, `Parallel`, `PwmSplit`, `PwmParallel` — the wiring modes.
  - Split: two independent bridges.
  - Parallel: two bridges driven the same way, `a` first.
  - PWM split: two PWM bridges, each with its own minimum duty; the driver's `set_min_duty`
    sets both at once, and either bridge's own `set_min_duty` sets it alone.
  - PWM parallel: one shared PWM channel behind a lock that sets the speed, then two digital
    bridges.
- `Drv8833` — the chip wrapper: an inner driver, a sleep pin, `sleep`, `wakeup`, `is_fault`,
  deref and the two constructors the crate defines.
- `Scenarios` — the crate's test sequences replayed on fresh pins, each stating as its
  postcondition the transactions the test's mocks expect (the PWM-split one leaves out the
  sleep pin, see below). Two additional scenarios, `ParallelFailFast` and
  `PwmParallelOutOfRange`, are not crate tests: they exercise the fail-fast and range-error
  paths.

Contracts state each operation's full effect on every pin it owns:

- which writes were attempted and in what order;
- the new levels or duties;
- which error is returned;
- that nothing is written after the first failure.

Pins are distinct objects, as Rust ownership guarantees, so the `modifies` clauses also show that
an operation on one bridge leaves the other bridge's pins unchanged.

Three behaviours of the code are worth stating outright:

- `PwmBridge.forward`/`reverse` do no range check on the percentage. The model remaps any `u8`
  and saturates to `u16`, as `as u16` does. Only the PWM-parallel driver rejects a percentage
  above 100 (`InvalidRange`, src/pwm_parallel_driver.rs:59-61).
- `is_fault` returns `true` unconditionally and reads no pin, although the crate's
  documentation describes the chip's fault output (src/lib.rs:3) and no fault pin is held.
- Neither `PwmBridge` nor the PWM-parallel driver checks the minimum duty against the
  channel's maximum. With a minimum above the maximum, percentages strictly between 0 and 100
  write duties between the two, that is at or above the channel's maximum, and from 1% to 100%
  duties never rise as the percentage rises (`PwmParallel.DutyFor`,
  `PwmParallel.DutyForIsRemap`, `Bridges.RemapMonotone`). With minimum
  200 and maximum 100, 1% writes 199 and 99% writes 101 (`PwmParallel.DutyForAboveMaximum`);
  with the minimum one above the maximum, every percentage from 1 to 99 writes exactly the
  maximum (`PwmParallel.DutyForJustAboveMaximum`).

## Model

| member | source | states |
|---|---|---|
| Bridges.Remap | src/bridge.rs:6-12 | 0% gives `min`, 100% gives `max`, and for percentages up to 100 the duty lies between `min` and `max` (in either order) |
| Bridges.RemapMonotone | src/bridge.rs:6-12 | a larger percentage moves the duty towards `max`: non-decreasing when `min <= max`, non-increasing otherwise |
| Bridges.RemapExamples | src/bridge.rs:6-12 | 50% of 0..100 is 50, 50% of 10..100 is 55, 10% of 0..100 is 10 |
| Bridges.Decode | src/bridge.rs:82-111 | the command decoded from a pin pair is the one whose truth-table row is that pair |
| Bridges.DecodeTruthTable | src/bridge.rs:82-111 | decoding a command's truth-table row gives the command back, so the four rows are distinct |
| Bridges.TruthTableCovers | src/bridge.rs:82-111 | every pair of input levels is the row of some command, so the four operations cover every pin state |
| Bridges.Bridge.constructor | src/bridge.rs:114-118 | stores the two pins and writes neither |
| Bridges.Bridge.Forward | src/bridge.rs:99-104 | writes in1 high, then in2 low only if in1 succeeded; `GpioError` on any failure; on success the pins decode to forward |
| Bridges.Bridge.Reverse | src/bridge.rs:106-111 | writes in1 low, then in2 high only if in1 succeeded; `GpioError` on any failure; on success the pins decode to reverse |
| Bridges.Bridge.Coast | src/bridge.rs:83-88 | writes both pins low in order, fail-fast, whatever their prior levels; on success the pins decode to coast |
| Bridges.Bridge.Stop | src/bridge.rs:90-95 | writes both pins high in order, fail-fast, whatever their prior levels; on success the pins decode to stop |
| Bridges.PwmBridge.constructor | src/bridge.rs:120-126 | stores both channels and the minimum duty without touching either channel |
| Bridges.PwmBridge.SetMinDuty | src/bridge.rs:128-130 | sets the minimum duty and changes nothing else |
| Bridges.PwmBridge.Forward | src/bridge.rs:26-40 | reads in1's maximum, writes `Remap(percent, minDuty, max)` to in1, then (only if that succeeded) sets in2 fully off; `UnableToSetDuty` on failure |
| Bridges.PwmBridge.Reverse | src/bridge.rs:42-56 | reads in2's maximum first, sets in1 fully off, then (only if that succeeded) writes the remapped duty to in2; `UnableToSetDuty` on failure |
| Bridges.PwmBridge.Coast | src/bridge.rs:60-72 | sets in1 and then in2 fully off, fail-fast; `GpioError` on failure |
| Bridges.PwmBridge.Stop | src/bridge.rs:74-79 | sets in1 and then in2 fully on (read maximum, write it), fail-fast; `GpioError` on failure |
| Parallel.ParallelDriver.constructor | src/parallel_driver.rs:76-81 | wires in1/in2 into bridge `a` and in3/in4 into `b`, with no pin written |
| Parallel.ParallelDriver.Forward | src/parallel_driver.rs:32-37 | drives `a` forward and then `b`; if `a` fails `b` is untouched and `GpioError` is returned; on success both pin pairs equal the forward row |
| Parallel.ParallelDriver.Reverse | src/parallel_driver.rs:39-44 | as forward, with the reverse row |
| Parallel.ParallelDriver.Coast | src/parallel_driver.rs:54-59 | as forward, with all four pins low on success |
| Parallel.ParallelDriver.Stop | src/parallel_driver.rs:61-66 | as forward, with all four pins high on success |
| Split.SplitDriver.constructor | src/split_driver.rs:18-23 | wires in1/in2 into `a` and in3/in4 into `b` over four distinct pins, writing none; each bridge then modifies only its own two pins |
| PwmSplit.PwmSplitDriver.constructor | src/pwm_split_driver.rs:10-15 | builds both PWM bridges with minimum duty 0 and touches no channel |
| PwmSplit.PwmSplitDriver.SetMinDuty | src/pwm_split_driver.rs:21-24 | sets both bridges' minimum duty and nothing else |
| PwmParallel.DutyFor | src/pwm_parallel_driver.rs:65-73 | 0% writes 0 and 100% writes the channel maximum; when the minimum duty does not exceed the maximum, any in-range percentage gives a duty no greater than the maximum and, unless 0, no less than the minimum; when the minimum exceeds the maximum, percentages strictly between 0 and 100 give a duty between the maximum and the minimum |
| PwmParallel.DutyForAboveMaximum | src/pwm_parallel_driver.rs:54-56 | after the minimum duty is set to 200 on a channel of maximum 100, 1% writes 199, above the maximum, and 99% writes 101, less than 1% does |
| PwmParallel.DutyForJustAboveMaximum | src/pwm_parallel_driver.rs:65-73 | with the minimum duty one above the channel maximum, every percentage from 1 to 99 writes exactly the maximum |
| PwmParallel.DutyForIsRemap | src/pwm_parallel_driver.rs:65-73 | apart from 0, the special cases agree with remapping |
| PwmParallel.DutyForMonotone | src/pwm_parallel_driver.rs:65-73 | when the minimum duty does not exceed the channel maximum, a larger percentage never writes a smaller duty |
| PwmParallel.DutyForExamples | src/pwm_parallel_driver.rs:175-183 | 50% and 10% of a 0..100 channel write 50 and 10 |
| PwmParallel.PwmParallelDriver.constructor | src/pwm_parallel_driver.rs:29-35 | wires the split bridges, keeps the shared channel, starts with minimum duty 0 and writes nothing |
| PwmParallel.PwmParallelDriver.SetMinDuty | src/pwm_parallel_driver.rs:54-56 | sets the minimum duty and nothing else |
| PwmParallel.PwmParallelDriver.SetDutyCyclePercent | src/pwm_parallel_driver.rs:58-78 | above 100 gives `InvalidRange` with the channel untouched; a poisoned lock gives `PwmLocked` with the channel untouched; otherwise writes `DutyFor` (with a maximum read unless 0) and reports a failed write as `UnableToSetDuty` |
| PwmParallel.PwmParallelDriver.Forward | src/pwm_parallel_driver.rs:89-96 | sets the duty first; if that fails its error is returned and no pin is written; otherwise `a` then `b` are driven forward, fail-fast, ending with equal pin pairs |
| PwmParallel.PwmParallelDriver.Reverse | src/pwm_parallel_driver.rs:98-105 | as forward, in reverse |
| PwmParallel.PwmParallelDriver.Coast | src/pwm_parallel_driver.rs:116-123 | duty 0 first, then both bridges coast; on success the channel's duty is 0 |
| PwmParallel.PwmParallelDriver.Stop | src/pwm_parallel_driver.rs:125-132 | full duty first, then both bridges stop; on success the channel's duty is its maximum |
| Drv8833.Drv8833Driver.constructor | src/driver.rs:11-18 | stores the inner driver and a sleep pin that is not one of the bridge pins |
| Drv8833.Drv8833Driver.Deref | src/driver.rs:27-29 | returns the inner driver itself |
| Drv8833.Drv8833Driver.DerefMut | src/driver.rs:37-39 | returns the inner driver itself, changing nothing |
| Drv8833.Drv8833Driver.Sleep | src/driver.rs:104-106 | writes the sleep pin low, wraps a failure as `EspError(e)`, and leaves every bridge pin unchanged |
| Drv8833.Drv8833Driver.Wakeup | src/driver.rs:108-110 | writes the sleep pin high, wraps a failure as `EspError(e)`, and leaves every bridge pin unchanged |
| Drv8833.Drv8833Driver.IsFault | src/driver.rs:112-114 | always reports a fault and reads nothing |
| Drv8833.NewSync | src/driver.rs:50-61 | builds a split-wired inner driver over in1..in4 and stores the sleep pin, writing no pin |
| Drv8833.NewParallel | src/driver.rs:78-95 | builds a parallel-wired inner driver over in1..in4 and stores the sleep pin, writing no pin |
| Scenarios.ParallelSequence | src/parallel_driver.rs:91-141 | wake, forward, coast, reverse, stop, sleep gives in1 = in3 = H,L,L,H, in2 = in4 = L,L,H,H, sleep = H,L and six successes |
| Scenarios.ParallelFailFast | src/parallel_driver.rs:32-37 | a failing in1 returns `GpioError` after one write; in2, in3 and in4 are never written |
| Scenarios.SplitSequence | src/split_driver.rs:44-75 | `a` forward, `b` reverse, `a` coast, `b` stop gives in1 = H,L, in2 = L,L, in3 = L,H, in4 = H,H |
| Scenarios.PwmSplitSequence | src/pwm_split_driver.rs:37-84 | the four channels record exactly the transactions the test's PWM mocks expect |
| Scenarios.PwmParallelSequence | src/pwm_parallel_driver.rs:145-202 | the shared channel records max, 50, 0, max, 10, max, 100, and both bridges record identical pin sequences |
| Scenarios.PwmParallelOutOfRange | src/pwm_parallel_driver.rs:58-61 | 150% returns `InvalidRange` before the lock is tried, with no channel write and none of the four pins written |

## Left out

- Bridges.Remap: computes the exact rational `min + value * (max - min) / 100`, floored and
  saturated to `u16`, instead of the crate's `f32` arithmetic. Rounding differences of the float
  computation are not modelled.
- Pin logs are kept per pin, so the model records the order of writes within each pin but not a
  global order across pins. Cross-pin order is stated only through fail-fast: a later write is
  not attempted when an earlier one failed.
- The `Arc<Mutex<PWM>>` shared channel is modelled as an owned channel plus a poisoned flag fixed
  at construction. Concurrent holders of the lock are not modelled.
- The error types of the individual pins are modelled as one `IoError` carrying a code. The
  generic `EspError` parameter and `Debug` are not modelled.
- `MotorDriverError` in src/driver.rs has only the `EspError` variant. The model's error type
  holds every variant the crate's files use: `GpioError`, `UnableToSetDuty`, `InvalidRange`,
  `PwmLocked` and `EspError`.
- The traits `Movement`, `Breaks` and `PwmMovement` are not defined in the crate. Their methods
  are plain methods of each class.
- `Driver` (src/driver.rs:9) is an empty marker trait that every driver implements. The model
  replaces it with the type parameter `D` of `Drv8833Driver`, which accepts any inner driver.
- `MotorDriver` (src/driver.rs:122-143) declares `forward`, `reverse`, `coast` and `stop`, but no
  type in the crate implements it. It is not modelled as a separate entity; the bridge and driver
  classes carry those four operations.
- The factories the tests call (`new_split`, `new_pwm_split`, `new_pwm_split_single`,
  `new_pwm_parallel`) do not exist in the crate's code and are not modelled. The PWM-split-single
  mode, which only those factories and the test at src/split_driver.rs:77-107 use, is not
  modelled. The scenarios build the drivers through the constructors that exist.
- Scenarios.PwmSplitSequence: the test also wakes and sleeps the chip through a factory that does
  not exist, so the scenario states the four channels' transactions and not the sleep pin's.
- `SyncDriver` (src/sync_driver.rs) has the same wiring as `SplitDriver` and no behaviour of its
  own. Drv8833.NewSync returns the chip wrapper over a `SplitDriver`.
- The fault input pin is not modelled. The crate holds no fault pin, and
  Drv8833.Drv8833Driver.IsFault returns `true` as the code does.
- `set_duty_cycle` with a duty above the channel's maximum is stored as given. Whether that is
  an error is up to the channel implementation, which is not part of this model.
- A minimum duty above a channel's maximum is accepted by every `set_min_duty`, as in the
  code; the model does not promise duties within the channel's maximum in that case, nor that a
  larger percentage gives a larger duty (see `PwmParallel.DutyForAboveMaximum`).
- Chip timing and electrical behaviour (current decay, standby wake-up time) are hardware and not
  expressed in the code.
- src/lib.rs holds only module declarations and crate documentation.
