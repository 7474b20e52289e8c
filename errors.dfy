/** The crate's error type. The driver wrapper wraps a failing sleep-pin write in
    `EspError`; the bridges and the PWM modes report the other four variants. */
module Errors {
  import opened Hal

  datatype MotorDriverError =
    | GpioError
    | UnableToSetDuty
    | InvalidRange
    | PwmLocked
    | EspError(cause: IoError)
}
