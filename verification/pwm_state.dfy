/** State of the software PWM driver: the three per-channel records, the
    pin table, the active channel count and the shared period record. */
module PwmState {
  import opened Ints

  /** Number of channel slots (the size of every per-channel table). */
  const PWM_CHANNELS: nat := 3
  /** Microseconds in one second. */
  const PWM_1S: nat := 1000000
  /** Duty value meaning "always high"; also the divisor of the high-time. */
  const PWM_MAX_DUTY: nat := 255
  /** Bounds `begin` clamps the requested frequency into. */
  const MIN_FREQ: nat := 1
  const MAX_FREQ: nat := 500

  /** The state of a channel's one-shot timer, seen just before the next
      period tick: not pending, or due to fire `fireAt` microseconds after
      that tick. */
  datatype OneShotTimer = Disarmed | Armed(fireAt: nat)

  /** One channel slot: its one-shot timer, the derived high-time in
      microseconds and the duty last stored by `set`. */
  datatype Channel = Channel(timer: OneShotTimer, hTime: uint16, duty: uint8)

  /** The whole driver state.
      `channels` and `pins` are the fixed tables of `PWM_CHANNELS` slots,
      `count` is the number of channels the period tick drives,
      `period` (microseconds) and `freq` (hertz) are the shared period record. */
  datatype Controller = Controller(
    channels: seq<Channel>,
    pins: seq<uint8>,
    count: uint8,
    period: uint16,
    freq: uint16)
  {
    /** The tables have their fixed size and the tick never reads past them. */
    predicate Valid() {
      && |channels| == PWM_CHANNELS
      && |pins| == PWM_CHANNELS
      && count <= PWM_CHANNELS
    }
  }

  /** The zero-initialised driver before any call. */
  const Init: Controller :=
    Controller([Channel(Disarmed, 0, 0), Channel(Disarmed, 0, 0), Channel(Disarmed, 0, 0)], [0, 0, 0], 0, 0, 0)
}
