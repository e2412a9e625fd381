# Software PWM driver for the ESP8266 — a Dafny model

This project models the software PWM driver `esp8266_pwm.h`. The driver gives up to three
output pins each a duty cycle (0..255), using one recurring hardware timer
for every rising edge and one one-shot timer per channel for each falling edge.

The model is functional. A `Controller` record holds the three channel slots
(one-shot timer, `h_time`, `duty`), the pin table, the active channel count
and the period record (`period`, `freq`). The public calls `connect`, `begin`,
`set` and `get` are pure functions on that record. The period-timer callback
is a pure `Tick`. It returns, for each active channel in index order, the
level written to the channel's pin and whether its one-shot timer is disarmed
and re-armed, and for how long. `Fire` gives the pin writes a bound callback
makes. `LevelAt` combines the tick, the one-shot still pending from earlier
ticks and the low callback into the level a channel drives at each
microsecond of a period. `Advance` is the state one period later, with each
one-shot either fired or still pending. The timer bindings that `begin`
performs are returned as a list of abstract timer operations.

The C integer widths are modelled explicitly:

- `period` is an unsigned 16-bit field. One second divided by the frequency fits
  only from 16 Hz up. From 1 to 15 Hz the stored period is the quotient modulo
  2^16; at 1 Hz it is 16960 us. The model keeps this (`PeriodFor`,
  `PeriodWrapsAtOneHertz`).
- `period * duty` is computed in 32-bit `int` and cannot overflow. Both operands
  are non-negative, so C's truncating division agrees with Dafny's `/`. The
  quotient never exceeds the period, so it fits the 16-bit `h_time`.

`begin` recomputes the period but not the stored high-times. One might expect a
frequency change to rescale every high-time; the code does not, and the model
keeps that. `HighTimeFromLastSet` states what a channel's high-time then is, and
`RestartBreaksConsistency` shows a restart leaving one stale.

A stale high-time can outlive the period. The tick then arms a one-shot that is
still pending at the next tick. When the high-time equals the period, the tick
neither disarms nor re-arms the timer (esp8266_pwm.h:84). A one-shot left over
from an earlier tick can therefore still fire and cut a full-duty pulse.
`StaleOneShotCutsFullDuty` exhibits this after `set(0, 255)`. The waveform
lemmas state the exact level, including such a leftover fire. They also give
the plain "high for period*duty/255 us" form when no leftover is pending.

A `set` made before any `begin` uses period 0 and so stores high-time 0, and
`begin` does not fix it. Such a channel stays low although `get` returns the
duty that was set. `HighTimeFromLastSet` covers this case: the period in force
at that `set` was 0.

Modules: `Ints` (fixed-width integers), `PwmState` (constants and state),
`PwmController` (public calls and their arithmetic), `PwmScheduler` (period
tick, one-shot callback, timer setup, waveform) and `PwmTrace` (call sequences
replayed from the zero-initialised state).

## Model

| member | source | states |
|---|---|---|
| `Ints.Wrap16` | esp8266_pwm.h:37 | storing into the 16-bit period field keeps values below 2^16 unchanged and otherwise keeps a smaller value congruent modulo 2^16 |
| `PwmController.ClampFrequency` | esp8266_pwm.h:122-128 | the kept frequency lies in [1, 500]; it equals the request exactly when the request is in range; it is the in-range value closest to the request |
| `PwmController.ClampExtremes` | esp8266_pwm.h:122-125 | a request of 0 Hz becomes 1 Hz and any request above 500 Hz becomes 500 Hz |
| `PwmController.PeriodFor` | esp8266_pwm.h:130 | from 16 Hz up the period is the largest whole number of microseconds of which `freq` fit into one second; below 16 Hz it is smaller than that quotient and congruent to it modulo 2^16 |
| `PwmController.PeriodRange` | esp8266_pwm.h:130 | for frequencies 16..500 Hz the period does not wrap and lies in [2000, 62500] us |
| `PwmController.PeriodWrapsAtOneHertz` | esp8266_pwm.h:130 | at 1 Hz the stored period is 16960 us rather than one second |
| `PwmController.PeriodAfterClampAtLeast` | esp8266_pwm.h:122-130 | every period `begin` can store, wrapped or not, is at least 1130 us, hence non-zero |
| `PwmController.HighTime` | esp8266_pwm.h:147 | the high-time is the truncated quotient of period*duty by 255, given by the bracketing inequalities, and never exceeds the period |
| `PwmController.HighTimeExtremes` | esp8266_pwm.h:147 | duty 0 gives high-time 0 and duty 255 gives exactly the period |
| `PwmController.HighTimeTruncates` | esp8266_pwm.h:147 | period 1000 with duty 128 gives 501 (truncated, not rounded to 502) |
| `PwmController.HighTimeMonotone` | esp8266_pwm.h:147 | a larger duty never yields a shorter high-time |
| `PwmController.FullHighTimeIffFullDuty` | esp8266_pwm.h:84 | with a non-zero period the high-time equals the period if and only if duty is 255, so only full duty skips the falling edge |
| `PwmController.ZeroHighTimeIffZeroDuty` | esp8266_pwm.h:81 | with a period of at least 255 us the high-time is zero if and only if duty is 0 |
| `PwmController.Connect` | esp8266_pwm.h:99-113 | an index of 3 or more changes nothing; otherwise only that channel's pin is replaced and every other part of the state is kept |
| `PwmController.Begin` | esp8266_pwm.h:116-136 | stores the count, the clamped frequency and the period derived from it, disarms the one-shot of every active channel, and keeps pins, duties and high-times unchanged (high-times are not rescaled) |
| `PwmController.Set` | esp8266_pwm.h:145-148 | stores the duty and its high-time under the current period for that channel only, keeps the high-time within the period, leaves the channel's one-shot timer alone, and changes nothing else |
| `PwmController.SetThenGet` | esp8266_pwm.h:145-152 | `get` after `set` on the same channel returns the duty just set |
| `PwmController.SetOtherThenGet` | esp8266_pwm.h:145-152 | `set` on one channel does not change what `get` returns for another |
| `PwmController.SetTwice` | esp8266_pwm.h:145-148 | a second `set` on a channel fully overwrites the first |
| `PwmScheduler.TickUpTo` | esp8266_pwm.h:80-91 | channel by channel in index order: zero high-time drives the channel's pin low and arms nothing; otherwise the pin is driven high, and the one-shot is disarmed and re-armed for the high-time exactly when the high-time differs from the period |
| `PwmScheduler.Tick` | esp8266_pwm.h:80 | one tick visits exactly the active channels 0..count-1, in index order |
| `PwmScheduler.ChannelTimersSetup` | esp8266_pwm.h:133-136 | for each channel 0..n-1 in order, its one-shot timer is disarmed and then bound to the low callback of that channel |
| `PwmScheduler.BeginTimers` | esp8266_pwm.h:133-141 | on the state `begin` leaves: the active channels' one-shots are reset, then the period timer is disarmed, rebound and armed to repeat every period |
| `PwmScheduler.BeginBindsEachTimerToItsChannel` | esp8266_pwm.h:60-64 | after `begin(count, freq)`, every active channel's timer is bound, only active ones are, and firing the bound callback writes exactly one low level to that channel's own pin; the period timer makes the tick's writes and repeats at the period of the clamped frequency |
| `PwmScheduler.LevelIsHighExactlyBeforeHighTime` | esp8266_pwm.h:80-91 | within a period a channel is high exactly while t is below h_time and, when h_time equals the period (the branch that leaves the timer alone), no one-shot pending from an earlier tick has fired; with nothing pending, exactly during its first h_time microseconds |
| `PwmScheduler.ZeroHighTimeNeverHigh` | esp8266_pwm.h:81-90 | zero high-time: the pin is driven low, no one-shot is armed, and the channel is low for the whole period |
| `PwmScheduler.FullHighTimeArmsNoFall` | esp8266_pwm.h:81-87 | high-time equal to the period: the pin is driven high and the timer is neither disarmed nor armed, so the channel is high all period unless a leftover one-shot fires, and exactly then it goes low |
| `PwmScheduler.ChannelsAreIndependent` | esp8266_pwm.h:80-91 | a channel's tick decision and waveform depend only on its own slot and pin and on the shared period |
| `PwmScheduler.SetOtherKeepsWaveform` | esp8266_pwm.h:145-148 | setting another channel's duty leaves this channel's tick decision and waveform unchanged |
| `PwmScheduler.SetGivesScaledPulse` | esp8266_pwm.h:145-147 | after `set`, the channel is high exactly before the high-time of the new duty under the current period, except that at duty 255 a one-shot left pending from an earlier tick still cuts the pulse when it fires |
| `PwmTrace.Run` | esp8266_pwm.h:99-152 | any sequence of in-range `connect`/`begin`/`set` calls and period-timer firings keeps the tables at three slots and the count within them |
| `PwmTrace.GetReturnsLastSet` | esp8266_pwm.h:145-152 | after any call sequence, `get(i)` returns the duty last passed to `set(i, ·)`, or 0 if there was none |
| `PwmTrace.PinIsLastConnect` | esp8266_pwm.h:99-113 | after any call sequence, channel i's pin is the one given to the last in-range `connect(i, ·)`, or 0 if there was none |
| `PwmTrace.HighTimeFromLastSet` | esp8266_pwm.h:130-147 | a channel's high-time is computed from its last duty and the period in force at that `set`; later `begin` calls do not recompute it |
| `PwmTrace.SetSinceBeginUsesCurrentPeriod` | esp8266_pwm.h:145-147 | if no `begin` followed the last `set` on a channel, that `set` used the period now in force |
| `PwmTrace.BegunPeriodPositive` | esp8266_pwm.h:122-130 | once `begin` has run, the frequency is in [1, 500], the period is the one derived from it, and it is at least 1130 us |
| `PwmTrace.WaveformFollowsLastDuty` | esp8266_pwm.h:80-91 | an active channel set after the last `begin` is high exactly for the first period*duty/255 microseconds of the period, where duty is what `get` returns, except that at duty 255 a leftover one-shot cuts the pulse when it fires; duty 0 never goes high; if no tick since the last `begin` saw a stale high-time, the plain form holds and duty 255 never goes low |
| `PwmTrace.StaleHighTimeAfterRestart` | esp8266_pwm.h:130-147 | duty 128 set at 100 Hz keeps its 5019 us high-time after a restart at 500 Hz (period 2000 us), with its one-shot disarmed; the tick arms a 5019 us one-shot and the channel stays high all period |
| `PwmController.ConsistentWithinPeriod` | esp8266_pwm.h:147 | when every high-time agrees with the period in force, none exceeds the period |
| `PwmController.InitConsistent` | esp8266_pwm.h:47-51 | the zero-initialised driver has consistent high-times |
| `PwmController.SetConnectPreserveConsistent` | esp8266_pwm.h:99-148 | `set` and `connect` keep every high-time consistent with the period |
| `PwmController.SetRepairsSlot` | esp8266_pwm.h:147 | after `set` the channel's high-time agrees with the period in force, whatever it held before |
| `PwmController.BeginSamePeriodPreservesConsistent` | esp8266_pwm.h:116-130 | a restart whose derived period equals the current one keeps every high-time consistent |
| `PwmController.RestartBreaksConsistency` | esp8266_pwm.h:130-147 | a restart at another frequency leaves a high-time of 5019 us where the new period gives 1003 us, longer than the 2000 us period |
| `PwmScheduler.Elapse` | esp8266_pwm.h:84-86 | after a period a disarmed one-shot stays disarmed, one due within it has fired, and a later one stays pending for the remaining time |
| `PwmScheduler.Advance` | esp8266_pwm.h:80-91 | one period after a tick, only the active channels' timers change, each to what the tick armed or left pending, aged by the period |
| `PwmScheduler.AdvanceSettles` | esp8266_pwm.h:84-86 | with nothing pending and a high-time within the period, nothing is pending one period later |
| `PwmScheduler.AdvanceLeavesStaleTimer` | esp8266_pwm.h:84-86 | a high-time longer than the period leaves its one-shot pending across the next tick for the excess |
| `PwmScheduler.SettledIsPreserved` | esp8266_pwm.h:80-148 | consistent high-times with no active one-shot pending survive ticks, `set`, `connect`, and a restart that keeps the period |
| `PwmScheduler.SettledWaveform` | esp8266_pwm.h:80-91 | in a settled state every active channel is high for exactly the first period*duty/255 microseconds |
| `PwmTrace.NoPendingTimerWhenTicksSafe` | esp8266_pwm.h:84-86 | if no tick since the last `begin` found a channel's high-time beyond the period, that active channel has no one-shot pending before a tick |
| `PwmTrace.StaleOneShotCutsFullDuty` | esp8266_pwm.h:80-91 | on `begin(1,100)`, `set(0,128)`, `begin(1,500)`, a tick, `set(0,255)`, a tick: `get(0)` is 255, yet the leftover one-shot fires 1019 us into the period and the channel is low from then on |

## Left out

- Hardware timers and GPIO registers. This covers `os_timer_setfn`, `ets_timer_arm_new`, `os_timer_disarm`, `system_timer_reinit` and `gpio_output_set`. They are foreign SDK calls, so they appear only as action records (`Drive`, `OneShot`, `TimerOp`).
- Pin multiplexing: the `PIN_FUNC_SELECT` calls in `connect` are one-time hardware setup with no effect on the driver's state.
- Interrupt locking (`ETS_INTR_LOCK`/`ETS_INTR_UNLOCK`) is left out. So is any interleaving of the period tick, the one-shot callbacks and `set`, because that is concurrency. Each call is modelled as atomic.
- Real-time behaviour (timing accuracy, jitter, interrupt latency) is left out. `LevelAt` describes the ideal level within one period.
- The cast that passes the channel index through the callback's `void*` argument is left out. It is modelled as a callback value carrying the channel (`OutputLow(c)`).
- Two channels connected to the same pin are not modelled. `LevelAt` is the level a channel drives, not the resulting pin level.
- PwmController.Set, PwmController.Get: the source does not check the index. An index of 3 or more writes or reads past the tables (undefined behaviour), so the model requires index < 3.
- PwmController.Begin: the source does not check `count`. A count above 3 makes `begin` and every tick index past the tables (undefined behaviour), so the model requires count ≤ 3. A rejection might be expected instead; the code has none, and the model follows the code.
- PwmController.Get carries no contract of its own. Its result is stated by `SetThenGet`, `SetOtherThenGet` and `PwmTrace.GetReturnsLastSet`.
- PwmScheduler.Fire and PwmScheduler.LevelAt carry no contracts of their own. They are stated by `BeginBindsEachTimerToItsChannel` and `LevelIsHighExactlyBeforeHighTime`.
- PwmScheduler.Elapse: a one-shot due at the very instant of the next tick is taken to fire before that tick. The SDK's order for two timers due at once is not part of this model.
- PwmScheduler.Advance: the timers of channels beyond the active count are not aged. They are never read while inactive, and `begin` disarms them before they become active again.
- Application calls are placed between ticks. A `set` in the middle of a period takes effect at the next tick, as in the source, because it does not touch the timer already armed.
- There is no stop operation, because the source has none.
