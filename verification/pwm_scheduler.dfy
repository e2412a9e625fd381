/** The timer side of the driver: the period tick that raises every active
    channel and arms its falling edge, the per-channel one-shot callback
    that drives the pin low, and the timer setup done by `begin`.
    Hardware calls are modelled as action records; nothing here touches
    a timer or a GPIO register. Time is measured in microseconds from the
    instant of the tick being modelled. */
module PwmScheduler {
  import opened Ints
  import opened PwmState
  import opened PwmController

  datatype Level = Low | High

  /** A write of one output level to one pin. */
  datatype Drive = Drive(pin: uint8, level: Level)

  /** What the tick does with a channel's one-shot timer: leave it alone,
      or disarm any pending fire and arm a single fire after `delay` us. */
  datatype OneShot = NoRearm | Rearm(delay: uint16)

  /** The tick's decision for one channel, in the order it is taken. */
  datatype ChannelStep = ChannelStep(channel: nat, drive: Drive, oneShot: OneShot)

  /** The decision of the period tick for channel `i`. */
  function Decide(s: Controller, i: nat): ChannelStep
    requires s.Valid() && i < PWM_CHANNELS
  {
    var h := s.channels[i].hTime;
    if h != 0 then
      ChannelStep(i, Drive(s.pins[i], High), if h != s.period then Rearm(h) else NoRearm)
    else
      ChannelStep(i, Drive(s.pins[i], Low), NoRearm)
  }

  /** The decisions of the period tick for channels 0 .. n-1, in index order:
      a channel with no high-time is driven low and gets no timer; any other
      channel is driven high, and its one-shot is re-armed for its high-time
      exactly when that differs from the period. */
  function TickUpTo(s: Controller, n: nat): (steps: seq<ChannelStep>)
    requires s.Valid() && n <= PWM_CHANNELS
    ensures |steps| == n
    ensures forall i :: 0 <= i < n ==>
      && steps[i].channel == i
      && steps[i].drive.pin == s.pins[i]
      && (steps[i].drive.level == High <==> s.channels[i].hTime != 0)
      && (steps[i].oneShot.Rearm? <==> s.channels[i].hTime != 0 && s.channels[i].hTime != s.period)
      && (steps[i].oneShot.Rearm? ==> steps[i].oneShot.delay == s.channels[i].hTime)
  {
    if n == 0 then [] else TickUpTo(s, n - 1) + [Decide(s, n - 1)]
  }

  /** One firing of the recurring period timer: the decisions for exactly
      the active channels 0 .. count-1. */
  function Tick(s: Controller): (steps: seq<ChannelStep>)
    requires s.Valid()
    ensures |steps| == s.count
    ensures forall i :: 0 <= i < |steps| ==> steps[i] == Decide(s, i)
  {
    TickUpTo(s, s.count)
  }

  // ---------------------------------------------------------------------
  // Timers, callbacks and what firing them does

  /** Timers of the driver: one one-shot per channel and the recurring one. */
  datatype TimerId = ChannelTimer(channel: nat) | PeriodTimer

  /** Callbacks a timer can be bound to. `OutputLow(c)` carries exactly the
      channel whose pin it drives low. */
  datatype Callback = OutputLow(channel: nat) | PeriodTick

  /** The pin writes a callback makes when its timer fires: the one-shot
      callback of channel `c` writes low to that channel's pin; the period
      callback makes the tick's writes, in channel order. */
  function Fire(s: Controller, cb: Callback): seq<Drive>
    requires s.Valid()
    requires cb.OutputLow? ==> cb.channel < PWM_CHANNELS
  {
    match cb
    case OutputLow(c) => [Drive(s.pins[c], Low)]
    case PeriodTick =>
      var steps := Tick(s);
      seq(|steps|, k requires 0 <= k < |steps| => steps[k].drive)
  }

  /** Channel `i`'s one-shot timer right after the tick: the fresh arm if the
      tick re-armed it, otherwise whatever was pending before the tick. */
  function TimerAfterTick(s: Controller, i: nat): OneShotTimer
    requires s.Valid() && i < s.count
  {
    match Tick(s)[i].oneShot
    case Rearm(delay) => Armed(delay)
    case NoRearm => s.channels[i].timer
  }

  /** Whether a timer has fired by `t` microseconds after the tick. */
  predicate FiredBy(timer: OneShotTimer, t: nat) {
    timer.Armed? && timer.fireAt <= t
  }

  /** The level channel `i` drives `t` microseconds after a tick, before the
      next one: the tick's level, until a pending one-shot of the channel
      (armed by this tick or left over from an earlier one) fires and its
      callback writes low. */
  function LevelAt(s: Controller, i: nat, t: nat): Level
    requires s.Valid() && i < s.count && t < s.period
  {
    var level := Tick(s)[i].drive.level;
    if level == High && FiredBy(TimerAfterTick(s, i), t) then Fire(s, OutputLow(i))[0].level
    else level
  }

  /** A one-shot timer after `period` more microseconds: one due within that
      time has fired (a fire due at the instant of the next tick is taken
      to come first); a later one is still pending, that much closer. */
  function Elapse(timer: OneShotTimer, period: nat): (r: OneShotTimer)
    ensures timer.Disarmed? ==> r.Disarmed?
    ensures FiredBy(timer, period) ==> r.Disarmed?
    ensures timer.Armed? && timer.fireAt > period ==> r == Armed(timer.fireAt - period)
  {
    match timer
    case Disarmed => Disarmed
    case Armed(d) => if d <= period then Disarmed else Armed(d - period)
  }

  /** The state one full period after a tick, just before the next one:
      only the active channels' timers change, each by what the tick armed
      and what fired during the period. */
  function Advance(s: Controller): (r: Controller)
    requires s.Valid()
    ensures r.Valid()
    ensures r.pins == s.pins && r.count == s.count
    ensures r.period == s.period && r.freq == s.freq
    ensures forall j :: 0 <= j < PWM_CHANNELS ==>
      && r.channels[j].hTime == s.channels[j].hTime
      && r.channels[j].duty == s.channels[j].duty
    ensures forall j :: 0 <= j < s.count ==> r.channels[j].timer == Elapse(TimerAfterTick(s, j), s.period)
    ensures forall j :: s.count <= j < PWM_CHANNELS ==> r.channels[j].timer == s.channels[j].timer
  {
    var channels := seq(PWM_CHANNELS, j requires 0 <= j < PWM_CHANNELS =>
      if j < s.count as int then s.channels[j].(timer := Elapse(TimerAfterTick(s, j), s.period))
      else s.channels[j]);
    s.(channels := channels)
  }

  // ---------------------------------------------------------------------
  // Timer setup performed by `begin`

  datatype TimerOp =
    | Disarm(timer: TimerId)
    | SetCallback(timer: TimerId, callback: Callback)
    | Arm(timer: TimerId, us: uint16, repeat: bool)

  /** Disarm and rebind the one-shot timers of channels 0 .. n-1. */
  function ChannelTimersSetup(n: nat): (ops: seq<TimerOp>)
    ensures |ops| == 2 * n
    ensures forall k :: 0 <= k < |ops| ==>
      ops[k] == (if k % 2 == 0 then Disarm(ChannelTimer(k / 2))
                 else SetCallback(ChannelTimer(k / 2), OutputLow(k / 2)))
  {
    if n == 0 then []
    else ChannelTimersSetup(n - 1) + [Disarm(ChannelTimer(n - 1)), SetCallback(ChannelTimer(n - 1), OutputLow(n - 1))]
  }

  /** The timer operations of `begin`, given the state `begin` leaves: each
      active channel's one-shot is disarmed and bound to the low callback of
      that same channel, then the period timer is disarmed, bound to the
      tick, and armed to repeat every period. */
  function BeginTimers(s: Controller): (ops: seq<TimerOp>)
    requires s.Valid()
    ensures |ops| == 2 * s.count + 3
    ensures forall k :: 0 <= k < 2 * s.count ==>
      ops[k] == (if k % 2 == 0 then Disarm(ChannelTimer(k / 2))
                 else SetCallback(ChannelTimer(k / 2), OutputLow(k / 2)))
    ensures ops[2 * s.count] == Disarm(PeriodTimer)
    ensures ops[2 * s.count + 1] == SetCallback(PeriodTimer, PeriodTick)
    ensures ops[2 * s.count + 2] == Arm(PeriodTimer, s.period, true)
  {
    ChannelTimersSetup(s.count)
      + [Disarm(PeriodTimer), SetCallback(PeriodTimer, PeriodTick), Arm(PeriodTimer, s.period, true)]
  }

  /** After `begin(count, freq)`: every active channel's timer is bound to a
      callback, that callback writes low to exactly that channel's pin and
      nothing else, no inactive channel's timer is bound, and the period
      timer is armed to repeat at the period derived from the clamped
      frequency and to make the tick's writes. */
  lemma {:induction false} BeginBindsEachTimerToItsChannel(s: Controller, count: uint8, freq: uint16)
    requires s.Valid() && count <= PWM_CHANNELS
    ensures var r := Begin(s, count, freq);
      forall c :: 0 <= c < count ==> SetCallback(ChannelTimer(c), OutputLow(c)) in BeginTimers(r)
    ensures var r := Begin(s, count, freq);
      forall c: nat, cb :: SetCallback(ChannelTimer(c), cb) in BeginTimers(r) ==>
        && c < count
        && cb.OutputLow? && cb.channel < PWM_CHANNELS
        && Fire(r, cb) == [Drive(s.pins[c], Low)]
    ensures var r := Begin(s, count, freq);
      && SetCallback(PeriodTimer, PeriodTick) in BeginTimers(r)
      && Arm(PeriodTimer, PeriodFor(ClampFrequency(freq)), true) in BeginTimers(r)
  {
    var r := Begin(s, count, freq);
    var ops := BeginTimers(r);
    forall c | 0 <= c < count
      ensures SetCallback(ChannelTimer(c), OutputLow(c)) in ops
    {
      assert ops[2 * c + 1] == SetCallback(ChannelTimer(c), OutputLow(c));
    }
    forall c: nat, cb | SetCallback(ChannelTimer(c), cb) in ops
      ensures c < count && cb.OutputLow? && cb.channel < PWM_CHANNELS
      ensures Fire(r, cb) == [Drive(s.pins[c], Low)]
    {
      var k :| 0 <= k < |ops| && ops[k] == SetCallback(ChannelTimer(c), cb);
      assert k < 2 * count;
    }
    assert ops[2 * count + 1] == SetCallback(PeriodTimer, PeriodTick);
    assert ops[2 * count + 2] == Arm(PeriodTimer, PeriodFor(ClampFrequency(freq)), true);
  }

  // ---------------------------------------------------------------------
  // Properties of the tick and the callback

  /** Within one period, channel `i` is high exactly while `t` is below its
      high-time and, when the high-time equals the period (the branch that
      leaves the timer alone), a one-shot left pending from an earlier tick
      has not fired yet. Without such a leftover fire the channel is high
      exactly during its first `hTime` microseconds. */
  lemma {:induction false} LevelIsHighExactlyBeforeHighTime(s: Controller, i: nat, t: nat)
    requires s.Valid() && i < s.count && t < s.period
    ensures LevelAt(s, i, t) == High <==>
      t < s.channels[i].hTime && (s.channels[i].hTime == s.period ==> !FiredBy(s.channels[i].timer, t))
    ensures !FiredBy(s.channels[i].timer, t) ==> (LevelAt(s, i, t) == High <==> t < s.channels[i].hTime)
  {
    var steps := Tick(s);
    assert steps[i] == Decide(s, i);
  }

  /** Duty 0 never produces a pulse: the tick drives the pin low and arms
      nothing, and a leftover fire can only write low as well. */
  lemma ZeroHighTimeNeverHigh(s: Controller, i: nat)
    requires s.Valid() && i < s.count && s.channels[i].hTime == 0
    ensures Tick(s)[i].drive == Drive(s.pins[i], Low)
    ensures Tick(s)[i].oneShot == NoRearm
    ensures forall t :: 0 <= t < s.period ==> LevelAt(s, i, t) == Low
  {
    forall t | 0 <= t < s.period
      ensures LevelAt(s, i, t) == Low
    {
      LevelIsHighExactlyBeforeHighTime(s, i, t);
    }
  }

  /** Full duty arms no falling edge: the tick drives the pin high and
      neither disarms nor arms the one-shot. The channel then stays high
      for the whole period unless a one-shot left over from an earlier tick
      fires, which drives it low from that instant on. */
  lemma FullHighTimeArmsNoFall(s: Controller, i: nat)
    requires s.Valid() && i < s.count && s.period > 0 && s.channels[i].hTime == s.period
    ensures Tick(s)[i].drive == Drive(s.pins[i], High)
    ensures Tick(s)[i].oneShot == NoRearm
    ensures forall t :: 0 <= t < s.period ==> (LevelAt(s, i, t) == High <==> !FiredBy(s.channels[i].timer, t))
    ensures s.channels[i].timer.Disarmed? ==> forall t :: 0 <= t < s.period ==> LevelAt(s, i, t) == High
  {
    forall t | 0 <= t < s.period
      ensures LevelAt(s, i, t) == High <==> !FiredBy(s.channels[i].timer, t)
    {
      LevelIsHighExactlyBeforeHighTime(s, i, t);
    }
  }

  /** A channel's waveform depends only on its own slot (timer, high-time,
      duty) and pin and on the shared period: two states that agree there
      agree on it. */
  lemma ChannelsAreIndependent(s: Controller, s': Controller, i: nat, t: nat)
    requires s.Valid() && s'.Valid()
    requires i < s.count && i < s'.count && t < s.period
    requires s.period == s'.period
    requires s.pins[i] == s'.pins[i] && s.channels[i] == s'.channels[i]
    ensures Tick(s)[i] == Tick(s')[i]
    ensures LevelAt(s, i, t) == LevelAt(s', i, t)
  {
  }

  /** Setting another channel's duty leaves this channel's tick decision
      and waveform unchanged. */
  lemma SetOtherKeepsWaveform(s: Controller, i: nat, j: uint8, duty: uint8, t: nat)
    requires s.Valid() && i < s.count && j < PWM_CHANNELS && i != j && t < s.period
    ensures Tick(Set(s, j, duty))[i] == Tick(s)[i]
    ensures LevelAt(Set(s, j, duty), i, t) == LevelAt(s, i, t)
  {
    ChannelsAreIndependent(s, Set(s, j, duty), i, t);
  }

  /** After `set` (with the period in force), channel `i` is high for the
      first period*duty/255 microseconds of the period and low after,
      except that at full duty a one-shot left pending from an earlier tick
      still cuts the pulse when it fires: `set` does not touch the timer. */
  lemma SetGivesScaledPulse(s: Controller, i: uint8, duty: uint8, t: nat)
    requires s.Valid() && i < s.count && t < s.period
    ensures LevelAt(Set(s, i, duty), i, t) == High <==>
      t < HighTime(s.period, duty) && (duty == PWM_MAX_DUTY ==> !FiredBy(s.channels[i].timer, t))
    ensures !FiredBy(s.channels[i].timer, t) ==>
      (LevelAt(Set(s, i, duty), i, t) == High <==> t < HighTime(s.period, duty))
  {
    LevelIsHighExactlyBeforeHighTime(Set(s, i, duty), i, t);
    FullHighTimeIffFullDuty(s.period, duty);
  }

  /** A pending-free channel whose high-time fits the period is pending-free
      again one period later: the one-shot the tick arms fires within it. */
  lemma AdvanceSettles(s: Controller, i: nat)
    requires s.Valid() && i < s.count
    requires s.channels[i].timer.Disarmed? && s.channels[i].hTime <= s.period
    ensures Advance(s).channels[i].timer.Disarmed?
  {
  }

  /** A high-time longer than the period leaves its one-shot pending across
      the next tick, for the excess. */
  lemma AdvanceLeavesStaleTimer(s: Controller, i: nat)
    requires s.Valid() && i < s.count && s.channels[i].hTime > s.period
    ensures Advance(s).channels[i].timer == Armed(s.channels[i].hTime - s.period)
  {
  }

  /** The state invariant under which every active channel's waveform is
      exactly its scaled duty: high-times consistent with the period and
      no active one-shot pending before the tick. */
  predicate Settled(s: Controller)
    requires s.Valid()
  {
    Consistent(s) && forall j :: 0 <= j < s.count ==> s.channels[j].timer.Disarmed?
  }

  /** Ticks, `set` and `connect` keep a settled state settled, and so does a
      restart that keeps the period. */
  lemma SettledIsPreserved(s: Controller, index: uint8, duty: uint8, pin: uint8, count: uint8, freq: uint16)
    requires s.Valid() && Settled(s) && index < PWM_CHANNELS && count <= PWM_CHANNELS
    ensures Settled(Advance(s))
    ensures Settled(Set(s, index, duty))
    ensures Settled(Connect(s, index, pin))
    ensures PeriodFor(ClampFrequency(freq)) == s.period ==> Settled(Begin(s, count, freq))
  {
    var a := Advance(s);
    forall j | 0 <= j < s.count
      ensures a.channels[j].timer.Disarmed?
    {
      ConsistentWithinPeriod(s, j);
      AdvanceSettles(s, j);
    }
    assert Consistent(a) by {
      forall j | 0 <= j < PWM_CHANNELS
        ensures a.channels[j].hTime == HighTime(a.period, a.channels[j].duty)
      {
        assert s.channels[j].hTime == HighTime(s.period, s.channels[j].duty);
      }
    }
    SetConnectPreserveConsistent(s, index, duty, pin);
    if PeriodFor(ClampFrequency(freq)) == s.period {
      BeginSamePeriodPreservesConsistent(s, count, freq);
    }
  }

  /** In a settled state every active channel is high for exactly the first
      period*duty/255 microseconds of the period. */
  lemma SettledWaveform(s: Controller, i: nat, t: nat)
    requires s.Valid() && Settled(s) && i < s.count && t < s.period
    ensures LevelAt(s, i, t) == High <==> t < HighTime(s.period, s.channels[i].duty)
  {
    LevelIsHighExactlyBeforeHighTime(s, i, t);
  }
}
