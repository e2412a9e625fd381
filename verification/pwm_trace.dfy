/** Sequences of public driver calls replayed from the zero-initialised
    state, and what the state holds after them in terms of the calls
    alone: the duty `get` returns, the pins, and the period each stored
    high-time was computed with. */
module PwmTrace {
  import opened Ints
  import opened PwmState
  import opened PwmController
  import opened PwmScheduler

  /** One call of the public interface that changes driver state, or one
      firing of the period timer followed by a full period. */
  datatype Call =
    | ConnectCall(index: uint8, pin: uint8)
    | BeginCall(count: uint8, freq: uint16)
    | SetCall(index: uint8, duty: uint8)
    | PeriodElapsed

  /** Calls whose arguments stay inside the tables the driver indexes. */
  predicate Admissible(c: Call) {
    match c
    case ConnectCall(_, _) => true
    case BeginCall(count, _) => count <= PWM_CHANNELS
    case SetCall(index, _) => index < PWM_CHANNELS
    case PeriodElapsed => true
  }

  predicate AllAdmissible(calls: seq<Call>) {
    forall k :: 0 <= k < |calls| ==> Admissible(calls[k])
  }

  function Apply(s: Controller, c: Call): Controller
    requires s.Valid() && Admissible(c)
  {
    match c
    case ConnectCall(index, pin) => Connect(s, index, pin)
    case BeginCall(count, freq) => Begin(s, count, freq)
    case SetCall(index, duty) => Set(s, index, duty)
    case PeriodElapsed => Advance(s)
  }

  /** The state after performing `calls` in order from the initial state. */
  function Run(calls: seq<Call>): (s: Controller)
    requires AllAdmissible(calls)
    ensures s.Valid()
    decreases |calls|
  {
    if calls == [] then Init
    else Apply(Run(calls[..|calls| - 1]), calls[|calls| - 1])
  }

  /** The duty of the last `set` on channel `i` in `calls`, or 0 if none. */
  function LastDuty(calls: seq<Call>, i: nat): uint8
    decreases |calls|
  {
    if calls == [] then 0
    else
      var c := calls[|calls| - 1];
      if c.SetCall? && c.index == i then c.duty else LastDuty(calls[..|calls| - 1], i)
  }

  /** The pin of the last in-range `connect` on channel `i`, or 0 if none. */
  function LastPin(calls: seq<Call>, i: nat): uint8
    decreases |calls|
  {
    if calls == [] then 0
    else
      var c := calls[|calls| - 1];
      if c.ConnectCall? && c.index == i then c.pin else LastPin(calls[..|calls| - 1], i)
  }

  /** The period in force when the last `set` on channel `i` was made, or 0. */
  function PeriodAtLastSet(calls: seq<Call>, i: nat): uint16
    requires AllAdmissible(calls)
    decreases |calls|
  {
    if calls == [] then 0
    else
      var c := calls[|calls| - 1];
      if c.SetCall? && c.index == i then Run(calls[..|calls| - 1]).period
      else PeriodAtLastSet(calls[..|calls| - 1], i)
  }

  /** Whether the last `set` on channel `i` comes after the last `begin`. */
  predicate SetSinceBegin(calls: seq<Call>, i: nat)
    decreases |calls|
  {
    if calls == [] then false
    else
      var c := calls[|calls| - 1];
      if c.SetCall? && c.index == i then true
      else if c.BeginCall? then false
      else SetSinceBegin(calls[..|calls| - 1], i)
  }

  /** Whether every period tick since the last `begin` found channel `i`'s
      high-time within the period, so that no one-shot it armed outlived
      the period. */
  predicate TicksSinceBeginSafe(calls: seq<Call>, i: nat)
    requires AllAdmissible(calls) && i < PWM_CHANNELS
    decreases |calls|
  {
    if calls == [] then true
    else
      var c := calls[|calls| - 1];
      PrefixAdmissible(calls);
      var prefix := calls[..|calls| - 1];
      if c.BeginCall? then true
      else if c.PeriodElapsed? then
        Run(prefix).channels[i].hTime <= Run(prefix).period && TicksSinceBeginSafe(prefix, i)
      else TicksSinceBeginSafe(prefix, i)
  }

  /** Whether `begin` has been called at all. */
  predicate Begun(calls: seq<Call>) {
    exists k :: 0 <= k < |calls| && calls[k].BeginCall?
  }

  lemma PrefixAdmissible(calls: seq<Call>)
    requires AllAdmissible(calls) && calls != []
    ensures AllAdmissible(calls[..|calls| - 1])
  {
  }

  // ---------------------------------------------------------------------
  // What the state holds after a sequence of calls

  /** `get(i)` returns the duty last passed to `set(i, .)`, whatever other
      calls came in between (0 before any `set`). */
  lemma {:induction false} GetReturnsLastSet(calls: seq<Call>, i: uint8)
    requires AllAdmissible(calls) && i < PWM_CHANNELS
    ensures Get(Run(calls), i) == LastDuty(calls, i)
    decreases |calls|
  {
    if calls != [] {
      PrefixAdmissible(calls);
      GetReturnsLastSet(calls[..|calls| - 1], i);
    }
  }

  /** The pin table holds, per channel, the pin of the last in-range
      `connect` on that channel (0 before any). */
  lemma {:induction false} PinIsLastConnect(calls: seq<Call>, i: nat)
    requires AllAdmissible(calls) && i < PWM_CHANNELS
    ensures Run(calls).pins[i] == LastPin(calls, i)
    decreases |calls|
  {
    if calls != [] {
      PrefixAdmissible(calls);
      PinIsLastConnect(calls[..|calls| - 1], i);
    }
  }

  /** A channel's high-time is computed from its last duty and the period in
      force at that `set`; a later `begin` does not recompute it. */
  lemma {:induction false} HighTimeFromLastSet(calls: seq<Call>, i: nat)
    requires AllAdmissible(calls) && i < PWM_CHANNELS
    ensures Run(calls).channels[i].hTime == HighTime(PeriodAtLastSet(calls, i), LastDuty(calls, i))
    decreases |calls|
  {
    if calls != [] {
      PrefixAdmissible(calls);
      HighTimeFromLastSet(calls[..|calls| - 1], i);
    }
  }

  /** If no `begin` came after the last `set` on channel `i`, that `set`
      used the period still in force. */
  lemma {:induction false} SetSinceBeginUsesCurrentPeriod(calls: seq<Call>, i: nat)
    requires AllAdmissible(calls) && i < PWM_CHANNELS
    requires SetSinceBegin(calls, i)
    ensures PeriodAtLastSet(calls, i) == Run(calls).period
    decreases |calls|
  {
    var c := calls[|calls| - 1];
    if !(c.SetCall? && c.index == i) {
      PrefixAdmissible(calls);
      SetSinceBeginUsesCurrentPeriod(calls[..|calls| - 1], i);
    }
  }

  /** Once `begin` has run, the period is the one derived from the last
      requested frequency, and so is at least 1130 us. */
  lemma {:induction false} BegunPeriodPositive(calls: seq<Call>)
    requires AllAdmissible(calls) && Begun(calls)
    ensures MIN_FREQ <= Run(calls).freq <= MAX_FREQ
    ensures Run(calls).period == PeriodFor(Run(calls).freq)
    ensures Run(calls).period >= 1130
    decreases |calls|
  {
    var c := calls[|calls| - 1];
    PrefixAdmissible(calls);
    if !c.BeginCall? {
      var k :| 0 <= k < |calls| && calls[k].BeginCall?;
      assert calls[..|calls| - 1][k].BeginCall?;
      BegunPeriodPositive(calls[..|calls| - 1]);
    }
    PeriodAfterClampAtLeast(Run(calls).freq);
  }

  /** An active channel's one-shot is not pending before a tick as long as
      no tick since the last `begin` found its high-time beyond the period. */
  lemma {:induction false} NoPendingTimerWhenTicksSafe(calls: seq<Call>, i: nat)
    requires AllAdmissible(calls) && i < PWM_CHANNELS
    requires i < Run(calls).count && TicksSinceBeginSafe(calls, i)
    ensures Run(calls).channels[i].timer.Disarmed?
    decreases |calls|
  {
    var c := calls[|calls| - 1];
    PrefixAdmissible(calls);
    var prefix := calls[..|calls| - 1];
    if !c.BeginCall? {
      NoPendingTimerWhenTicksSafe(prefix, i);
      if c.PeriodElapsed? {
        AdvanceSettles(Run(prefix), i);
      }
    }
  }

  /** The end-to-end waveform: after any call sequence in which channel `i`
      is active and was set after the last `begin`, the channel is high for
      exactly the first period*duty/255 microseconds of the period, where
      duty is the value `get(i)` returns, except that at full duty a one-shot
      left pending from an earlier tick still cuts the pulse when it fires.
      Duty 0 never goes high. When no tick since the last `begin` found a
      stale high-time, nothing is left pending, and full duty never goes low. */
  lemma WaveformFollowsLastDuty(calls: seq<Call>, i: uint8, t: nat)
    requires AllAdmissible(calls)
    requires i < Run(calls).count && t < Run(calls).period
    requires SetSinceBegin(calls, i)
    ensures var s := Run(calls);
      LevelAt(s, i, t) == High <==>
        t < HighTime(s.period, Get(s, i)) && (Get(s, i) == PWM_MAX_DUTY ==> !FiredBy(s.channels[i].timer, t))
    ensures Get(Run(calls), i) == 0 ==> LevelAt(Run(calls), i, t) == Low
    ensures TicksSinceBeginSafe(calls, i) ==>
      (LevelAt(Run(calls), i, t) == High <==> t < HighTime(Run(calls).period, Get(Run(calls), i)))
    ensures TicksSinceBeginSafe(calls, i) && Get(Run(calls), i) == PWM_MAX_DUTY ==> LevelAt(Run(calls), i, t) == High
  {
    var s := Run(calls);
    HighTimeFromLastSet(calls, i);
    GetReturnsLastSet(calls, i);
    SetSinceBeginUsesCurrentPeriod(calls, i);
    LevelIsHighExactlyBeforeHighTime(s, i, t);
    HighTimeExtremes(s.period);
    FullHighTimeIffFullDuty(s.period, Get(s, i));
    if TicksSinceBeginSafe(calls, i) {
      NoPendingTimerWhenTicksSafe(calls, i);
    }
  }

  /** Full duty set after a restart can still go low: duty 128 set at 100 Hz
      keeps a 5019 us high-time after a restart at 500 Hz; the first tick
      arms a 5019 us one-shot; `set(0, 255)` then makes the high-time equal
      to the 2000 us period, so later ticks leave the timer alone, and the
      leftover one-shot fires 1019 us into the second period after it was
      armed, driving the pin low although `get(0)` returns 255. */
  lemma StaleOneShotCutsFullDuty()
    ensures var calls := [BeginCall(1, 100), SetCall(0, 128), BeginCall(1, 500), PeriodElapsed,
                          SetCall(0, 255), PeriodElapsed];
      && AllAdmissible(calls)
      && SetSinceBegin(calls, 0)
      && !TicksSinceBeginSafe(calls, 0)
      && var s := Run(calls);
      && s.count == 1
      && Get(s, 0) == PWM_MAX_DUTY
      && s.period == 2000
      && s.channels[0].timer == Armed(1019)
      && LevelAt(s, 0, 1018) == High
      && LevelAt(s, 0, 1019) == Low
  {
    var calls := [BeginCall(1, 100), SetCall(0, 128), BeginCall(1, 500), PeriodElapsed,
                  SetCall(0, 255), PeriodElapsed];
    var c3 := [BeginCall(1, 100), SetCall(0, 128), BeginCall(1, 500)];
    var c4 := c3 + [PeriodElapsed];
    var c5 := c4 + [SetCall(0, 255)];
    assert calls == c5 + [PeriodElapsed];
    assert c5[..|c5| - 1] == c4;
    assert c4[..|c4| - 1] == c3;
    assert calls[..|calls| - 1] == c5;
    StaleHighTimeAfterRestart(0);
    var s3 := Run(c3);
    assert s3.channels[0].timer == Disarmed;
    AdvanceLeavesStaleTimer(s3, 0);
    var s4 := Run(c4);
    assert s4.channels[0].timer == Armed(3019);
    var s5 := Run(c5);
    assert s5.channels[0].timer == Armed(3019);
    assert s5.channels[0].hTime == 2000;
    var s := Run(calls);
    assert Tick(s5)[0] == Decide(s5, 0);
    assert TimerAfterTick(s5, 0) == Armed(3019);
    assert s.channels[0].timer == Armed(1019);
    LevelIsHighExactlyBeforeHighTime(s, 0, 1018);
    LevelIsHighExactlyBeforeHighTime(s, 0, 1019);
  }

  /** The high-time is not rescaled by `begin`: a channel set to duty 128
      at 100 Hz keeps 5019 us after restarting at 500 Hz, longer than the
      new 2000 us period, so the tick re-arms a one-shot that never fires
      before the next tick and the channel stays high throughout. */
  lemma StaleHighTimeAfterRestart(t: nat)
    requires t < 2000
    ensures var s := Run([BeginCall(1, 100), SetCall(0, 128), BeginCall(1, 500)]);
      && s.period == 2000
      && s.channels[0].hTime == 5019
      && s.channels[0].timer == Disarmed
      && Tick(s)[0].oneShot == Rearm(5019)
      && LevelAt(s, 0, t) == High
  {
    var calls := [BeginCall(1, 100), SetCall(0, 128), BeginCall(1, 500)];
    assert calls[..2] == [BeginCall(1, 100), SetCall(0, 128)];
    assert calls[..2][..1] == [BeginCall(1, 100)];
    assert calls[..2][..1][..0] == [];
    var s := Run(calls);
    LevelIsHighExactlyBeforeHighTime(s, 0, t);
  }
}
