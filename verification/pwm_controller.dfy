/** The public driver operations: binding a pin to a channel, starting the
    driver at a frequency, and storing/reading a channel's duty. */
module PwmController {
  import opened Ints
  import opened PwmState

  /** Distance between two integers. */
  function Distance(a: int, b: int): nat {
    if a <= b then b - a else a - b
  }

  /** The frequency `begin` keeps: the request saturated into
      [MIN_FREQ, MAX_FREQ]. */
  function ClampFrequency(freq: uint16): (f: uint16)
    ensures MIN_FREQ <= f <= MAX_FREQ
    ensures f == freq <==> MIN_FREQ <= freq <= MAX_FREQ
    ensures forall g :: MIN_FREQ <= g <= MAX_FREQ ==> Distance(f, freq) <= Distance(g, freq)
  {
    if freq > MAX_FREQ as int then MAX_FREQ
    else if freq < MIN_FREQ as int then MIN_FREQ
    else freq
  }

  /** Lowest frequency whose period fits the 16-bit period field. */
  const MIN_UNWRAPPED_FREQ: nat := 16

  /** The period field `begin` stores: one second divided by the frequency,
      written into an unsigned 16-bit field. The quotient fits exactly when
      the frequency is at least 16 Hz; below that the field keeps only the
      quotient modulo 2^16. */
  function PeriodFor(freq: uint16): (p: uint16)
    requires freq >= 1
    ensures freq >= MIN_UNWRAPPED_FREQ ==> p * freq <= PWM_1S < (p + 1) * freq
    ensures freq < MIN_UNWRAPPED_FREQ ==> p < PWM_1S / freq && (PWM_1S / freq - p) % UINT16_LIMIT == 0
  {
    Wrap16(PWM_1S / freq)
  }

  /** The high-time `set` derives: the period scaled by duty/255, truncated.
      The product is at most 65535 * 255, so it does not overflow the
      32-bit arithmetic, and the quotient never exceeds the period. */
  function HighTime(period: uint16, duty: uint8): (h: uint16)
    ensures h <= period
    ensures h * PWM_MAX_DUTY <= period * duty < (h + 1) * PWM_MAX_DUTY
  {
    var h := period * duty / PWM_MAX_DUTY;
    assert h <= period by {
      assert period * duty <= period * PWM_MAX_DUTY;
    }
    h
  }

  /** `connect`: an index beyond the tables is ignored; otherwise the pin is
      recorded for that channel only. */
  function Connect(s: Controller, index: uint8, pin: uint8): (r: Controller)
    requires s.Valid()
    ensures r.Valid()
    ensures index >= PWM_CHANNELS ==> r == s
    ensures index < PWM_CHANNELS ==> r.pins[index] == pin
    ensures forall j :: 0 <= j < PWM_CHANNELS && j != index ==> r.pins[j] == s.pins[j]
    ensures r.channels == s.channels && r.count == s.count
    ensures r.period == s.period && r.freq == s.freq
  {
    if index < PWM_CHANNELS as int then s.(pins := s.pins[index := pin]) else s
  }

  /** `begin`: fixes the channel count, clamps the frequency, derives the
      period from it and disarms the one-shot timer of every active channel.
      Pins, duties and high-times are kept as they are; in particular the
      high-times are NOT rescaled to the new period. Channels beyond the new
      count keep their timer state. */
  function Begin(s: Controller, count: uint8, freq: uint16): (r: Controller)
    requires s.Valid()
    requires count <= PWM_CHANNELS
    ensures r.Valid()
    ensures r.count == count
    ensures r.freq == ClampFrequency(freq)
    ensures r.period == PeriodFor(r.freq)
    ensures r.pins == s.pins
    ensures forall j :: 0 <= j < PWM_CHANNELS ==>
      && r.channels[j].hTime == s.channels[j].hTime
      && r.channels[j].duty == s.channels[j].duty
      && r.channels[j].timer == (if j < count then Disarmed else s.channels[j].timer)
  {
    var f := ClampFrequency(freq);
    var channels := seq(PWM_CHANNELS, j requires 0 <= j < PWM_CHANNELS =>
      if j < count as int then s.channels[j].(timer := Disarmed) else s.channels[j]);
    s.(channels := channels, count := count, freq := f, period := PeriodFor(f))
  }

  /** `set`: stores the duty of one channel and its high-time under the
      period currently in force; every other slot is left alone. */
  function Set(s: Controller, index: uint8, duty: uint8): (r: Controller)
    requires s.Valid()
    requires index < PWM_CHANNELS
    ensures r.Valid()
    ensures r.channels[index].duty == duty
    ensures r.channels[index].hTime == HighTime(s.period, duty)
    ensures r.channels[index].hTime <= r.period
    ensures r.channels[index].timer == s.channels[index].timer
    ensures forall j :: 0 <= j < PWM_CHANNELS && j != index ==> r.channels[j] == s.channels[j]
    ensures r.pins == s.pins && r.count == s.count
    ensures r.period == s.period && r.freq == s.freq
  {
    s.(channels := s.channels[index := s.channels[index].(hTime := HighTime(s.period, duty), duty := duty)])
  }

  /** `get`: the duty stored for a channel. What it returns is stated by the
      lemmas below and by `PwmTrace.GetReturnsLastSet`. */
  function Get(s: Controller, index: uint8): uint8
    requires s.Valid()
    requires index < PWM_CHANNELS
  {
    s.channels[index].duty
  }

  // ---------------------------------------------------------------------
  // Properties of the configuration arithmetic

  /** Multiplying by a non-negative factor keeps the order. */
  lemma MulMonotone(a: int, b: int, c: nat)
    requires a <= b
    ensures a * c <= b * c
  {
  }

  /** If `a * c < b * c` for a positive `c`, then `a < b`. */
  lemma MulMonotoneInverse(a: int, b: int, c: nat)
    requires c > 0 && a * c < b * c
    ensures a < b
  {
    if b <= a {
      MulMonotone(b, a, c);
    }
  }

  /** Frequency 0 behaves as 1 Hz, anything above 500 Hz as 500 Hz. */
  lemma ClampExtremes(freq: uint16)
    ensures freq == 0 ==> ClampFrequency(freq) == MIN_FREQ
    ensures freq > MAX_FREQ ==> ClampFrequency(freq) == MAX_FREQ
  {
  }

  /** For every frequency `begin` can keep that does not wrap, the period
      lies between 2000 us (500 Hz) and 62500 us (16 Hz). */
  lemma PeriodRange(freq: uint16)
    requires MIN_UNWRAPPED_FREQ <= freq <= MAX_FREQ
    ensures PeriodFor(freq) == PWM_1S / freq
    ensures 2000 <= PeriodFor(freq) <= 62500
  {
    var p := PeriodFor(freq);
    MulMonotone(freq, MAX_FREQ, p + 1);
    MulMonotone(MIN_UNWRAPPED_FREQ, freq, p);
  }

  /** The wrap is real: at 1 Hz the stored period is 16960 us, not one second. */
  lemma PeriodWrapsAtOneHertz()
    ensures PeriodFor(1) == 16960
    ensures PeriodFor(1) != PWM_1S
  {
  }

  /** Duty 0 gives no high-time, full duty gives the whole period. */
  lemma HighTimeExtremes(period: uint16)
    ensures HighTime(period, 0) == 0
    ensures HighTime(period, PWM_MAX_DUTY) == period
  {
  }

  /** The division truncates: half duty of a 1000 us period is 501 us, not 502. */
  lemma HighTimeTruncates()
    ensures HighTime(1000, 128) == 501
  {
  }

  /** A larger duty never gives a shorter high-time. */
  lemma HighTimeMonotone(period: uint16, d1: uint8, d2: uint8)
    requires d1 <= d2
    ensures HighTime(period, d1) <= HighTime(period, d2)
  {
    var h1, h2 := HighTime(period, d1), HighTime(period, d2);
    MulMonotone(d1, d2, period);
    assert h1 * PWM_MAX_DUTY < (h2 + 1) * PWM_MAX_DUTY;
    MulMonotoneInverse(h1, h2 + 1, PWM_MAX_DUTY);
  }

  /** With a non-zero period, the high-time is the full period exactly for
      full duty: no other duty suppresses the falling edge. */
  lemma FullHighTimeIffFullDuty(period: uint16, duty: uint8)
    requires period > 0
    ensures HighTime(period, duty) == period <==> duty == PWM_MAX_DUTY
  {
    if duty < PWM_MAX_DUTY {
      MulMonotone(duty + 1, PWM_MAX_DUTY, period);
      assert period * duty < period * PWM_MAX_DUTY;
    }
  }

  /** With a period of at least 255 us, the high-time is zero exactly for
      duty 0: every non-zero duty produces a pulse. */
  lemma ZeroHighTimeIffZeroDuty(period: uint16, duty: uint8)
    requires period >= PWM_MAX_DUTY
    ensures HighTime(period, duty) == 0 <==> duty == 0
  {
    if duty > 0 {
      MulMonotone(1, duty, period);
    }
  }

  /** Every period `begin` can store is at least 1130 us (the smallest of
      the wrapped values, at 15 Hz), so it is never zero. */
  lemma PeriodAfterClampAtLeast(freq: uint16)
    requires MIN_FREQ <= freq <= MAX_FREQ
    ensures PeriodFor(freq) >= 1130
  {
    if freq >= MIN_UNWRAPPED_FREQ {
      PeriodRange(freq);
    } else {
      assert freq in {1, 2, 3, 4, 5, 6, 7, 8, 9, 10, 11, 12, 13, 14, 15};
    }
  }

  // ---------------------------------------------------------------------
  // Properties of the channel store

  /** `get` after `set` on the same channel returns the stored duty. */
  lemma SetThenGet(s: Controller, index: uint8, duty: uint8)
    requires s.Valid() && index < PWM_CHANNELS
    ensures Get(Set(s, index, duty), index) == duty
  {
  }

  /** `set` on one channel does not change what `get` returns for another. */
  lemma SetOtherThenGet(s: Controller, i: uint8, j: uint8, duty: uint8)
    requires s.Valid() && i < PWM_CHANNELS && j < PWM_CHANNELS && i != j
    ensures Get(Set(s, j, duty), i) == Get(s, i)
  {
  }

  /** A second `set` on the same channel overwrites the first one entirely. */
  lemma SetTwice(s: Controller, index: uint8, d1: uint8, d2: uint8)
    requires s.Valid() && index < PWM_CHANNELS
    ensures Set(Set(s, index, d1), index, d2) == Set(s, index, d2)
  {
  }

  // ---------------------------------------------------------------------
  // High-times that agree with the period in force

  /** Every slot's high-time is the one its duty gives under the current
      period. */
  predicate Consistent(s: Controller)
    requires s.Valid()
  {
    forall j :: 0 <= j < PWM_CHANNELS ==> s.channels[j].hTime == HighTime(s.period, s.channels[j].duty)
  }

  /** A consistent state never holds a high-time longer than the period. */
  lemma ConsistentWithinPeriod(s: Controller, j: nat)
    requires s.Valid() && Consistent(s) && j < PWM_CHANNELS
    ensures s.channels[j].hTime <= s.period
  {
  }

  /** The zero-initialised state is consistent. */
  lemma InitConsistent()
    ensures Init.Valid() && Consistent(Init)
  {
    forall j | 0 <= j < PWM_CHANNELS
      ensures Init.channels[j].hTime == HighTime(Init.period, Init.channels[j].duty)
    {
      HighTimeExtremes(0);
    }
  }

  /** `set` and `connect` keep the high-times consistent. */
  lemma SetConnectPreserveConsistent(s: Controller, index: uint8, duty: uint8, pin: uint8)
    requires s.Valid() && Consistent(s) && index < PWM_CHANNELS
    ensures Consistent(Set(s, index, duty))
    ensures Consistent(Connect(s, index, pin))
  {
    var r := Set(s, index, duty);
    forall j | 0 <= j < PWM_CHANNELS
      ensures r.channels[j].hTime == HighTime(r.period, r.channels[j].duty)
    {
      if j != index {
        assert r.channels[j] == s.channels[j];
      }
    }
  }

  /** `set` makes an inconsistent slot consistent again. */
  lemma SetRepairsSlot(s: Controller, index: uint8, duty: uint8)
    requires s.Valid() && index < PWM_CHANNELS
    ensures var r := Set(s, index, duty);
      r.channels[index].hTime == HighTime(r.period, r.channels[index].duty)
  {
  }

  /** A restart that keeps the period keeps the high-times consistent. */
  lemma BeginSamePeriodPreservesConsistent(s: Controller, count: uint8, freq: uint16)
    requires s.Valid() && Consistent(s) && count <= PWM_CHANNELS
    requires PeriodFor(ClampFrequency(freq)) == s.period
    ensures Consistent(Begin(s, count, freq))
  {
    var r := Begin(s, count, freq);
    forall j | 0 <= j < PWM_CHANNELS
      ensures r.channels[j].hTime == HighTime(r.period, r.channels[j].duty)
    {
      assert r.channels[j].hTime == s.channels[j].hTime;
      assert r.channels[j].duty == s.channels[j].duty;
    }
  }

  /** A restart at another frequency can leave a high-time stale: duty 128
      set at 100 Hz (period 10000 us) keeps 5019 us after restarting at
      500 Hz, although the new period gives 1003 us and is only 2000 us. */
  lemma RestartBreaksConsistency()
    ensures var s := Begin(Set(Begin(Init, 1, 100), 0, 128), 1, 500);
      && s.period == 2000
      && s.channels[0].hTime == 5019
      && HighTime(s.period, s.channels[0].duty) == 1003
      && !Consistent(s)
  {
    var s := Begin(Set(Begin(Init, 1, 100), 0, 128), 1, 500);
    assert s.channels[0].hTime != HighTime(s.period, s.channels[0].duty);
  }
}
