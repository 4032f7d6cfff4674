/** The rollout-horizon schedule (`set_rollout_length`), which maps the epoch
    index `n` to the length `K` of the synthetic rollouts generated in that
    epoch. The MBPPO and MBPO trainers carry textually identical copies of
    it; `RolloutLength` models both. */
module Horizon {
  import opened Numerics

  /** The `rollout_schedule` configuration entry
      `[min_epoch, max_epoch, min_length, max_length]`. */
  datatype Schedule = Schedule(minEpoch: int, maxEpoch: int, minLength: int, maxLength: int)

  /** `(n - min_epoch) / (max_epoch - min_epoch)` divides by zero. */
  datatype HorizonError = ZeroDivision

  /** The ramp position `min((n - min_epoch) / (max_epoch - min_epoch), 1)`. */
  function RampFraction(s: Schedule, n: int): (dx: real)
    requires s.maxEpoch != s.minEpoch
    ensures dx <= 1.0
    ensures s.minEpoch < s.maxEpoch && s.minEpoch <= n ==> 0.0 <= dx
    ensures s.minEpoch < s.maxEpoch && s.maxEpoch <= n ==> dx == 1.0
  {
    var dx := (n - s.minEpoch) as real / (s.maxEpoch - s.minEpoch) as real;
    assert s.minEpoch < s.maxEpoch ==>
             (s.minEpoch <= n ==> 0.0 <= dx) && (s.maxEpoch <= n ==> 1.0 <= dx) by {
      if s.minEpoch < s.maxEpoch {
        QuotientBounds((n - s.minEpoch) as real, (s.maxEpoch - s.minEpoch) as real);
      }
    }
    if dx <= 1.0 then dx else 1.0
  }

  /** `int(dx * (max_length - min_length) + min_length)` on the ramp. */
  function RampLength(s: Schedule, n: int): int
    requires s.maxEpoch != s.minEpoch
  {
    Trunc(RampValue(s, n))
  }

  /** `dx * (max_length - min_length) + min_length`, before truncation. */
  function RampValue(s: Schedule, n: int): real
    requires s.maxEpoch != s.minEpoch
  {
    RampFraction(s, n) * (s.maxLength - s.minLength) as real + s.minLength as real
  }

  /** The horizon `K` for epoch `n`: 1 without a schedule, `min_length` up to
      and including `min_epoch`, then `int()` of the capped linear ramp. */
  function RolloutLength(schedule: Option<Schedule>, n: int): (r: Result<int, HorizonError>)
    ensures schedule.None? ==> r == Ok(1)
    ensures schedule.Some? && n <= schedule.value.minEpoch ==> r == Ok(schedule.value.minLength)
    ensures r.Err? <==>
              schedule.Some? && n > schedule.value.minEpoch && schedule.value.maxEpoch == schedule.value.minEpoch
    ensures schedule.Some? && n > schedule.value.minEpoch && r.Ok? ==> r.value == RampLength(schedule.value, n)
  {
    match schedule
    case None => Ok(1)
    case Some(s) =>
      if n <= s.minEpoch then Ok(Trunc(s.minLength as real))
      else if s.maxEpoch == s.minEpoch then Err(ZeroDivision)
      else Ok(RampLength(s, n))
  }

  /** A schedule whose ramp runs forward in epochs and does not shrink. */
  predicate Increasing(s: Schedule) {
    s.minEpoch < s.maxEpoch && s.minLength <= s.maxLength
  }

  /** From `max_epoch` on the fraction is capped at 1 and the horizon is `max_length`. */
  lemma AtOrAfterMaxEpoch(s: Schedule, n: int)
    requires s.minEpoch < s.maxEpoch <= n
    ensures RolloutLength(Some(s), n) == Ok(s.maxLength)
  {
    assert RampFraction(s, n) == 1.0;
    assert RampValue(s, n) == s.maxLength as real;
    TruncOfInt(s.maxLength);
    assert RampLength(s, n) == s.maxLength;
  }

  /** For an increasing schedule the horizon always lies in `[min_length, max_length]`. */
  lemma WithinBounds(s: Schedule, n: int)
    requires Increasing(s)
    ensures RolloutLength(Some(s), n).Ok?
    ensures s.minLength <= RolloutLength(Some(s), n).value <= s.maxLength
  {
    if n > s.minEpoch {
      RampValueBounds(s, n);
      TruncMonotone(s.minLength as real, RampValue(s, n));
      TruncMonotone(RampValue(s, n), s.maxLength as real);
      TruncOfInt(s.minLength);
      TruncOfInt(s.maxLength);
    }
  }

  lemma RampValueBounds(s: Schedule, n: int)
    requires Increasing(s) && s.minEpoch < n
    ensures s.minLength as real <= RampValue(s, n) <= s.maxLength as real
  {
    var dx, c := RampFraction(s, n), (s.maxLength - s.minLength) as real;
    ScaleMonotone(0.0, dx, c);
    ScaleMonotone(dx, 1.0, c);
    assert RampValue(s, n) == dx * c + s.minLength as real;
  }

  /** For an increasing schedule the horizon never decreases as epochs advance. */
  lemma Monotone(s: Schedule, n: int, m: int)
    requires Increasing(s) && n <= m
    ensures RolloutLength(Some(s), n).Ok? && RolloutLength(Some(s), m).Ok?
    ensures RolloutLength(Some(s), n).value <= RolloutLength(Some(s), m).value
  {
    WithinBounds(s, n);
    WithinBounds(s, m);
    if s.minEpoch < n {
      RampLengthMonotone(s, n, m);
    }
  }

  lemma RampLengthMonotone(s: Schedule, n: int, m: int)
    requires Increasing(s) && n <= m
    ensures RampLength(s, n) <= RampLength(s, m)
  {
    RampValueMonotone(s, n, m);
    TruncMonotone(RampValue(s, n), RampValue(s, m));
  }

  lemma RampValueMonotone(s: Schedule, n: int, m: int)
    requires Increasing(s) && n <= m
    ensures RampValue(s, n) <= RampValue(s, m)
  {
    var x, y := RampFraction(s, n), RampFraction(s, m);
    var c := (s.maxLength - s.minLength) as real;
    RampMonotone(s, n, m);
    ScaleMonotone(x, y, c);
    assert RampValue(s, n) == x * c + s.minLength as real;
    assert RampValue(s, m) == y * c + s.minLength as real;
  }

  /** The capped ramp position never decreases as epochs advance. */
  lemma RampMonotone(s: Schedule, n: int, m: int)
    requires s.minEpoch < s.maxEpoch && n <= m
    ensures RampFraction(s, n) <= RampFraction(s, m)
  {
    DivideMonotone((n - s.minEpoch) as real, (m - s.minEpoch) as real, (s.maxEpoch - s.minEpoch) as real);
  }

  lemma DivideMonotone(a: real, b: real, d: real)
    requires a <= b && 0.0 < d
    ensures a / d <= b / d
  {
    assert b / d - a / d == (b - a) / d;
  }

  lemma ScaleMonotone(x: real, y: real, c: real)
    requires x <= y && 0.0 <= c
    ensures x * c <= y * c
  {
    assert y * c - x * c == (y - x) * c;
  }

  /** The configured schedule `[20, 100, 1, 15]` gives 1, 8 and 15 at epochs 10, 60 and 150. */
  lemma ExampleSchedule()
    ensures RolloutLength(Some(Schedule(20, 100, 1, 15)), 10) == Ok(1)
    ensures RolloutLength(Some(Schedule(20, 100, 1, 15)), 60) == Ok(8)
    ensures RolloutLength(Some(Schedule(20, 100, 1, 15)), 150) == Ok(15)
  {
    var s := Schedule(20, 100, 1, 15);
    assert RampFraction(s, 60) == 0.5;
    assert Trunc(0.5 * 14.0 + 1.0) == 8;
    AtOrAfterMaxEpoch(s, 150);
  }
}
