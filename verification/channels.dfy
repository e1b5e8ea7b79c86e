/**
  The per-year channels of the Venus table that are exact arithmetic on the
  year: Venus days elapsed, the solar-day phase, the surface-condition eras,
  the hostility scale, the climate trend, and the linear combinators that take
  the primary value as a parameter. Floats are modelled as `real`, so every
  piecewise-linear formula here is exact.
 */
module Channels {
  import opened Calendar
  import opened Config
  import Smoothing

  /** Length of one Venus solar day, in Earth years. */
  const VenusDayLength: real := 0.62

  /** Python's `x % 0.62` on floats: the remainder of the floor division by
      the Venus day length, never negative since the divisor is positive. */
  function VenusDayRemainder(x: real): (r: real)
    ensures 0.0 <= r < VenusDayLength
    ensures ((x - r) / VenusDayLength).Floor as real == (x - r) / VenusDayLength
  {
    x - VenusDayLength * (x / VenusDayLength).Floor as real
  }

  /** `_earth_to_venus_days`: Venus solar days elapsed since the first year. */
  function VenusDay(y: int): (d: real)
    ensures d * VenusDayLength == (y - StartYear) as real
    ensures y == StartYear ==> d == 0.0
  {
    (y - StartYear) as real / VenusDayLength
  }

  /** More Earth years mean strictly more Venus days. */
  lemma VenusDayStrictlyIncreasing(a: int, b: int)
    requires a < b
    ensures VenusDay(a) < VenusDay(b)
  {
  }

  /** `_simulate_solar_day_phase`: the position within the current Venus
      day, which is the fractional part of the Venus-day count. */
  function SolarDayPhase(y: int): (phase: real)
    ensures 0.0 <= phase < 1.0
    ensures phase == VenusDay(y) - VenusDay(y).Floor as real
  {
    var r := VenusDayRemainder((y - StartYear) as real);
    var k := (((y - StartYear) as real - r) / VenusDayLength).Floor;
    assert (y - StartYear) as real == k as real * VenusDayLength + r;
    assert VenusDay(y) == k as real + r / VenusDayLength;
    assert VenusDay(y).Floor == k;
    r / VenusDayLength
  }

  /** `_simulate_surface_conditions`: seven eras, each starting from a fixed
      level and climbing by a fixed amount per year. */
  function SurfaceConditions(y: int): (c: real)
    ensures c >= 0.9
    ensures y < 1970 <==> c == 0.9
    ensures y <= EndYear ==> c <= 1.2125
  {
    if y < 1970 then 0.9
    else if y < 1980 then 1.0 + 0.01 * (y - 1970) as real
    else if y < 1990 then 1.1 + 0.005 * (y - 1980) as real
    else if y < 2000 then 1.15 + 0.003 * (y - 1990) as real
    else if y < 2010 then 1.18 + 0.002 * (y - 2000) as real
    else if y < 2020 then 1.20 + 0.001 * (y - 2010) as real
    else 1.21 + 0.0005 * (y - 2020) as real
  }

  /** From one year to the next the surface conditions never drop, and from
      1969 on they strictly rise: each era starts at or above the level the
      previous era ended on. */
  lemma SurfaceStep(y: int)
    ensures SurfaceConditions(y) <= SurfaceConditions(y + 1)
    ensures y >= 1969 ==> SurfaceConditions(y) < SurfaceConditions(y + 1)
  {
  }

  /** The surface conditions are non-decreasing in the year, and strictly
      increasing from 1970 on. */
  lemma {:induction false} SurfaceMonotone(a: int, b: int)
    requires a <= b
    ensures SurfaceConditions(a) <= SurfaceConditions(b)
    ensures 1970 <= a < b ==> SurfaceConditions(a) < SurfaceConditions(b)
    decreases b - a
  {
    if a < b {
      SurfaceStep(a);
      SurfaceMonotone(a + 1, b);
    }
  }

  /** `min(100, (condition - 0.9) * 333)`: the hostility scale of a surface
      condition, clamped from above only. */
  function Hostility(c: real): (h: real)
    ensures h <= 100.0
    ensures c >= 0.9 ==> h >= 0.0
    ensures h < 100.0 <==> (c - 0.9) * 333.0 < 100.0
    ensures h < 100.0 ==> h == (c - 0.9) * 333.0
  {
    var raw := (c - 0.9) * 333.0;
    if raw < 100.0 then raw else 100.0
  }

  /** A worse surface never means a lower hostility. */
  lemma HostilityMonotone(c1: real, c2: real)
    requires c1 <= c2
    ensures Hostility(c1) <= Hostility(c2)
  {
  }

  /** `_simulate_hostility_level`: the hostility of the year's surface
      conditions, on the 0 to 100 scale. */
  function HostilityLevel(y: int): (h: real)
    ensures 0.0 <= h <= 100.0
    ensures y < 1970 ==> h == 0.0
  {
    Hostility(SurfaceConditions(y))
  }

  /** The upper clamp is reached exactly from 2011 on: 2010 scores 99.9 and
      every later year would exceed 100 without the clamp. */
  lemma {:induction false} HostilitySaturation(y: int)
    ensures HostilityLevel(y) == 100.0 <==> y >= 2011
  {
    if y >= 2011 {
      SurfaceMonotone(2011, y);
      assert SurfaceConditions(2011) == 1.201;
    } else {
      SurfaceMonotone(y, 2010);
      assert SurfaceConditions(2010) == 1.2;
    }
  }

  /** The hostility level is non-decreasing in the year. */
  lemma {:induction false} HostilityLevelMonotone(a: int, b: int)
    requires a <= b
    ensures HostilityLevel(a) <= HostilityLevel(b)
  {
    SurfaceMonotone(a, b);
    HostilityMonotone(SurfaceConditions(a), SurfaceConditions(b));
  }

  /** `_simulate_climate_trend`: a constant, Venus' climate being treated as
      perfectly stable. */
  function ClimateTrend(y: int): (trend: real)
  {
    1.0
  }

  /** `_simulate_venus_index`: the composite index weighs the primary value,
      twenty times the surface conditions and ten times the cloud level by
      0.6, 0.3 and 0.1; the weights sum to one, so the index is a weighted
      mean of the three scaled channels. */
  function VenusIndex(primary: real, surface: real, cloud: real): (r: real)
    ensures Smoothing.Min([primary, 20.0 * surface, 10.0 * cloud]) <= r
    ensures r <= Smoothing.Max([primary, 20.0 * surface, 10.0 * cloud])
  {
    var channels := [primary, 20.0 * surface, 10.0 * cloud];
    assert Smoothing.Min(channels) <= channels[0] && Smoothing.Min(channels) <= channels[1]
      && Smoothing.Min(channels) <= channels[2];
    assert Smoothing.Max(channels) >= channels[0] && Smoothing.Max(channels) >= channels[1]
      && Smoothing.Max(channels) >= channels[2];
    primary * 0.6 + surface * 20.0 * 0.3 + cloud * 10.0 * 0.1
  }

  /** The index rises with each channel and moves by 0.6 per unit of the
      primary value. */
  lemma VenusIndexShift(primary: real, surface: real, cloud: real, delta: real)
    ensures VenusIndex(primary + delta, surface, cloud) == VenusIndex(primary, surface, cloud) + 0.6 * delta
    ensures delta >= 0.0 ==> VenusIndex(primary, surface + delta, cloud) >= VenusIndex(primary, surface, cloud)
    ensures delta >= 0.0 ==> VenusIndex(primary, surface, cloud + delta) >= VenusIndex(primary, surface, cloud)
  {
  }

  /** Last year the prediction reports the observed value; later years are forecasts. */
  const LastObservedYear: int := 2020

  /** `_simulate_future_prediction`: up to 2020 the prediction is the primary
      value; afterwards it is the primary value scaled by `1 + noise`, where
      `noise` is the normal draw (its spread growing by 0.01 a year). */
  function FuturePrediction(y: int, current: real, noise: real): (r: real)
    ensures y <= LastObservedYear ==> r == current
    ensures y > LastObservedYear ==> r - current == current * noise
  {
    if y > LastObservedYear then current * (1.0 + noise) else current
  }

  /** The trend modes with a blend of their own; every other mode uses a
      fifth of the diurnal swing. */
  predicate Blended(t: Trend)
  {
    t == Extreme || t == SuperRotation || t == Cyclique
  }

  /** The mode-specific swing of `_simulate_venus_cycle` around the base
      value, given the diurnal sine and the super-rotation cosine. */
  function Swing(t: Trend, a: real, diurnal: real, superRotation: real): real
  {
    match t
    case Extreme => a * diurnal
    case SuperRotation => a * 0.1 * diurnal + a * 0.9 * superRotation
    case Cyclique => a * (0.7 * diurnal + 0.3 * superRotation)
    case _ => a * 0.2 * diurnal
  }

  /** `_simulate_venus_cycle` for one year, given the year's diurnal sine, its
      super-rotation cosine and its noise draw. A zero cycle length skips the
      blend and yields the base value plus noise. */
  function PrimarySample(p: Profile, diurnal: real, superRotation: real, noise: real): (v: real)
    ensures p.cycleYears == 0.0 ==> v == p.baseValue + noise
    ensures p.cycleYears != 0.0 && p.trend == Extreme ==> v == p.baseValue + p.amplitude * diurnal + noise
  {
    if p.cycleYears == 0.0 then p.baseValue + noise
    else p.baseValue + Swing(p.trend, p.amplitude, diurnal, superRotation) + noise
  }

  /** The noise draw enters a primary sample additively: shifting the draw
      shifts the sample by the same amount, so the draw can be read back from
      the sample. */
  lemma PrimarySampleShift(p: Profile, diurnal: real, superRotation: real, noise: real, delta: real)
    ensures PrimarySample(p, diurnal, superRotation, noise + delta)
      == PrimarySample(p, diurnal, superRotation, noise) + delta
  {
  }

  lemma ScaledWithin(a: real, x: real)
    requires a >= 0.0 && -1.0 <= x <= 1.0
    ensures -a <= a * x <= a
  {
    assert a - a * x == a * (1.0 - x);
    assert a + a * x == a * (1.0 + x);
  }

  lemma SuperRotationSwingWithin(a: real, d: real, s: real)
    requires a >= 0.0 && -1.0 <= d <= 1.0 && -1.0 <= s <= 1.0
    ensures -a <= Swing(SuperRotation, a, d, s) <= a
  {
    ScaledWithin(a, d);
    ScaledWithin(a, s);
    assert Swing(SuperRotation, a, d, s) == 0.1 * (a * d) + 0.9 * (a * s);
  }

  lemma CycliqueSwingWithin(a: real, d: real, s: real)
    requires a >= 0.0 && -1.0 <= d <= 1.0 && -1.0 <= s <= 1.0
    ensures -a <= Swing(Cyclique, a, d, s) <= a
  {
    var mix := 0.7 * d + 0.3 * s;
    ScaledWithin(a, mix);
    assert Swing(Cyclique, a, d, s) == a * mix;
  }

  lemma PlainSwingWithin(t: Trend, a: real, d: real, s: real)
    requires !Blended(t)
    requires a >= 0.0 && -1.0 <= d <= 1.0
    ensures -0.2 * a <= Swing(t, a, d, s) <= 0.2 * a
  {
    ScaledWithin(a, d);
    assert Swing(t, a, d, s) == 0.2 * (a * d);
  }

  /** With the sine and cosine in [-1, 1] and a non-negative amplitude, every
      mode swings at most one amplitude away from the base value, and the modes
      without a blend of their own at most a fifth of it. */
  lemma {:induction false} SwingWithin(t: Trend, a: real, diurnal: real, superRotation: real)
    requires a >= 0.0
    requires -1.0 <= diurnal <= 1.0 && -1.0 <= superRotation <= 1.0
    ensures -a <= Swing(t, a, diurnal, superRotation) <= a
    ensures !Blended(t) ==> -0.2 * a <= Swing(t, a, diurnal, superRotation) <= 0.2 * a
  {
    if t == Extreme {
      ScaledWithin(a, diurnal);
    } else if t == SuperRotation {
      SuperRotationSwingWithin(a, diurnal, superRotation);
    } else if t == Cyclique {
      CycliqueSwingWithin(a, diurnal, superRotation);
    } else {
      PlainSwingWithin(t, a, diurnal, superRotation);
    }
  }

  /** The noise-free part of a primary sample stays within one amplitude of
      the base value. */
  lemma {:induction false} PrimaryWithinAmplitude(p: Profile, diurnal: real, superRotation: real, noise: real)
    requires p.amplitude >= 0.0
    requires -1.0 <= diurnal <= 1.0 && -1.0 <= superRotation <= 1.0
    ensures -p.amplitude <= PrimarySample(p, diurnal, superRotation, noise) - p.baseValue - noise <= p.amplitude
  {
    SwingWithin(p.trend, p.amplitude, diurnal, superRotation);
  }
}
