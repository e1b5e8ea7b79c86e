/**
  `generate_venus_data`: one row per year from 1960 to 2025, each channel
  computed from the year, then the event overlay applied once.

  The sines, cosines and normal draws of the source are not computed here:
  they are columns of `Inputs`. Every call of `_simulate_venus_cycle` in the
  source draws fresh noise, so the base column, the smoothing, the composite
  index and the prediction each get a noise column of their own, while the
  deterministic sine and cosine of a year are shared by all of them.
 */
module Builder {
  import Config
  import opened Calendar
  import opened Channels
  import opened Smoothing
  import opened Rows
  import opened Events

  /** The per-year values the model takes as given. */
  datatype Inputs = Inputs(
    diurnalSine: seq<real>,           // sin(2 pi phase / cycle_years) of the profile's own cycle
    superRotationCosine: seq<real>,   // cos(2 pi phase / 0.62) of the super-rotation cycle
    baseNoise: seq<real>,             // draws of the `Base_Value` column
    smoothingNoise: seq<real>,        // draws of the series that is smoothed
    indexNoise: seq<real>,            // draws of the series the composite index uses
    predictionNoise: seq<real>,       // draws of the series the prediction starts from
    forecastNoise: seq<real>,         // relative forecast error after 2020
    atmosphericEffects: seq<real>,
    cloudVariations: seq<real>,
    volcanicInfluence: seq<real>,
    diurnalVariation: seq<real>,
    annualVariation: seq<real>)

  /** Every input column has one value per year of a table of `n` rows. */
  predicate Fits(inp: Inputs, n: nat)
  {
    && |inp.diurnalSine| == n
    && |inp.superRotationCosine| == n
    && |inp.baseNoise| == n
    && |inp.smoothingNoise| == n
    && |inp.indexNoise| == n
    && |inp.predictionNoise| == n
    && |inp.forecastNoise| == n
    && |inp.atmosphericEffects| == n
    && |inp.cloudVariations| == n
    && |inp.volcanicInfluence| == n
    && |inp.diurnalVariation| == n
    && |inp.annualVariation| == n
  }

  /** The number of rows of the table. */
  const RowCount: nat := EndYear - StartYear + 1

  /** One call of `_simulate_venus_cycle`: the primary value of every year,
      with the given noise draws. */
  function PrimarySeries(p: Config.Profile, inp: Inputs, noise: seq<real>): (xs: seq<real>)
    requires Fits(inp, RowCount) && |noise| == RowCount
    ensures |xs| == RowCount
    ensures forall i :: 0 <= i < RowCount ==>
      xs[i] == PrimarySample(p, inp.diurnalSine[i], inp.superRotationCosine[i], noise[i])
  {
    seq(RowCount, i requires 0 <= i < RowCount =>
      PrimarySample(p, inp.diurnalSine[i], inp.superRotationCosine[i], noise[i]))
  }

  /** With every sine and cosine in [-1, 1] and a non-negative amplitude,
      each value of a call lies within one amplitude of the base value, up to
      its own noise draw. */
  lemma {:induction false} PrimarySeriesWithinAmplitude(p: Config.Profile, inp: Inputs, noise: seq<real>)
    requires Fits(inp, RowCount) && |noise| == RowCount
    requires p.amplitude >= 0.0
    requires forall k :: 0 <= k < RowCount ==> -1.0 <= inp.diurnalSine[k] <= 1.0
    requires forall k :: 0 <= k < RowCount ==> -1.0 <= inp.superRotationCosine[k] <= 1.0
    ensures forall i :: 0 <= i < RowCount ==>
      -p.amplitude <= PrimarySeries(p, inp, noise)[i] - p.baseValue - noise[i] <= p.amplitude
  {
    var xs := PrimarySeries(p, inp, noise);
    forall i | 0 <= i < RowCount
      ensures -p.amplitude <= xs[i] - p.baseValue - noise[i] <= p.amplitude
    {
      PrimaryWithinAmplitude(p, inp.diurnalSine[i], inp.superRotationCosine[i], noise[i]);
    }
  }

  /** Two calls give the same series exactly when they draw the same noise. */
  lemma {:induction false} SeriesDeterminesDraws(p: Config.Profile, inp: Inputs, noise: seq<real>, other: seq<real>)
    requires Fits(inp, RowCount) && |noise| == RowCount && |other| == RowCount
    ensures PrimarySeries(p, inp, noise) == PrimarySeries(p, inp, other) <==> noise == other
  {
    var xs, ys := PrimarySeries(p, inp, noise), PrimarySeries(p, inp, other);
    if xs == ys {
      forall i | 0 <= i < RowCount
        ensures noise[i] == other[i]
      {
        var sine, cosine := inp.diurnalSine[i], inp.superRotationCosine[i];
        PrimarySampleShift(p, sine, cosine, other[i], noise[i] - other[i]);
        assert other[i] + (noise[i] - other[i]) == noise[i];
      }
    }
  }

  /** The row of the `i`-th year before the overlay. */
  function RawRow(p: Config.Profile, inp: Inputs, i: nat): Row
    requires Fits(inp, RowCount) && i < RowCount
  {
    var y := Years()[i];
    var sine, cosine := inp.diurnalSine[i], inp.superRotationCosine[i];
    Row(
      earthYear := y,
      venusDay := VenusDay(y),
      baseValue := PrimarySample(p, sine, cosine, inp.baseNoise[i]),
      surfaceConditions := SurfaceConditions(y),
      atmosphericEffects := inp.atmosphericEffects[i],
      solarDayPhase := SolarDayPhase(y),
      climateTrend := ClimateTrend(y),
      cloudVariations := inp.cloudVariations[i],
      volcanicInfluence := inp.volcanicInfluence[i],
      smoothedValue := SmoothedAt(PrimarySeries(p, inp, inp.smoothingNoise), i),
      diurnalVariation := inp.diurnalVariation[i],
      annualVariation := inp.annualVariation[i],
      venusIndex := VenusIndex(PrimarySample(p, sine, cosine, inp.indexNoise[i]),
                               SurfaceConditions(y), inp.cloudVariations[i]),
      hostilityLevel := HostilityLevel(y),
      futurePrediction := FuturePrediction(y, PrimarySample(p, sine, cosine, inp.predictionNoise[i]),
                                           inp.forecastNoise[i]))
  }

  /** The table as built, before the overlay. */
  function BuildRows(p: Config.Profile, inp: Inputs): (rows: seq<Row>)
    requires Fits(inp, RowCount)
    ensures |rows| == RowCount
    ensures forall i :: 0 <= i < RowCount ==> rows[i] == RawRow(p, inp, i)
    ensures forall i :: 0 <= i < RowCount ==> rows[i].earthYear == StartYear + i
    ensures forall i :: 0 <= i < RowCount ==>
      rows[i].surfaceConditions == SurfaceConditions(rows[i].earthYear)
    ensures forall i :: 0 <= i < RowCount ==>
      rows[i].hostilityLevel == HostilityLevel(rows[i].earthYear) && 0.0 <= rows[i].hostilityLevel <= 100.0
  {
    var rows := seq(RowCount, i requires 0 <= i < RowCount => RawRow(p, inp, i));
    forall i | 0 <= i < RowCount
      ensures rows[i].earthYear == StartYear + i
    {
      assert Years()[i] == StartYear + i;
    }
    rows
  }

  /** The surface conditions of a finished row: those of its year, except in
      the three landing years, where the landing factor lifts 1.0 to 1.05,
      1.05 to 1.155 and 1.11 to 1.2765. */
  predicate OverlaidSurface(r: Row)
  {
    var y := r.earthYear;
    && (y !in ScalingYears ==> r.surfaceConditions == SurfaceConditions(y))
    && (y == 1970 ==> r.surfaceConditions == 1.05)
    && (y == 1975 ==> r.surfaceConditions == 1.155)
    && (y == 1982 ==> r.surfaceConditions == 1.2765)
  }

  /** The hostility level of a finished row: on the 0 to 100 scale, the
      mission's literal in a mission year and the level of its year otherwise. */
  predicate OverlaidHostility(r: Row)
  {
    var y := r.earthYear;
    && 0.0 <= r.hostilityLevel <= 100.0
    && (y !in EventYears ==> r.hostilityLevel == HostilityLevel(y))
    && (y in EventYears ==> r.hostilityLevel == EventAt(y).level)
  }

  /** What the finished row of the `i`-th year holds: the year itself, the
      exact calendar channels, the surface conditions scaled by the year's
      landing factor, the hostility level of the year or of its mission, the
      observed value as prediction up to 2020 and the forecast after it, and a
      smoothed value inside the range of its window. */
  predicate RowPromise(p: Config.Profile, inp: Inputs, i: nat, r: Row)
    requires Fits(inp, RowCount) && i < RowCount
  {
    var y := StartYear + i;
    var sine, cosine := inp.diurnalSine[i], inp.superRotationCosine[i];
    var w := WindowOf(PrimarySeries(p, inp, inp.smoothingNoise), i);
    && r.earthYear == y
    && r.venusDay * VenusDayLength == i as real
    && r.solarDayPhase == SolarDayPhase(y)
    && 0.0 <= r.solarDayPhase < 1.0
    && r.climateTrend == 1.0
    && r.baseValue == PrimarySample(p, sine, cosine, inp.baseNoise[i])
    && OverlaidSurface(r)
    && OverlaidHostility(r)
    && (y <= LastObservedYear ==> r.futurePrediction == PrimarySample(p, sine, cosine, inp.predictionNoise[i]))
    && (y > LastObservedYear ==>
          r.futurePrediction == FuturePrediction(y, PrimarySample(p, sine, cosine, inp.predictionNoise[i]), inp.forecastNoise[i]))
    && SampledColumns(p, inp, i, r)
    && Min(w) <= r.smoothedValue <= Max(w)
  }

  /** The base value of the `i`-th row comes from the base call of the
      primary simulation, and its smoothed value from the moving average of
      the smoothing call. */
  predicate SampledColumns(p: Config.Profile, inp: Inputs, i: nat, r: Row)
    requires Fits(inp, RowCount) && i < RowCount
  {
    && r.baseValue == PrimarySeries(p, inp, inp.baseNoise)[i]
    && r.smoothedValue == SmoothedAt(PrimarySeries(p, inp, inp.smoothingNoise), i)
  }

  /** The row of the `i`-th year, built and overlaid, keeps its promise. */
  lemma RowPromiseHolds(p: Config.Profile, inp: Inputs, i: nat)
    requires Fits(inp, RowCount) && i < RowCount
    ensures RowPromise(p, inp, i, ApplyEvent(RawRow(p, inp, i)))
  {
    var y := StartYear + i;
    assert Years()[i] == y;
    RowSurface(p, inp, i);
    SmoothedWithinWindow(PrimarySeries(p, inp, inp.smoothingNoise), i);
  }

  /** The overlaid row of the `i`-th year keeps the year's surface
      conditions, except in the three landing years, where the landing factor
      lifts 1.0 to 1.05, 1.05 to 1.155 and 1.11 to 1.2765. */
  lemma RowSurface(p: Config.Profile, inp: Inputs, i: nat)
    requires Fits(inp, RowCount) && i < RowCount
    ensures StartYear + i !in ScalingYears ==>
      ApplyEvent(RawRow(p, inp, i)).surfaceConditions == SurfaceConditions(StartYear + i)
    ensures StartYear + i == 1970 ==> ApplyEvent(RawRow(p, inp, i)).surfaceConditions == 1.05
    ensures StartYear + i == 1975 ==> ApplyEvent(RawRow(p, inp, i)).surfaceConditions == 1.155
    ensures StartYear + i == 1982 ==> ApplyEvent(RawRow(p, inp, i)).surfaceConditions == 1.2765
  {
    var y := StartYear + i;
    assert Years()[i] == y;
    var r := RawRow(p, inp, i);
    assert r.earthYear == y && r.surfaceConditions == SurfaceConditions(y);
    EventTable(r);
  }

  /** `generate_venus_data`: the 66 yearly rows from 1960 to 2025 with the
      event overlay applied once, each keeping `RowPromise`. */
  function GenerateVenusData(p: Config.Profile, inp: Inputs): (t: seq<Row>)
    requires Fits(inp, RowCount)
    ensures |t| == |Years()|
    ensures forall i :: 0 <= i < |t| ==> t[i].earthYear == Years()[i]
    ensures forall i :: 0 <= i < |t| ==> RowPromise(p, inp, i, t[i])
    ensures forall i :: 0 <= i < |t| ==> OverlaidSurface(t[i]) && OverlaidHostility(t[i])
    ensures forall i :: 0 <= i < |t| ==> SampledColumns(p, inp, i, t[i])
  {
    var rows := BuildRows(p, inp);
    var t := Overlay(rows);
    forall i | 0 <= i < |t|
      ensures RowPromise(p, inp, i, t[i])
      ensures OverlaidSurface(t[i]) && OverlaidHostility(t[i])
      ensures SampledColumns(p, inp, i, t[i])
    {
      RowPromiseHolds(p, inp, i);
    }
    t
  }

  /** The `Base_Value` column of a table. */
  function BaseColumn(t: seq<Row>): (xs: seq<real>)
    ensures |xs| == |t|
    ensures forall i :: 0 <= i < |t| ==> xs[i] == t[i].baseValue
  {
    seq(|t|, i requires 0 <= i < |t| => t[i].baseValue)
  }

  /** The base column of the table is the base call of the primary
      simulation. */
  lemma {:induction false} BaseColumnIsBaseSeries(p: Config.Profile, inp: Inputs)
    requires Fits(inp, RowCount)
    ensures BaseColumn(GenerateVenusData(p, inp)) == PrimarySeries(p, inp, inp.baseNoise)
  {
    var t := GenerateVenusData(p, inp);
    var base := BaseColumn(t);
    forall i | 0 <= i < RowCount
      ensures base[i] == PrimarySeries(p, inp, inp.baseNoise)[i]
    {
      assert SampledColumns(p, inp, i, t[i]);
    }
  }

  /** The smoothed column is the moving average of the `Base_Value` column
      exactly when the smoothing call draws the same noise as the base call:
      the source smooths a fresh call of `_simulate_venus_cycle`, not the
      column, and with 66 rows the moving average determines its series. */
  lemma {:induction false} SmoothedFollowsBaseIffSameDraws(p: Config.Profile, inp: Inputs)
    requires Fits(inp, RowCount)
    ensures (forall i :: 0 <= i < RowCount ==>
               GenerateVenusData(p, inp)[i].smoothedValue == SmoothedAt(BaseColumn(GenerateVenusData(p, inp)), i))
      <==> inp.smoothingNoise == inp.baseNoise
  {
    var smoothed := PrimarySeries(p, inp, inp.smoothingNoise);
    var base := PrimarySeries(p, inp, inp.baseNoise);
    var t := GenerateVenusData(p, inp);
    BaseColumnIsBaseSeries(p, inp);
    assert forall i :: 0 <= i < RowCount ==> SampledColumns(p, inp, i, t[i]);
    SmoothingDeterminesSeries(smoothed, base);
    SeriesDeterminesDraws(p, inp, inp.smoothingNoise, inp.baseNoise);
  }

  /** A finished row of a year from 2011 on sits at the top of the hostility scale. */
  lemma SaturatedRow(r: Row)
    requires r.earthYear >= 2011
    requires OverlaidHostility(r)
    ensures r.hostilityLevel == 100.0
  {
    HostilitySaturation(r.earthYear);
  }

  /** No mission falls after 2010, so from 2011 on every generated row sits
      at the top of the hostility scale. */
  lemma {:induction false} LateYearsSaturate(p: Config.Profile, inp: Inputs)
    requires Fits(inp, RowCount)
    ensures forall i :: 0 <= i < RowCount && GenerateVenusData(p, inp)[i].earthYear >= 2011 ==>
      GenerateVenusData(p, inp)[i].hostilityLevel == 100.0
  {
    var t := GenerateVenusData(p, inp);
    forall i | 0 <= i < RowCount && t[i].earthYear >= 2011
      ensures t[i].hostilityLevel == 100.0
    {
      SaturatedRow(t[i]);
    }
  }

  /** The finished 1982 row lies above the finished 1983 row. */
  lemma LandingAboveNextYear(r: Row, next: Row)
    requires r.earthYear == 1982 && next.earthYear == 1983
    requires OverlaidSurface(r) && OverlaidSurface(next)
    ensures r.surfaceConditions == 1.2765 && next.surfaceConditions == 1.115
    ensures r.surfaceConditions > next.surfaceConditions
  {
    assert SurfaceConditions(1983) == 1.115;
  }

  /** After the overlay the surface conditions are no longer non-decreasing:
      the 1982 landing factor lifts 1982 above 1983. */
  lemma OverlayBreaksSurfaceOrder(p: Config.Profile, inp: Inputs)
    requires Fits(inp, RowCount)
    ensures GenerateVenusData(p, inp)[22].earthYear == 1982
    ensures GenerateVenusData(p, inp)[22].surfaceConditions > GenerateVenusData(p, inp)[23].surfaceConditions
  {
    var t := GenerateVenusData(p, inp);
    assert Years()[22] == 1982 && Years()[23] == 1983;
    LandingAboveNextYear(t[22], t[23]);
  }
}
