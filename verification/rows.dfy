/**
  One row of the Venus table: the Earth year and its fourteen derived
  channels, in the column order of the exported table.
 */
module Rows {

  datatype Row = Row(
    earthYear: int,
    venusDay: real,
    baseValue: real,
    surfaceConditions: real,
    atmosphericEffects: real,
    solarDayPhase: real,
    climateTrend: real,
    cloudVariations: real,
    volcanicInfluence: real,
    smoothedValue: real,
    diurnalVariation: real,
    annualVariation: real,
    venusIndex: real,
    hostilityLevel: real,
    futurePrediction: real)

  /** `r` and `s` agree on every column except possibly the surface
      conditions and the hostility level. */
  predicate SameOutsideOverlay(r: Row, s: Row)
  {
    && r.earthYear == s.earthYear
    && r.venusDay == s.venusDay
    && r.baseValue == s.baseValue
    && r.atmosphericEffects == s.atmosphericEffects
    && r.solarDayPhase == s.solarDayPhase
    && r.climateTrend == s.climateTrend
    && r.cloudVariations == s.cloudVariations
    && r.volcanicInfluence == s.volcanicInfluence
    && r.smoothedValue == s.smoothedValue
    && r.diurnalVariation == s.diurnalVariation
    && r.annualVariation == s.annualVariation
    && r.venusIndex == s.venusIndex
    && r.futurePrediction == s.futurePrediction
  }
}
