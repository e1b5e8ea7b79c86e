/**
  The year axis of the table: one row per calendar year from `StartYear` to
  `EndYear` inclusive (the year-end dates of a yearly date range).
 */
module Calendar {

  const StartYear: int := 1960
  const EndYear: int := 2025

  /** The calendar years `lo`, `lo + 1`, ..., `hi`; empty when `lo > hi`,
      as a yearly date range over an inverted interval is. */
  function YearRange(lo: int, hi: int): (ys: seq<int>)
    ensures |ys| == if lo <= hi then hi - lo + 1 else 0
    ensures forall i :: 0 <= i < |ys| ==> ys[i] == lo + i
    decreases hi - lo
  {
    if lo > hi then [] else [lo] + YearRange(lo + 1, hi)
  }

  /** The years of the table. */
  function Years(): (ys: seq<int>)
    ensures |ys| == 66
    ensures ys[0] == StartYear && ys[|ys| - 1] == EndYear
    ensures forall i :: 0 <= i < |ys| - 1 ==> ys[i + 1] == ys[i] + 1
    ensures forall i :: 0 <= i < |ys| ==> StartYear <= ys[i] <= EndYear
  {
    YearRange(StartYear, EndYear)
  }
}
