/**
  The historical-event overlay of `_add_venus_events`: a fixed table from
  mission years to overrides, applied once to the built table. An override
  sets the hostility level to a literal and, for three landing years, also
  scales the surface conditions by a literal factor.
 */
module Events {
  import opened Rows

  /** What the overlay does to the row of one year. */
  datatype Event =
    | NoEvent
    | SetHostility(level: real)
    | ScaleAndSetHostility(factor: real, level: real)

  /** The years the overlay touches. */
  const EventYears: set<int> := {1962, 1967, 1968, 1969, 1970, 1975, 1978, 1982, 1985, 1990, 2005, 2010}

  /** The years whose surface conditions the overlay scales. */
  const ScalingYears: set<int> := {1970, 1975, 1982}

  /** The event table, checked in the order of the source's `elif` chain. */
  function EventAt(year: int): (e: Event)
    ensures e != NoEvent <==> year in EventYears
    ensures e.ScaleAndSetHostility? <==> year in ScalingYears
    ensures e != NoEvent ==> 10.0 <= e.level <= 80.0
    ensures e.ScaleAndSetHostility? ==> 1.0 < e.factor <= 1.15
  {
    if year == 1962 then SetHostility(10.0)              // Mariner 2
    else if 1967 <= year <= 1969 then SetHostility(30.0) // Venera 4, 5, 6
    else if year == 1970 then ScaleAndSetHostility(1.05, 50.0) // Venera 7
    else if year == 1975 then ScaleAndSetHostility(1.1, 70.0)  // Venera 9, 10
    else if year == 1978 then SetHostility(60.0)         // Pioneer Venus
    else if year == 1982 then ScaleAndSetHostility(1.15, 80.0) // Venera 13, 14
    else if year == 1985 then SetHostility(65.0)         // Vega 1, 2
    else if year == 1990 then SetHostility(75.0)         // Magellan
    else if year == 2005 then SetHostility(70.0)         // Venus Express
    else if year == 2010 then SetHostility(72.0)         // Akatsuki
    else NoEvent
  }

  /** The factor the overlay applies to a year's surface conditions (one when
      it leaves them alone). */
  function SurfaceFactor(year: int): real
  {
    match EventAt(year)
    case ScaleAndSetHostility(f, _) => f
    case _ => 1.0
  }

  /** The overlay on one row: only the surface conditions and the hostility
      level can change, and only in an event year. */
  function ApplyEvent(r: Row): (r': Row)
    ensures SameOutsideOverlay(r, r')
    ensures r.earthYear !in EventYears ==> r' == r
    ensures r.earthYear in EventYears ==> r'.hostilityLevel == EventAt(r.earthYear).level
    ensures r.earthYear !in ScalingYears ==> r'.surfaceConditions == r.surfaceConditions
    ensures r.earthYear in ScalingYears ==>
      r'.surfaceConditions == r.surfaceConditions * EventAt(r.earthYear).factor
    ensures 0.0 <= r.hostilityLevel <= 100.0 ==> 0.0 <= r'.hostilityLevel <= 100.0
  {
    match EventAt(r.earthYear)
    case NoEvent => r
    case SetHostility(h) => r.(hostilityLevel := h)
    case ScaleAndSetHostility(f, h) => r.(surfaceConditions := r.surfaceConditions * f, hostilityLevel := h)
  }

  /** The overlay year by year, as the mission table lists it. */
  lemma EventTable(r: Row)
    ensures r.earthYear == 1962 ==> ApplyEvent(r) == r.(hostilityLevel := 10.0)
    ensures 1967 <= r.earthYear <= 1969 ==> ApplyEvent(r) == r.(hostilityLevel := 30.0)
    ensures r.earthYear == 1970 ==>
      ApplyEvent(r) == r.(surfaceConditions := r.surfaceConditions * 1.05, hostilityLevel := 50.0)
    ensures r.earthYear == 1975 ==>
      ApplyEvent(r) == r.(surfaceConditions := r.surfaceConditions * 1.1, hostilityLevel := 70.0)
    ensures r.earthYear == 1978 ==> ApplyEvent(r) == r.(hostilityLevel := 60.0)
    ensures r.earthYear == 1982 ==>
      ApplyEvent(r) == r.(surfaceConditions := r.surfaceConditions * 1.15, hostilityLevel := 80.0)
    ensures r.earthYear == 1985 ==> ApplyEvent(r) == r.(hostilityLevel := 65.0)
    ensures r.earthYear == 1990 ==> ApplyEvent(r) == r.(hostilityLevel := 75.0)
    ensures r.earthYear == 2005 ==> ApplyEvent(r) == r.(hostilityLevel := 70.0)
    ensures r.earthYear == 2010 ==> ApplyEvent(r) == r.(hostilityLevel := 72.0)
  {
  }

  /** `_add_venus_events` on a whole table: every row passes through the
      event table once; rows keep their order and year, and the 0 to 100
      hostility range survives because every literal lies in [10, 80]. */
  function Overlay(rows: seq<Row>): (out: seq<Row>)
    ensures |out| == |rows|
    ensures forall i :: 0 <= i < |rows| ==> out[i] == ApplyEvent(rows[i])
    ensures forall i :: 0 <= i < |rows| ==> SameOutsideOverlay(rows[i], out[i])
    ensures forall i :: 0 <= i < |rows| && rows[i].earthYear !in EventYears ==> out[i] == rows[i]
    ensures (forall i :: 0 <= i < |rows| ==> 0.0 <= rows[i].hostilityLevel <= 100.0) ==>
      forall i :: 0 <= i < |out| ==> 0.0 <= out[i].hostilityLevel <= 100.0
  {
    if |rows| == 0 then []
    else [ApplyEvent(rows[0])] + Overlay(rows[1..])
  }

  /** The overlay on one row, applied twice: the hostility literal is set
      again to the same value, but the surface conditions of a landing year
      are scaled a second time, so the row changes again unless they are
      zero. */
  lemma ApplyEventTwice(r: Row)
    ensures ApplyEvent(ApplyEvent(r)).hostilityLevel == ApplyEvent(r).hostilityLevel
    ensures ApplyEvent(ApplyEvent(r)).surfaceConditions
      == r.surfaceConditions * SurfaceFactor(r.earthYear) * SurfaceFactor(r.earthYear)
    ensures ApplyEvent(ApplyEvent(r)) == ApplyEvent(r) <==>
      r.earthYear !in ScalingYears || r.surfaceConditions == 0.0
  {
    var s := r.surfaceConditions;
    var y := r.earthYear;
    if y == 1970 {
      assert s * 1.05 * 1.05 == s * 1.05 <==> s == 0.0;
    } else if y == 1975 {
      assert s * 1.1 * 1.1 == s * 1.1 <==> s == 0.0;
    } else if y == 1982 {
      assert s * 1.15 * 1.15 == s * 1.15 <==> s == 0.0;
    }
  }

  /** A second application changes the table exactly when some landing year
      has non-zero surface conditions: the overlay is not idempotent. */
  lemma {:induction false} OverlayIdempotentIff(rows: seq<Row>)
    ensures Overlay(Overlay(rows)) == Overlay(rows) <==>
      forall i :: 0 <= i < |rows| && rows[i].earthYear in ScalingYears ==> rows[i].surfaceConditions == 0.0
  {
    var once := Overlay(rows);
    var twice := Overlay(once);
    if forall i :: 0 <= i < |rows| && rows[i].earthYear in ScalingYears ==> rows[i].surfaceConditions == 0.0 {
      forall i | 0 <= i < |rows|
        ensures twice[i] == once[i]
      {
        ApplyEventTwice(rows[i]);
      }
      assert twice == once;
    } else {
      var i :| 0 <= i < |rows| && rows[i].earthYear in ScalingYears && rows[i].surfaceConditions != 0.0;
      ApplyEventTwice(rows[i]);
      assert twice[i] != once[i];
    }
  }
}
