/** The heart-rate chart of components/heart-rate-chart.tsx: the maximum
    heart rate taken from the saved profile's age (220 − age, default 220),
    the percentage-of-maximum zone of every reading, the peak reading and a
    history of the last 30 readings, plus the reference thresholds and zone
    colours it draws. */
module HeartRateChart {
  import opened JsBuiltins

  datatype Zone = Rest | Light | Moderate | Hard | Maximum

  function ZoneLabel(z: Zone): string
  {
    match z
    case Rest => "Rest"
    case Light => "Light"
    case Moderate => "Moderate"
    case Hard => "Hard"
    case Maximum => "Maximum"
  }

  /** The position of a zone in the order Rest < Light < … < Maximum. */
  function Rank(z: Zone): nat
  {
    match z
    case Rest => 0
    case Light => 1
    case Moderate => 2
    case Hard => 3
    case Maximum => 4
  }

  /** `(hr / maxHr) * 100 < k` in exact arithmetic.  A maximum of `None` is
      `NaN` (an unreadable age), against which every comparison fails; a
      maximum of 0 makes the percentage ±Infinity (or NaN for hr = 0). */
  predicate PercentBelow(hr: int, maxHr: Option<int>, k: int)
  {
    match maxHr
    case None => false
    case Some(m) =>
      if m > 0 then 100 * hr < k * m
      else if m < 0 then 100 * hr > k * m
      else hr < 0
  }

  /** The zone if-chain. */
  function ZoneOf(hr: int, maxHr: Option<int>): (z: Zone)
    ensures maxHr.None? ==> z == Maximum
    ensures maxHr == Some(0) ==> (z == Rest <==> hr < 0) && (z != Rest ==> z == Maximum)
  {
    if PercentBelow(hr, maxHr, 50) then Rest
    else if PercentBelow(hr, maxHr, 60) then Light
    else if PercentBelow(hr, maxHr, 70) then Moderate
    else if PercentBelow(hr, maxHr, 80) then Hard
    else Maximum
  }

  /** With a positive maximum, the percentage tests are the cross-multiplied
      comparisons, each zone a half-open band of heart rates. */
  lemma ZoneBands(hr: int, m: int)
    requires m > 0
    ensures ZoneOf(hr, Some(m)) == Rest <==> 100 * hr < 50 * m
    ensures ZoneOf(hr, Some(m)) == Light <==> 50 * m <= 100 * hr < 60 * m
    ensures ZoneOf(hr, Some(m)) == Moderate <==> 60 * m <= 100 * hr < 70 * m
    ensures ZoneOf(hr, Some(m)) == Hard <==> 70 * m <= 100 * hr < 80 * m
    ensures ZoneOf(hr, Some(m)) == Maximum <==> 80 * m <= 100 * hr
  {
  }

  /** For a fixed positive maximum, a higher heart rate is never in a lower
      zone. */
  lemma ZoneMonotone(h1: int, h2: int, m: int)
    requires m > 0 && h1 <= h2
    ensures Rank(ZoneOf(h1, Some(m))) <= Rank(ZoneOf(h2, Some(m)))
  {
    ZoneBands(h1, m);
    ZoneBands(h2, m);
  }

  /** A saved profile, as far as the chart reads it. */
  datatype SavedProfile = SavedProfile(age: string)

  /** The maximum heart rate after loading: 220 − parseInt(age) when a
      profile with a non-empty age is saved, else the initial 220. */
  function LoadedMaxHeartRate(saved: Option<SavedProfile>): (r: Option<int>)
    ensures saved.None? || saved.value.age == "" ==> r == Some(220)
    ensures saved.Some? && saved.value.age != "" ==>
      (r.Some? <==> ParseInt(saved.value.age).Some?)
    ensures saved.Some? && saved.value.age != "" && r.Some? ==>
      r.value + ParseInt(saved.value.age).value == 220
  {
    if saved.Some? && saved.value.age != "" then
      match ParseInt(saved.value.age)
      case None => None
      case Some(age) => Some(220 - age)
    else Some(220)
  }

  lemma LoadedFromParsed(s: string, age: int)
    requires s != "" && ParseInt(s) == Some(age)
    ensures LoadedMaxHeartRate(Some(SavedProfile(s))) == Some(220 - age)
  {
    var r := LoadedMaxHeartRate(Some(SavedProfile(s)));
    assert r.Some? && r.value + age == 220;
  }

  /** An age written as digits gives 220 minus that age. */
  lemma LoadedMaxHeartRateOfAge(age: nat)
    ensures LoadedMaxHeartRate(Some(SavedProfile(NatToString(age)))) == Some(220 - age)
  {
    var s := NatToString(age);
    assert s != "";
    ParseIntToString(age);
    LoadedFromParsed(s, age);
  }

  datatype Thresholds = Thresholds(light: int, moderate: int, hard: int, maximum: int)

  /** `zoneThresholds`: the rounded 50/60/70/80 % reference lines. */
  function ZoneThresholds(m: int): (t: Thresholds)
    ensures t.light as real - 0.5 <= m as real * 0.5 < t.light as real + 0.5
    ensures t.moderate as real - 0.5 <= m as real * 0.6 < t.moderate as real + 0.5
    ensures t.hard as real - 0.5 <= m as real * 0.7 < t.hard as real + 0.5
    ensures t.maximum as real - 0.5 <= m as real * 0.8 < t.maximum as real + 0.5
  {
    Thresholds(Round(m as real * 0.5), Round(m as real * 0.6), Round(m as real * 0.7), Round(m as real * 0.8))
  }

  lemma ThresholdsOrdered(m: int)
    requires m >= 0
    ensures var t := ZoneThresholds(m);
      0 <= t.light <= t.moderate <= t.hard <= t.maximum <= m
  {
    var x := m as real;
    RoundMonotone(0.0, x * 0.5);
    RoundMonotone(x * 0.5, x * 0.6);
    RoundMonotone(x * 0.6, x * 0.7);
    RoundMonotone(x * 0.7, x * 0.8);
    RoundMonotone(x * 0.8, x);
    RoundOfInt(m);
  }

  /** `getZoneColor` */
  function ZoneColor(zone: string): (c: string)
    ensures c in {"#4ade80", "#22d3ee", "#fcd34d", "#fb923c", "#ef4444"}
    ensures c == "#4ade80" <==> zone !in {"Light", "Moderate", "Hard", "Maximum"}
  {
    if zone == "Rest" then "#4ade80"
    else if zone == "Light" then "#22d3ee"
    else if zone == "Moderate" then "#fcd34d"
    else if zone == "Hard" then "#fb923c"
    else if zone == "Maximum" then "#ef4444"
    else "#4ade80"
  }

  /** Each zone the chart assigns has its own colour, and any other label
      falls back to the colour of "Rest". */
  lemma ZoneColorsDistinct(z1: Zone, z2: Zone, other: string)
    requires other !in {"Rest", "Light", "Moderate", "Hard", "Maximum"}
    ensures ZoneColor(ZoneLabel(z1)) == ZoneColor(ZoneLabel(z2)) <==> z1 == z2
    ensures ZoneColor(other) == ZoneColor("Rest")
  {
  }

  datatype Point = Point(value: int, zone: Zone)

  const HistoryLength: nat := 30

  class Chart {
    var maxHeartRate: Option<int>
    var peakHeartRate: int
    var heartRateData: seq<Point>

    /** The history is bounded, holds only accepted (positive) readings, and
        none of them is above the peak. */
    ghost predicate Valid()
      reads this
    {
      |heartRateData| <= HistoryLength
      && peakHeartRate >= 0
      && forall i :: 0 <= i < |heartRateData| ==> 0 < heartRateData[i].value <= peakHeartRate
    }

    constructor ()
      ensures Valid()
      ensures maxHeartRate == Some(220) && peakHeartRate == 0 && heartRateData == []
    {
      maxHeartRate := Some(220);
      peakHeartRate := 0;
      heartRateData := [];
    }

    /** The mount effect that reads the saved profile; run on the initial
        state it leaves `LoadedMaxHeartRate(saved)`. */
    method LoadProfile(saved: Option<SavedProfile>)
      requires Valid()
      modifies this`maxHeartRate
      ensures Valid()
      ensures maxHeartRate == if saved.Some? && saved.value.age != "" then LoadedMaxHeartRate(saved) else old(maxHeartRate)
      ensures old(maxHeartRate) == Some(220) ==> maxHeartRate == LoadedMaxHeartRate(saved)
    {
      if saved.Some? && saved.value.age != "" {
        maxHeartRate := LoadedMaxHeartRate(saved);
      }
    }

    /** One run of the reading effect. */
    method OnHeartRate(heartRate: int)
      requires Valid()
      modifies this`peakHeartRate, this`heartRateData
      ensures Valid()
      ensures heartRate <= 0 ==> peakHeartRate == old(peakHeartRate) && heartRateData == old(heartRateData)
      ensures heartRate > 0 ==>
        && peakHeartRate == Max(old(peakHeartRate), heartRate)
        && heartRateData == LastN(old(heartRateData) + [Point(heartRate, ZoneOf(heartRate, maxHeartRate))], HistoryLength)
    {
      if heartRate <= 0 {
        return;
      }
      var zone := Rest;
      if PercentBelow(heartRate, maxHeartRate, 50) { zone := Rest; }
      else if PercentBelow(heartRate, maxHeartRate, 60) { zone := Light; }
      else if PercentBelow(heartRate, maxHeartRate, 70) { zone := Moderate; }
      else if PercentBelow(heartRate, maxHeartRate, 80) { zone := Hard; }
      else { zone := Maximum; }
      if heartRate > peakHeartRate {
        peakHeartRate := heartRate;
      }
      heartRateData := LastN(heartRateData + [Point(heartRate, zone)], HistoryLength);
    }
  }
}
