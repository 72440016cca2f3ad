/** The sensor-readings card of components/sensor-readings.tsx: raw FSR
    readings above 100 are scaled from 0–1023 to a percentage, the heart
    rate gets an absolute-BPM zone and a matching colour, and the heart-rate
    bar shows half the BPM, capped at 100. */
module SensorReadings {
  import opened JsBuiltins

  /** `normalizeValue` */
  function NormalizeValue(value: int): (r: int)
    ensures r <= 100
    ensures value <= 100 ==> r == value
  {
    if value > 100 then Min(100, Round(value as real / 1023.0 * 100.0)) else value
  }

  /** Readings up to 100 are taken as percentages already; larger ones are
      raw 0–1023 readings scaled to the nearest whole percentage, which
      lands in [10, 100]; so no result exceeds 100. */
  lemma NormalizeValueRange(value: int)
    ensures NormalizeValue(value) <= 100
    ensures value <= 100 ==> NormalizeValue(value) == value
    ensures value > 100 ==> 10 <= NormalizeValue(value) <= 100
    ensures 100 < value <= 1023 ==>
      NormalizeValue(value) as real - 0.5 <= value as real * 100.0 / 1023.0 < NormalizeValue(value) as real + 0.5
  {
    if value > 100 {
      RoundMonotone(101.0 / 1023.0 * 100.0, value as real / 1023.0 * 100.0);
      assert Round(101.0 / 1023.0 * 100.0) == 10;
    }
  }

  lemma NormalizeValueIdempotent(value: int)
    ensures NormalizeValue(NormalizeValue(value)) == NormalizeValue(value)
  {
    NormalizeValueRange(value);
  }

  /** A stronger raw reading never shows as a smaller percentage. */
  lemma NormalizeValueMonotone(v1: int, v2: int)
    requires 100 < v1 <= v2
    ensures NormalizeValue(v1) <= NormalizeValue(v2)
  {
    RoundMonotone(v1 as real / 1023.0 * 100.0, v2 as real / 1023.0 * 100.0);
  }

  /** `getHeartRateZone` */
  function HeartRateZone(hr: int): (zone: string)
    ensures zone in {"Resting", "Warm Up", "Fat Burn", "Cardio", "Peak"}
    ensures zone == "Resting" <==> hr < 60
    ensures zone == "Peak" <==> hr >= 170
  {
    if hr < 60 then "Resting"
    else if hr < 110 then "Warm Up"
    else if hr < 140 then "Fat Burn"
    else if hr < 170 then "Cardio"
    else "Peak"
  }

  /** `getHeartRateColor` */
  function HeartRateColor(hr: int): (c: string)
    ensures c in {"text-green-500", "text-blue-500", "text-yellow-500", "text-orange-500", "text-red-500"}
    ensures c == "text-green-500" <==> hr < 60
    ensures c == "text-red-500" <==> hr >= 170
  {
    if hr < 60 then "text-green-500"
    else if hr < 110 then "text-blue-500"
    else if hr < 140 then "text-yellow-500"
    else if hr < 170 then "text-orange-500"
    else "text-red-500"
  }

  /** The colour each zone label is shown in. */
  function ZoneColorClass(zone: string): string
  {
    if zone == "Resting" then "text-green-500"
    else if zone == "Warm Up" then "text-blue-500"
    else if zone == "Fat Burn" then "text-yellow-500"
    else if zone == "Cardio" then "text-orange-500"
    else "text-red-500"
  }

  /** The colour and the zone use the same thresholds: the colour is a
      function of the zone, and different zones have different colours. */
  lemma ColorFollowsZone(h1: int, h2: int)
    ensures HeartRateColor(h1) == ZoneColorClass(HeartRateZone(h1))
    ensures HeartRateColor(h1) == HeartRateColor(h2) <==> HeartRateZone(h1) == HeartRateZone(h2)
  {
  }

  /** The heart-rate progress value, `Math.min(100, hr / 2)`. */
  function HeartRateProgress(hr: int): (r: real)
    ensures r <= 100.0
    ensures hr <= 200 ==> r * 2.0 == hr as real
    ensures hr >= 200 ==> r == 100.0
  {
    if 100.0 <= hr as real / 2.0 then 100.0 else hr as real / 2.0
  }
}
