/** The heart-rate zones of the profile settings page,
    app/settings/profile/page.tsx: the Karvonen formula, target =
    rest + (max − rest) × intensity, rounded, at 50 %, 70 % and 85 % of the
    heart-rate reserve. */
module ProfileSettings {
  import opened JsBuiltins

  datatype Band = Band(min: int, max: int)

  datatype HeartRateZones = HeartRateZones(resting: Band, warmUp: Band, fatBurn: Band, cardio: Band, peak: Band)

  /** The Karvonen target heart rate for an intensity. */
  function KarvonenTarget(restingHeartRate: int, maxHeartRate: int, intensity: real): real
  {
    restingHeartRate as real + (maxHeartRate - restingHeartRate) as real * intensity
  }

  /** `calculateHeartRateZones` */
  function CalculateHeartRateZones(restingHeartRate: int, maxHeartRate: int): (z: HeartRateZones)
    ensures z.resting.min == 0 && z.resting.max == restingHeartRate
    ensures z.warmUp.min == z.resting.max && z.fatBurn.min == z.warmUp.max
    ensures z.cardio.min == z.fatBurn.max && z.peak.min == z.cardio.max
    ensures z.peak.max == maxHeartRate
  {
    var warm := Round(KarvonenTarget(restingHeartRate, maxHeartRate, 0.5));
    var fat := Round(KarvonenTarget(restingHeartRate, maxHeartRate, 0.7));
    var cardio := Round(KarvonenTarget(restingHeartRate, maxHeartRate, 0.85));
    HeartRateZones(
      Band(0, restingHeartRate),
      Band(restingHeartRate, warm),
      Band(warm, fat),
      Band(fat, cardio),
      Band(cardio, maxHeartRate))
  }

  /** Each inner boundary is the integer nearest to rest + (max − rest) × k,
      halves rounded up, for k = 50 %, 70 % and 85 % of the heart-rate
      reserve. */
  lemma ZoneBoundaries(rest: int, max: int)
    ensures var z := CalculateHeartRateZones(rest, max);
      z.warmUp.max as real - 0.5 <= rest as real + (max - rest) as real * 0.5 < z.warmUp.max as real + 0.5
    ensures var z := CalculateHeartRateZones(rest, max);
      z.fatBurn.max as real - 0.5 <= rest as real + (max - rest) as real * 0.7 < z.fatBurn.max as real + 0.5
    ensures var z := CalculateHeartRateZones(rest, max);
      z.cardio.max as real - 0.5 <= rest as real + (max - rest) as real * 0.85 < z.cardio.max as real + 0.5
  {
  }

  /** Within the sliders' ranges (resting 40–100, maximum 160–220) every
      zone is non-empty: the boundaries strictly increase. */
  lemma ZonesIncreasing(rest: int, max: int)
    requires 40 <= rest <= 100 && 160 <= max <= 220
    ensures var z := CalculateHeartRateZones(rest, max);
      0 < rest < z.warmUp.max < z.fatBurn.max < z.cardio.max < max
  {
    var reserve := (max - rest) as real;
    assert reserve >= 60.0;
    RoundOfInt(rest);
    RoundOfInt(max);
    RoundStrict(rest as real, KarvonenTarget(rest, max, 0.5));
    RoundStrict(KarvonenTarget(rest, max, 0.5), KarvonenTarget(rest, max, 0.7));
    RoundStrict(KarvonenTarget(rest, max, 0.7), KarvonenTarget(rest, max, 0.85));
    RoundStrict(KarvonenTarget(rest, max, 0.85), max as real);
  }

  /** The page's defaults, resting 65 and maximum 190. */
  lemma DefaultZones()
    ensures CalculateHeartRateZones(65, 190) == HeartRateZones(
      Band(0, 65), Band(65, 128), Band(128, 153), Band(153, 171), Band(171, 190))
  {
    assert KarvonenTarget(65, 190, 0.5) == 127.5;
    assert KarvonenTarget(65, 190, 0.7) == 152.5;
    assert KarvonenTarget(65, 190, 0.85) == 171.25;
  }
}
