/** The EventSource/mock sensor hook of hooks/use-sensor-data.tsx, as far as
    it computes: its own copy of the absolute-BPM zone rule and the mock
    sample it builds from random draws (the nested `SensorData` shape the
    dashboard page reads). */
module SensorDataHook {
  import opened JsBuiltins
  import SensorReadings

  datatype Force = Force(index: int, middle: int, impact: int)
  datatype HeartRate = HeartRate(current: int, zone: string)
  datatype Movement = Movement(speed: int, acceleration: int, punchesDetected: int)

  /** `SensorData`; the timestamp is not modelled. */
  datatype SensorSample = SensorSample(force: Force, heartRate: HeartRate, movement: Movement, punchCount: int)

  /** `getHeartRateZone` */
  function HeartRateZone(heartRate: int): (zone: string)
    ensures zone in {"Resting", "Warm Up", "Fat Burn", "Cardio", "Peak"}
    ensures zone == "Resting" <==> heartRate < 60
    ensures zone == "Peak" <==> heartRate >= 170
  {
    if heartRate < 60 then "Resting"
    else if heartRate < 110 then "Warm Up"
    else if heartRate < 140 then "Fat Burn"
    else if heartRate < 170 then "Cardio"
    else "Peak"
  }

  /** This copy and the sensor card's agree on every heart rate. */
  lemma SameZoneAsSensorReadings(hr: int)
    ensures HeartRateZone(hr) == SensorReadings.HeartRateZone(hr)
  {
  }

  /** The order Resting < Warm Up < Fat Burn < Cardio < Peak. */
  function ZoneRank(zone: string): nat
  {
    if zone == "Resting" then 0
    else if zone == "Warm Up" then 1
    else if zone == "Fat Burn" then 2
    else if zone == "Cardio" then 3
    else 4
  }

  lemma ZoneMonotone(h1: int, h2: int)
    requires h1 <= h2
    ensures ZoneRank(HeartRateZone(h1)) <= ZoneRank(HeartRateZone(h2))
  {
  }

  /** The eight `Math.random()` draws of one mock sample; the zone is drawn
      independently of the current heart rate. */
  datatype MockDraws = MockDraws(
    index: real, middle: real, impact: real,
    current: real, zoneRate: real,
    speed: real, acceleration: real, punches: real)

  predicate IsRandom(r: real)
  {
    0.0 <= r < 1.0
  }

  predicate ValidDraws(d: MockDraws)
  {
    IsRandom(d.index) && IsRandom(d.middle) && IsRandom(d.impact) && IsRandom(d.current)
    && IsRandom(d.zoneRate) && IsRandom(d.speed) && IsRandom(d.acceleration) && IsRandom(d.punches)
  }

  /** `Math.floor(r * n)` */
  function Scaled(r: real, n: nat): (k: int)
    requires IsRandom(r) && n > 0
    ensures 0 <= k < n
  {
    PositiveProduct(1.0 - r, n as real);
    assert 0.0 <= r * n as real < n as real;
    (r * n as real).Floor
  }

  /** The mock sample; its running punch count is passed in. */
  function MockSample(d: MockDraws, punchCount: int): (s: SensorSample)
    requires ValidDraws(d)
    ensures 0 <= s.force.index <= 99 && 0 <= s.force.middle <= 99 && 0 <= s.force.impact <= 99
    ensures 120 <= s.heartRate.current <= 179
    ensures s.heartRate.zone in {"Fat Burn", "Cardio", "Peak"}
    ensures 0 <= s.movement.speed <= 29 && 0 <= s.movement.acceleration <= 19
    ensures 0 <= s.movement.punchesDetected <= 4
  {
    SensorSample(
      Force(Scaled(d.index, 100), Scaled(d.middle, 100), Scaled(d.impact, 100)),
      HeartRate(120 + Scaled(d.current, 60), HeartRateZone(120 + Scaled(d.zoneRate, 60))),
      Movement(Scaled(d.speed, 30), Scaled(d.acceleration, 20), Scaled(d.punches, 5)),
      punchCount)
  }

  /** Because the zone comes from its own draw, a mock sample can carry a
      zone that does not belong to its heart rate. */
  lemma MockZoneCanDisagree()
    ensures var s := MockSample(MockDraws(0.0, 0.0, 0.0, 0.0, 0.9, 0.0, 0.0, 0.0), 0);
      s.heartRate.zone != HeartRateZone(s.heartRate.current)
  {
    var s := MockSample(MockDraws(0.0, 0.0, 0.0, 0.0, 0.9, 0.0, 0.0, 0.0), 0);
    assert s.heartRate.current == 120;
    assert (0.9 * 60.0).Floor == 54;
  }
}
