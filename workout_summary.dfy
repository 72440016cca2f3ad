/** The workout card of components/workout-summary.tsx: a session that
    starts with the first reading and then counts seconds, the peak heart
    rate, calories accrued per effect run from a heart-rate-adjusted MET
    value, the `mm:ss` clock and the intensity message. */
module WorkoutSummary {
  import opened JsBuiltins
  import opened SerialData

  // ------------------------------------------------------------ calories

  /** `8 + (heartRate − 70) / 20` */
  function Met(heartRate: int): real
  {
    8.0 + (heartRate - 70) as real / 20.0
  }

  /** `(MET · 70 · 3.5 / 200) / 60 / 60`: the kilocalories one effect run adds
      (the hourly figure of a 70 kg boxer, spread over one second). */
  function CalorieIncrement(heartRate: int): (kcal: real)
    ensures kcal > 0.0 <==> heartRate > -90
    ensures heartRate == 70 ==> kcal * 3600.0 == 9.8
  {
    Met(heartRate) * 70.0 * 3.5 / 200.0 / 60.0 / 60.0
  }

  /** Each run adds 245/720000 kcal per MET point: positive exactly when
      the MET value is, i.e. above −90 BPM, and more for a faster heart. */
  lemma CalorieIncrementShape(h1: int, h2: int)
    ensures CalorieIncrement(h1) * 720000.0 == 245.0 * Met(h1)
    ensures CalorieIncrement(h1) > 0.0 <==> h1 > -90
    ensures h1 < h2 ==> CalorieIncrement(h1) < CalorieIncrement(h2)
    ensures CalorieIncrement(70) * 3600.0 == 9.8
  {
  }

  // -------------------------------------------------------------- clock

  /** `formatTime`: whole minutes and the remaining seconds, each at least two
      digits wide, separated by a colon. */
  function FormatTime(seconds: nat): (t: string)
    ensures |t| >= 5 && t[|t| - 3] == ':'
    ensures forall i :: 0 <= i < |t| && i != |t| - 3 ==> IsDigit(t[i])
  {
    Pad2(seconds / 60) + ":" + Pad2(seconds % 60)
  }

  /** The padded minutes before the colon, the padded seconds after it. */
  lemma FormatTimeParts(seconds: nat)
    ensures var t := FormatTime(seconds);
      t[..|t| - 3] == Pad2(seconds / 60) && t[|t| - 2..] == Pad2(seconds % 60)
  {
    var t := FormatTime(seconds);
    assert t[..|t| - 3] == Pad2(seconds / 60);
    assert t[|t| - 2..] == Pad2(seconds % 60);
  }

  /** The clock reads back: the part before the colon parses to the minutes,
      the two digits after it to the seconds; under 100 minutes it is
      exactly `mm:ss`. */
  lemma FormatTimeReadsBack(seconds: nat)
    ensures ParseInt(FormatTime(seconds)[..|FormatTime(seconds)| - 3]) == Some(seconds / 60)
    ensures ParseInt(FormatTime(seconds)[|FormatTime(seconds)| - 2..]) == Some(seconds % 60)
    ensures seconds < 6000 <==> |FormatTime(seconds)| == 5
  {
    FormatTimeParts(seconds);
    ParseIntOfPad2(seconds / 60);
    ParseIntOfPad2(seconds % 60);
    if seconds >= 6000 {
      assert seconds / 60 >= 100;
      assert |NatToString(seconds / 60)| >= 3 by {
        assert !(seconds / 60 < 10) && !(10 <= seconds / 60 < 100);
      }
    }
  }

  /** Different durations never show the same clock. */
  lemma FormatTimeInjective(s1: nat, s2: nat)
    requires FormatTime(s1) == FormatTime(s2)
    ensures s1 == s2
  {
    var t := FormatTime(s1);
    assert t[..|t| - 3] == Pad2(s1 / 60) && t[|t| - 2..] == Pad2(s1 % 60);
    assert t[..|t| - 3] == Pad2(s2 / 60) && t[|t| - 2..] == Pad2(s2 % 60);
    Pad2Value(s1 / 60);
    Pad2Value(s2 / 60);
    Pad2Value(s1 % 60);
    Pad2Value(s2 % 60);
  }

  // ---------------------------------------------------------- intensity

  /** The intensity message under the card. */
  function Intensity(data: Option<Sample>): (message: string)
    ensures data.None? ==> message == "Warming up - Get ready!"
    ensures data.Some? && data.value.heartRate <= 100 ==> message == "Warming up - Get ready!"
    ensures message in {"High Intensity - Great work!", "Moderate Intensity - Good pace!",
                        "Light Intensity - Keep it up!", "Warming up - Get ready!"}
  {
    if data.Some? && data.value.heartRate > 160 then "High Intensity - Great work!"
    else if data.Some? && data.value.heartRate > 130 then "Moderate Intensity - Good pace!"
    else if data.Some? && data.value.heartRate > 100 then "Light Intensity - Keep it up!"
    else "Warming up - Get ready!"
  }

  function IntensityRank(message: string): nat
  {
    if message == "High Intensity - Great work!" then 3
    else if message == "Moderate Intensity - Good pace!" then 2
    else if message == "Light Intensity - Keep it up!" then 1
    else 0
  }

  /** The bands above 160, 130 and 100 BPM, and no reading means warming
      up; a higher heart rate never shows a lower intensity. */
  lemma IntensityBands(s: Sample, t: Sample)
    ensures Intensity(None) == "Warming up - Get ready!"
    ensures IntensityRank(Intensity(Some(s))) ==
      if s.heartRate > 160 then 3 else if s.heartRate > 130 then 2 else if s.heartRate > 100 then 1 else 0
    ensures s.heartRate <= t.heartRate ==> IntensityRank(Intensity(Some(s))) <= IntensityRank(Intensity(Some(t)))
  {
  }

  // ------------------------------------------------------------ session

  class Session {
    var isActive: bool
    var sessionTime: nat
    var caloriesBurned: real
    var peakHeartRate: int

    ghost predicate Valid()
      reads this
    {
      peakHeartRate >= 0 && (!isActive ==> sessionTime == 0)
    }

    constructor ()
      ensures Valid()
      ensures !isActive && sessionTime == 0 && caloriesBurned == 0.0 && peakHeartRate == 0
    {
      isActive, sessionTime, caloriesBurned, peakHeartRate := false, 0, 0.0, 0;
    }

    /** The first effect: any reading starts the session for good, and the
        peak follows the highest heart rate seen. */
    method OnData(data: Option<Sample>)
      requires Valid()
      modifies this`isActive, this`peakHeartRate
      ensures Valid()
      ensures isActive == (old(isActive) || data.Some?)
      ensures peakHeartRate == if data.Some? then Max(old(peakHeartRate), data.value.heartRate) else old(peakHeartRate)
    {
      if data.Some? && !isActive {
        isActive := true;
      }
      if data.Some? && data.value.heartRate > peakHeartRate {
        peakHeartRate := data.value.heartRate;
      }
    }

    /** One second of the interval, which exists only while the session is
        active. */
    method Tick()
      requires Valid()
      modifies this`sessionTime
      ensures Valid()
      ensures sessionTime == old(sessionTime) + if isActive then 1 else 0
    {
      if isActive {
        sessionTime := sessionTime + 1;
      }
    }

    /** The calorie effect, run whenever the reading or the clock changes. */
    method AccrueCalories(data: Option<Sample>)
      modifies this`caloriesBurned
      ensures caloriesBurned == old(caloriesBurned) + if data.Some? then CalorieIncrement(data.value.heartRate) else 0.0
    {
      if data.Some? {
        caloriesBurned := caloriesBurned + CalorieIncrement(data.value.heartRate);
      }
    }

    /** The figures on the card. */
    function Shown(data: Option<Sample>): (figures: (string, int, int, string))
      reads this
      ensures figures.0 == FormatTime(sessionTime) && figures.2 == peakHeartRate
      ensures figures.1 as real - 0.5 <= caloriesBurned < figures.1 as real + 0.5
    {
      (FormatTime(sessionTime), Round(caloriesBurned), peakHeartRate, Intensity(data))
    }
  }

  /** The peak after a stream of readings, starting from 0. */
  function PeakOf(readings: seq<Option<Sample>>): (peak: int)
    ensures peak >= 0
    ensures forall i :: 0 <= i < |readings| && readings[i].Some? ==> readings[i].value.heartRate <= peak
    ensures peak == 0 || exists i :: 0 <= i < |readings| && readings[i].Some? && readings[i].value.heartRate == peak
  {
    if readings == [] then 0
    else
      var init := readings[..|readings| - 1];
      assert forall i :: 0 <= i < |init| ==> init[i] == readings[i];
      var last := readings[|readings| - 1];
      if last.Some? then Max(PeakOf(init), last.value.heartRate) else PeakOf(init)
  }

  /** Feeding a stream of readings through the first effect leaves the
      highest heart rate as the peak, and the session active iff a reading
      arrived. */
  method Replay(readings: seq<Option<Sample>>) returns (session: Session)
    ensures session.peakHeartRate == PeakOf(readings)
    ensures session.isActive <==> exists i :: 0 <= i < |readings| && readings[i].Some?
    ensures session.sessionTime == 0
  {
    session := new Session();
    var i := 0;
    while i < |readings|
      invariant 0 <= i <= |readings|
      invariant session.Valid() && session.sessionTime == 0
      invariant session.peakHeartRate == PeakOf(readings[..i])
      invariant session.isActive <==> exists j :: 0 <= j < i && readings[j].Some?
    {
      assert readings[..i + 1][..i] == readings[..i];
      session.OnData(readings[i]);
      i := i + 1;
    }
    assert readings[..i] == readings;
  }
}
