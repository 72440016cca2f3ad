/** The performance dashboard of app/dashboard/page.tsx: a session clock
    that runs while the sensor feed is connected, and the headline figures
    read from the latest sensor sample with `|| 0` fall-backs. */
module Dashboard {
  import opened JsBuiltins
  import SensorDataHook
  import WorkoutSummary

  /** `data?.force?.index || 0` and its siblings: 0 without a sample. */
  function Forces(data: Option<SensorDataHook.SensorSample>): (int, int, int)
  {
    if data.None? then (0, 0, 0)
    else (data.value.force.index, data.value.force.middle, data.value.force.impact)
  }

  /** The "Max Force" figure: the strongest of the three readings, 0 when
      there is no sample. */
  function MaxForceFigure(data: Option<SensorDataHook.SensorSample>): (figure: int)
    ensures data.None? ==> figure == 0
    ensures data.Some? ==> var f := data.value.force;
      figure >= f.index && figure >= f.middle && figure >= f.impact
      && (figure == f.index || figure == f.middle || figure == f.impact)
  {
    var (i, m, p) := Forces(data);
    Max3(i, m, p)
  }

  /** On a mock sample the figure is a percentage below 100. */
  lemma MockMaxForceInRange(d: SensorDataHook.MockDraws, punchCount: int)
    requires SensorDataHook.ValidDraws(d)
    ensures 0 <= MaxForceFigure(Some(SensorDataHook.MockSample(d, punchCount))) <= 99
  {
  }

  class SessionClock {
    var sessionTime: nat

    constructor ()
      ensures sessionTime == 0
    {
      sessionTime := 0;
    }

    /** One second of the interval that exists only while connected. */
    method Tick(isConnected: bool)
      modifies this
      ensures sessionTime == old(sessionTime) + if isConnected then 1 else 0
    {
      if isConnected {
        sessionTime := sessionTime + 1;
      }
    }

    /** The clock on the page, whose `formatTime` is the workout card's
        character for character: it reads back as the elapsed minutes and
        seconds. */
    function Shown(): (clock: string)
      reads this
      ensures clock == WorkoutSummary.FormatTime(sessionTime)
      ensures |clock| >= 5 && clock[|clock| - 3] == ':'
    {
      WorkoutSummary.FormatTime(sessionTime)
    }
  }

  /** Ticking once per connected second: the clock shows the number of
      connected seconds. */
  method RunClock(connected: seq<bool>) returns (clock: SessionClock)
    ensures clock.sessionTime == ConnectedSeconds(connected)
  {
    clock := new SessionClock();
    var i := 0;
    while i < |connected|
      invariant 0 <= i <= |connected|
      invariant clock.sessionTime == ConnectedSeconds(connected[..i])
    {
      assert connected[..i + 1][..i] == connected[..i];
      clock.Tick(connected[i]);
      i := i + 1;
    }
    assert connected[..i] == connected;
  }

  /** The number of seconds in which the feed was connected. */
  function ConnectedSeconds(connected: seq<bool>): (n: nat)
    ensures n <= |connected|
    ensures n == |connected| <==> forall i :: 0 <= i < |connected| ==> connected[i]
  {
    if connected == [] then 0
    else
      var init := connected[..|connected| - 1];
      assert forall i :: 0 <= i < |init| ==> init[i] == connected[i];
      ConnectedSeconds(init) + if connected[|connected| - 1] then 1 else 0
  }
}
