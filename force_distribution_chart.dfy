/** The force bar chart of components/force-distribution-chart.tsx: running
    maxima of the three force readings (starting at 0), one row per sensor,
    and a gold-to-red bar colour whose green channel falls as the force
    rises. */
module ForceDistributionChart {
  import opened JsBuiltins

  datatype Row = Row(name: string, current: int, max: int)

  /** The green channel of `getBarColor`: `max(0, floor(215 − value/100·215))`. */
  function GreenChannel(value: real): (g: int)
    ensures g >= 0
    ensures value >= 100.0 ==> g == 0
    ensures value >= 0.0 ==> g <= 215
  {
    Max(0, (215.0 - value / 100.0 * 215.0).Floor)
  }

  /** Full gold at 0, and never greener for a stronger force. */
  lemma GreenChannelRange(v1: real, v2: real)
    requires v1 <= v2
    ensures GreenChannel(0.0) == 215
    ensures GreenChannel(v2) <= GreenChannel(v1)
  {
  }

  class ForceMaxima {
    var index: int
    var middle: int
    var impact: int

    ghost predicate Valid()
      reads this
    {
      index >= 0 && middle >= 0 && impact >= 0
    }

    constructor ()
      ensures Valid() && index == 0 && middle == 0 && impact == 0
    {
      index, middle, impact := 0, 0, 0;
    }

    /** Each maximum is at least the matching current reading. */
    predicate Covers(indexForce: int, middleForce: int, impactForce: int)
      reads this
    {
      indexForce <= index && middleForce <= middle && impactForce <= impact
    }

    /** The effect that runs when a reading changes: afterwards no bar's
        maximum is below its current reading, and a maximum never drops. */
    method Update(indexForce: int, middleForce: int, impactForce: int)
      requires Valid()
      modifies this
      ensures Valid()
      ensures index == Max(old(index), indexForce) && middle == Max(old(middle), middleForce)
      ensures impact == Max(old(impact), impactForce)
      ensures old(index) <= index && old(middle) <= middle && old(impact) <= impact
      ensures Covers(indexForce, middleForce, impactForce)
      ensures forall k :: 0 <= k < 3 ==>
        Rows(indexForce, middleForce, impactForce)[k].current <= Rows(indexForce, middleForce, impactForce)[k].max
    {
      index := Max(index, indexForce);
      middle := Max(middle, middleForce);
      impact := Max(impact, impactForce);
    }

    /** The chart rows, in the order Index, Middle, Impact, each pairing its
        current reading with the maximum kept for the same sensor; once the
        maxima cover the readings, no row shows a maximum below its value. */
    function Rows(indexForce: int, middleForce: int, impactForce: int): (rows: seq<Row>)
      reads this
      ensures |rows| == 3
      ensures rows[0].name == "Index Finger" && rows[1].name == "Middle Finger"
      ensures rows[2].name == "Impact Sensor"
      ensures rows[0].current == indexForce && rows[0].max == index
      ensures rows[1].current == middleForce && rows[1].max == middle
      ensures rows[2].current == impactForce && rows[2].max == impact
      ensures Covers(indexForce, middleForce, impactForce) <==>
        forall k :: 0 <= k < 3 ==> rows[k].current <= rows[k].max
    {
      [Row("Index Finger", indexForce, index),
       Row("Middle Finger", middleForce, middle),
       Row("Impact Sensor", impactForce, impact)]
    }
  }

  /** The maximum a stream of readings leaves behind, from the initial 0. */
  function RunningMax(readings: seq<int>): (m: int)
    ensures m >= 0
    ensures forall i :: 0 <= i < |readings| ==> readings[i] <= m
    ensures m == 0 || exists i :: 0 <= i < |readings| && readings[i] == m
  {
    if readings == [] then 0
    else
      var init := readings[..|readings| - 1];
      assert forall i :: 0 <= i < |init| ==> init[i] == readings[i];
      Max(RunningMax(init), readings[|readings| - 1])
  }

  /** Feeding the readings one by one through `Update` tracks the maxima. */
  method TrackMaxima(indexReadings: seq<int>, middleReadings: seq<int>, impactReadings: seq<int>)
    returns (maxima: ForceMaxima)
    requires |indexReadings| == |middleReadings| == |impactReadings|
    ensures maxima.index == RunningMax(indexReadings)
    ensures maxima.middle == RunningMax(middleReadings)
    ensures maxima.impact == RunningMax(impactReadings)
    ensures |indexReadings| > 0 ==>
      var last := |indexReadings| - 1;
      var rows := maxima.Rows(indexReadings[last], middleReadings[last], impactReadings[last]);
      forall k :: 0 <= k < 3 ==> rows[k].current <= rows[k].max
  {
    maxima := new ForceMaxima();
    var i := 0;
    while i < |indexReadings|
      invariant 0 <= i <= |indexReadings|
      invariant maxima.Valid()
      invariant maxima.index == RunningMax(indexReadings[..i])
      invariant maxima.middle == RunningMax(middleReadings[..i])
      invariant maxima.impact == RunningMax(impactReadings[..i])
    {
      assert indexReadings[..i + 1][..i] == indexReadings[..i];
      assert middleReadings[..i + 1][..i] == middleReadings[..i];
      assert impactReadings[..i + 1][..i] == impactReadings[..i];
      maxima.Update(indexReadings[i], middleReadings[i], impactReadings[i]);
      i := i + 1;
    }
    assert indexReadings[..i] == indexReadings;
    assert middleReadings[..i] == middleReadings;
    assert impactReadings[..i] == impactReadings;
  }
}
