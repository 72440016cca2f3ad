/** The punch analysis of components/punch-analysis.tsx: a sample whose
    acceleration magnitude exceeds 5 is a punch; its force is the largest of
    the three force readings, its type comes from a small decision tree, and
    it is counted per type and kept in a history of the last 50 punches
    with the newest force, the maximum and the mean.  The charts bucket the
    history by force and by speed. */
module PunchAnalysis {
  import opened JsBuiltins
  import opened SerialData

  datatype PunchType = Jab | Cross | Hook | Uppercut

  /** One history entry; the speed is kept squared (the magnitude's square),
      and the timestamp is not modelled. */
  datatype PunchRecord = PunchRecord(force: int, speedSquared: real, kind: PunchType)

  const HistoryLength: nat := 50

  /** `magnitude > 5`, compared squared. */
  predicate IsPunch(a: Accelerometer)
  {
    SquaredMagnitude(a) > 25.0
  }

  lemma IsPunchOfMagnitude(a: Accelerometer, magnitude: real)
    requires magnitude >= 0.0 && magnitude * magnitude == SquaredMagnitude(a)
    ensures IsPunch(a) <==> magnitude > 5.0
  {
    SqrtComparison(magnitude, SquaredMagnitude(a), 5.0);
  }

  function PunchForce(s: Sample): (f: int)
    ensures s.fsrIndex <= f && s.fsrMiddle <= f && s.fsrImpact <= f
    ensures f == s.fsrIndex || f == s.fsrMiddle || f == s.fsrImpact
  {
    Max3(s.fsrIndex, s.fsrMiddle, s.fsrImpact)
  }

  function Abs(x: real): real
  {
    if x < 0.0 then -x else x
  }

  /** The punch-type decision tree. */
  function Classify(s: Sample): (t: PunchType)
    ensures t == Hook ==> s.fsrIndex > s.fsrMiddle && s.fsrIndex > s.fsrImpact
    ensures t == Uppercut ==> s.accelerometer.y < -5.0
    ensures s.fsrMiddle > s.fsrIndex && s.fsrMiddle > s.fsrImpact ==> t == Cross
  {
    if s.fsrIndex > s.fsrMiddle && s.fsrIndex > s.fsrImpact then
      if Abs(s.accelerometer.x) > Abs(s.accelerometer.y) then Jab else Hook
    else if s.fsrMiddle > s.fsrIndex && s.fsrMiddle > s.fsrImpact then Cross
    else if s.accelerometer.y < -5.0 then Uppercut
    else if PunchForce(s) > 800 then Cross
    else Jab
  }

  /** What each type means: a hook needs the index reading strictly largest
      and the sideways axis not dominating, an uppercut needs no strictly
      largest finger reading and a strong upward axis, a cross needs the
      middle reading strictly largest or, failing any strictly largest
      finger and an uppercut, a force above 800. */
  lemma ClassifyCases(s: Sample)
    ensures var indexLargest := s.fsrIndex > s.fsrMiddle && s.fsrIndex > s.fsrImpact;
      var middleLargest := s.fsrMiddle > s.fsrIndex && s.fsrMiddle > s.fsrImpact;
      && (Classify(s) == Hook <==> indexLargest && Abs(s.accelerometer.x) <= Abs(s.accelerometer.y))
      && (Classify(s) == Uppercut <==> !indexLargest && !middleLargest && s.accelerometer.y < -5.0)
      && (Classify(s) == Cross <==>
            middleLargest
            || (!indexLargest && !middleLargest && s.accelerometer.y >= -5.0 && PunchForce(s) > 800))
      && (Classify(s) == Jab <==>
            (indexLargest && Abs(s.accelerometer.x) > Abs(s.accelerometer.y))
            || (!indexLargest && !middleLargest && s.accelerometer.y >= -5.0 && PunchForce(s) <= 800))
  {
  }

  // ------------------------------------------------------------- counters

  datatype TypeCounts = TypeCounts(jab: nat, cross: nat, hook: nat, uppercut: nat)

  function Total(c: TypeCounts): nat
  {
    c.jab + c.cross + c.hook + c.uppercut
  }

  /** `[punchType]: prev[punchType] + 1` */
  function Increment(c: TypeCounts, t: PunchType): (r: TypeCounts)
    ensures Total(r) == Total(c) + 1
    ensures t == Jab <==> r.jab == c.jab + 1
    ensures t == Cross <==> r.cross == c.cross + 1
    ensures t == Hook <==> r.hook == c.hook + 1
    ensures t == Uppercut <==> r.uppercut == c.uppercut + 1
    ensures t != Jab ==> r.jab == c.jab
    ensures t != Cross ==> r.cross == c.cross
    ensures t != Hook ==> r.hook == c.hook
    ensures t != Uppercut ==> r.uppercut == c.uppercut
  {
    match t
    case Jab => c.(jab := c.jab + 1)
    case Cross => c.(cross := c.cross + 1)
    case Hook => c.(hook := c.hook + 1)
    case Uppercut => c.(uppercut := c.uppercut + 1)
  }

  // ---------------------------------------------------- history statistics

  /** `Math.max(...history.map(p => p.force))` */
  function MaxForce(h: seq<PunchRecord>): (r: int)
    requires |h| > 0
    ensures forall i :: 0 <= i < |h| ==> h[i].force <= r
    ensures exists i :: 0 <= i < |h| && h[i].force == r
  {
    if |h| == 1 then h[0].force
    else
      var m := MaxForce(h[..|h| - 1]);
      assert forall i :: 0 <= i < |h| - 1 ==> h[..|h| - 1][i] == h[i];
      Max(m, h[|h| - 1].force)
  }

  /** `history.reduce((sum, p) => sum + p.force, 0)` */
  function SumForces(h: seq<PunchRecord>): int
  {
    if h == [] then 0 else SumForces(h[..|h| - 1]) + h[|h| - 1].force
  }

  function AvgForce(h: seq<PunchRecord>): real
    requires |h| > 0
  {
    SumForces(h) as real / |h| as real
  }

  /** No force exceeds the maximum, so neither does their sum divided by
      their number. */
  lemma {:induction false} SumAtMostMaxTimesLength(h: seq<PunchRecord>, m: int)
    requires forall i :: 0 <= i < |h| ==> h[i].force <= m
    ensures SumForces(h) <= |h| * m
  {
    if h != [] {
      var init := h[..|h| - 1];
      assert forall i :: 0 <= i < |init| ==> init[i] == h[i];
      SumAtMostMaxTimesLength(init, m);
    }
  }

  lemma AvgAtMostMax(h: seq<PunchRecord>)
    requires |h| > 0
    ensures AvgForce(h) <= MaxForce(h) as real
  {
    SumAtMostMaxTimesLength(h, MaxForce(h));
    MeanBound(SumForces(h), |h|, MaxForce(h));
  }

  lemma MeanBound(total: int, n: nat, m: int)
    requires n > 0 && total <= n * m
    ensures total as real / n as real <= m as real
  {
    CastProduct(n, m);
    DivAtMost(total as real, n as real, m as real);
  }

  /** Computes the maximum and the sum of a non-empty history in one pass. */
  method ForceStats(h: seq<PunchRecord>) returns (maxForce: int, sum: int)
    requires |h| > 0
    ensures maxForce == MaxForce(h) && sum == SumForces(h)
  {
    maxForce, sum := h[0].force, h[0].force;
    assert h[..1][..0] == [];
    var i := 1;
    while i < |h|
      invariant 1 <= i <= |h|
      invariant maxForce == MaxForce(h[..i]) && sum == SumForces(h[..i])
    {
      assert h[..i + 1][..i] == h[..i];
      maxForce := Max(maxForce, h[i].force);
      sum := sum + h[i].force;
      i := i + 1;
    }
    assert h[..|h|] == h;
  }

  // -------------------------------------------------------------- buckets

  function CountLight(h: seq<PunchRecord>): nat
  {
    if h == [] then 0 else CountLight(h[..|h| - 1]) + (if h[|h| - 1].force < 300 then 1 else 0)
  }

  function CountMedium(h: seq<PunchRecord>): nat
  {
    if h == [] then 0
    else CountMedium(h[..|h| - 1]) + (if 300 <= h[|h| - 1].force < 600 then 1 else 0)
  }

  function CountHeavy(h: seq<PunchRecord>): nat
  {
    if h == [] then 0 else CountHeavy(h[..|h| - 1]) + (if h[|h| - 1].force >= 600 then 1 else 0)
  }

  /** The Light, Medium and Heavy buckets split the history. */
  lemma {:induction false} ForceBucketsPartition(h: seq<PunchRecord>)
    ensures CountLight(h) + CountMedium(h) + CountHeavy(h) == |h|
  {
    if h != [] {
      ForceBucketsPartition(h[..|h| - 1]);
    }
  }

  /** Speed below 7, from 7 below 12, and 12 or more, compared squared. */
  function CountSlow(h: seq<PunchRecord>): nat
  {
    if h == [] then 0 else CountSlow(h[..|h| - 1]) + (if h[|h| - 1].speedSquared < 49.0 then 1 else 0)
  }

  function CountMediumSpeed(h: seq<PunchRecord>): nat
  {
    if h == [] then 0
    else CountMediumSpeed(h[..|h| - 1]) + (if 49.0 <= h[|h| - 1].speedSquared < 144.0 then 1 else 0)
  }

  function CountFast(h: seq<PunchRecord>): nat
  {
    if h == [] then 0 else CountFast(h[..|h| - 1]) + (if h[|h| - 1].speedSquared >= 144.0 then 1 else 0)
  }

  lemma {:induction false} SpeedBucketsPartition(h: seq<PunchRecord>)
    ensures CountSlow(h) + CountMediumSpeed(h) + CountFast(h) == |h|
  {
    if h != [] {
      SpeedBucketsPartition(h[..|h| - 1]);
    }
  }

  /** The squared speed bands are the source's bands of the speed itself. */
  lemma SpeedBands(speed: real, speedSquared: real)
    requires speed >= 0.0 && speed * speed == speedSquared
    ensures speedSquared < 49.0 <==> speed < 7.0
    ensures speedSquared >= 144.0 <==> speed >= 12.0
  {
    SqrtComparison(speed, speedSquared, 7.0);
    SqrtComparison(speed, speedSquared, 12.0);
  }

  // ------------------------------------------------------------ the state

  class Analyzer {
    var punchHistory: seq<PunchRecord>
    var lastPunchForce: int
    var maxForce: int
    var avgForce: real
    var punchTypes: TypeCounts

    /** The history is bounded; when non-empty, the statistics are those of
        the history and the newest punch; every recorded punch is counted
        once by type, and the history lost entries only once it was full. */
    ghost predicate Valid()
      reads this
    {
      && |punchHistory| <= HistoryLength
      && Total(punchTypes) >= |punchHistory|
      && (Total(punchTypes) > |punchHistory| ==> |punchHistory| == HistoryLength)
      && (punchHistory == [] ==> lastPunchForce == 0 && maxForce == 0 && avgForce == 0.0)
      && (punchHistory != [] ==>
            && lastPunchForce == punchHistory[|punchHistory| - 1].force
            && maxForce == MaxForce(punchHistory)
            && avgForce == AvgForce(punchHistory))
    }

    constructor ()
      ensures Valid()
      ensures punchHistory == [] && punchTypes == TypeCounts(0, 0, 0, 0)
    {
      punchHistory := [];
      lastPunchForce, maxForce, avgForce := 0, 0, 0.0;
      punchTypes := TypeCounts(0, 0, 0, 0);
    }

    /** One run of the effect for a new `data`; `speedSquared` is the
        squared magnitude, stored where the source stores the magnitude. */
    method Process(data: Option<Sample>)
      requires Valid()
      modifies this
      ensures Valid()
      ensures data.None? || !IsPunch(data.value.accelerometer) ==>
        && punchHistory == old(punchHistory) && punchTypes == old(punchTypes)
        && lastPunchForce == old(lastPunchForce) && maxForce == old(maxForce) && avgForce == old(avgForce)
      ensures data.Some? && IsPunch(data.value.accelerometer) ==>
        var s := data.value;
        var p := PunchRecord(PunchForce(s), SquaredMagnitude(s.accelerometer), Classify(s));
        && punchTypes == Increment(old(punchTypes), Classify(s))
        && punchHistory == LastN(old(punchHistory) + [p], HistoryLength)
        && lastPunchForce == PunchForce(s)
        && lastPunchForce <= maxForce
        && avgForce <= maxForce as real
    {
      if data.None? {
        return;
      }
      var s := data.value;
      var speedSquared := SquaredMagnitude(s.accelerometer);
      if speedSquared > 25.0 {
        var force := Max3(s.fsrIndex, s.fsrMiddle, s.fsrImpact);
        var punchType := Jab;
        if s.fsrIndex > s.fsrMiddle && s.fsrIndex > s.fsrImpact {
          punchType := if Abs(s.accelerometer.x) > Abs(s.accelerometer.y) then Jab else Hook;
        } else if s.fsrMiddle > s.fsrIndex && s.fsrMiddle > s.fsrImpact {
          punchType := Cross;
        } else if s.accelerometer.y < -5.0 {
          punchType := Uppercut;
        } else if force > 800 {
          punchType := Cross;
        }
        assert force == PunchForce(s) && punchType == Classify(s);
        Record(PunchRecord(force, speedSquared, punchType));
      }
    }

    /** Count a detected punch by type, add it to the history and refresh
        the statistics from the updated history. */
    method Record(p: PunchRecord)
      requires Valid()
      modifies this
      ensures Valid()
      ensures punchTypes == Increment(old(punchTypes), p.kind)
      ensures punchHistory == LastN(old(punchHistory) + [p], HistoryLength)
      ensures lastPunchForce == p.force <= maxForce
      ensures avgForce <= maxForce as real
    {
      punchTypes := Increment(punchTypes, p.kind);
      var updated := LastN(punchHistory + [p], HistoryLength);
      assert updated[|updated| - 1] == p;
      punchHistory := updated;
      lastPunchForce := p.force;
      var total;
      maxForce, total := ForceStats(updated);
      avgForce := total as real / |updated| as real;
      AvgAtMostMax(updated);
    }
  }
}
