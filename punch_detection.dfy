/** The punch, block and motion detector of hooks/use-punch-detection.tsx.
    It keeps the previous readings of the two finger sensors and the impact
    sensor (starting at 0, so the very first sample is compared with 0),
    counts a punch when both finger readings jump by more than 200 at once,
    a block when the impact reading does, and classifies every sample as
    active or resting from the accelerometer magnitude. */
module PunchDetection {
  import opened JsBuiltins
  import opened SerialData

  /** `threshold` */
  const ForceThreshold: int := 200
  /** `(1 + accelThreshold)²`, the square of the magnitude threshold 1.5 */
  const MotionThresholdSquared: real := 2.25

  datatype Motion = Resting | Active

  /** Everything the hook retains between samples. */
  datatype DetectorState = DetectorState(
    punches: nat,
    blocks: nat,
    motionState: Motion,
    prevIndex: int,
    prevMiddle: int,
    prevImpact: int)

  const Initial := DetectorState(0, 0, Resting, 0, 0, 0)

  predicate IsPunch(prevIndex: int, prevMiddle: int, s: Sample)
  {
    s.fsrIndex - prevIndex > ForceThreshold && s.fsrMiddle - prevMiddle > ForceThreshold
  }

  predicate IsBlock(prevImpact: int, s: Sample)
  {
    s.fsrImpact - prevImpact > ForceThreshold
  }

  /** "active" when the magnitude exceeds 1 + 0.5, compared squared. */
  function MotionOf(a: Accelerometer): Motion
  {
    if SquaredMagnitude(a) > MotionThresholdSquared then Active else Resting
  }

  /** The squared comparison is the source's comparison of the magnitude. */
  lemma MotionOfMagnitude(a: Accelerometer, magnitude: real)
    requires magnitude >= 0.0 && magnitude * magnitude == SquaredMagnitude(a)
    ensures MotionOf(a) == Active <==> magnitude > 1.5
  {
    SqrtComparison(magnitude, SquaredMagnitude(a), 1.5);
  }

  /** One run of the effect: a null sample changes nothing; otherwise count,
      classify, and remember this sample's three force readings. */
  function Step(st: DetectorState, data: Option<Sample>): (r: DetectorState)
    ensures data.None? ==> r == st
    ensures st.punches <= r.punches <= st.punches + 1 && st.blocks <= r.blocks <= st.blocks + 1
    ensures data.Some? ==>
      r.prevIndex == data.value.fsrIndex && r.prevMiddle == data.value.fsrMiddle
      && r.prevImpact == data.value.fsrImpact
  {
    match data
    case None => st
    case Some(s) =>
      DetectorState(
        if IsPunch(st.prevIndex, st.prevMiddle, s) then st.punches + 1 else st.punches,
        if IsBlock(st.prevImpact, s) then st.blocks + 1 else st.blocks,
        MotionOf(s.accelerometer),
        s.fsrIndex, s.fsrMiddle, s.fsrImpact)
  }

  /** What one sample does: each counter grows by exactly one when its own
      test passes and is otherwise unchanged, the motion state depends on
      this sample alone, and the previous readings become this sample's
      whether or not anything was detected. */
  lemma StepEffect(st: DetectorState, s: Sample)
    ensures var r := Step(st, Some(s));
      && (r.punches == st.punches + 1 <==> IsPunch(st.prevIndex, st.prevMiddle, s))
      && (r.punches != st.punches + 1 ==> r.punches == st.punches)
      && (r.blocks == st.blocks + 1 <==> IsBlock(st.prevImpact, s))
      && (r.blocks != st.blocks + 1 ==> r.blocks == st.blocks)
      && (r.motionState == Active <==> SquaredMagnitude(s.accelerometer) > 2.25)
      && r.prevIndex == s.fsrIndex && r.prevMiddle == s.fsrMiddle && r.prevImpact == s.fsrImpact
  {
  }

  /** The previous readings start at 0, so a first sample whose finger
      readings both exceed 200 is already a punch. */
  lemma FirstSampleCanPunch(s: Sample)
    requires s.fsrIndex > 200 && s.fsrMiddle > 200
    ensures Step(Initial, Some(s)).punches == 1
  {
  }

  /** A jump of exactly 200 is not a punch. */
  lemma ThresholdIsStrict(st: DetectorState, s: Sample)
    requires s.fsrIndex - st.prevIndex == 200
    ensures Step(st, Some(s)).punches == st.punches
  {
  }

  /** The effect applied to a stream of samples, in order. */
  function Run(st: DetectorState, samples: seq<Option<Sample>>): DetectorState
  {
    if samples == [] then st else Step(Run(st, samples[..|samples| - 1]), samples[|samples| - 1])
  }

  /** Over any stream the counters never decrease and grow by at most one
      per sample. */
  lemma {:induction false} RunCountersBounded(st: DetectorState, samples: seq<Option<Sample>>)
    ensures var r := Run(st, samples);
      st.punches <= r.punches <= st.punches + |samples|
      && st.blocks <= r.blocks <= st.blocks + |samples|
  {
    if samples != [] {
      RunCountersBounded(st, samples[..|samples| - 1]);
    }
  }

  // ---- an independent account of the punch count, sample by sample

  /** The readings sample `i` is compared with: those of sample `i - 1`, or 0
      for the first sample. */
  function PrevIndexAt(samples: seq<Sample>, i: nat): int
    requires i < |samples|
  {
    if i == 0 then 0 else samples[i - 1].fsrIndex
  }

  function PrevMiddleAt(samples: seq<Sample>, i: nat): int
    requires i < |samples|
  {
    if i == 0 then 0 else samples[i - 1].fsrMiddle
  }

  function PrevImpactAt(samples: seq<Sample>, i: nat): int
    requires i < |samples|
  {
    if i == 0 then 0 else samples[i - 1].fsrImpact
  }

  /** The number of positions among the first `n` at which a punch shows. */
  function PunchesAmong(samples: seq<Sample>, n: nat): nat
    requires n <= |samples|
  {
    if n == 0 then 0
    else
      var i := n - 1;
      PunchesAmong(samples, i) + (if IsPunch(PrevIndexAt(samples, i), PrevMiddleAt(samples, i), samples[i]) then 1 else 0)
  }

  function BlocksAmong(samples: seq<Sample>, n: nat): nat
    requires n <= |samples|
  {
    if n == 0 then 0
    else BlocksAmong(samples, n - 1) + (if IsBlock(PrevImpactAt(samples, n - 1), samples[n - 1]) then 1 else 0)
  }

  function Present(samples: seq<Sample>): seq<Option<Sample>>
  {
    seq(|samples|, i requires 0 <= i < |samples| => Some(samples[i]))
  }

  /** From the initial state, the detector's counters are exactly the number
      of consecutive pairs (the first sample paired with zeros) whose jumps
      exceed the threshold, and it remembers the last sample's readings. */
  lemma {:induction false} RunCountsPairs(samples: seq<Sample>, n: nat)
    requires n <= |samples|
    ensures var r := Run(Initial, Present(samples[..n]));
      && r.punches == PunchesAmong(samples, n)
      && r.blocks == BlocksAmong(samples, n)
      && (n > 0 ==> r.prevIndex == samples[n - 1].fsrIndex && r.prevMiddle == samples[n - 1].fsrMiddle
                    && r.prevImpact == samples[n - 1].fsrImpact)
      && (n == 0 ==> r == Initial)
  {
    var p := Present(samples[..n]);
    if n == 0 {
      assert p == [];
    } else {
      RunCountsPairs(samples, n - 1);
      assert p[..|p| - 1] == Present(samples[..n - 1]);
      assert p[|p| - 1] == Some(samples[n - 1]);
    }
  }

  /** A null sample anywhere in a stream is ignored. */
  lemma {:induction false} RunSkipsNull(st: DetectorState, before: seq<Option<Sample>>, after: seq<Option<Sample>>)
    ensures Run(st, before + [None] + after) == Run(st, before + after)
    decreases |after|
  {
    var s := before + [None] + after;
    if after == [] {
      assert s[..|s| - 1] == before;
      assert before + after == before;
    } else {
      var init := after[..|after| - 1];
      RunSkipsNull(st, before, init);
      assert s[..|s| - 1] == before + [None] + init;
      assert (before + after)[..|before + after| - 1] == before + init;
      assert s[|s| - 1] == (before + after)[|before + after| - 1];
    }
  }

  class PunchDetector {
    var punches: nat
    var blocks: nat
    var motionState: Motion
    var prevIndex: int
    var prevMiddle: int
    var prevImpact: int

    function State(): DetectorState
      reads this
    {
      DetectorState(punches, blocks, motionState, prevIndex, prevMiddle, prevImpact)
    }

    constructor ()
      ensures State() == Initial
    {
      punches, blocks, motionState := 0, 0, Resting;
      prevIndex, prevMiddle, prevImpact := 0, 0, 0;
    }

    /** The effect body, run for a new `data`. */
    method ProcessSample(data: Option<Sample>)
      modifies this
      ensures State() == Step(old(State()), data)
    {
      if data.None? {
        return;
      }
      var s := data.value;
      if s.fsrIndex - prevIndex > ForceThreshold && s.fsrMiddle - prevMiddle > ForceThreshold {
        punches := punches + 1;
      }
      if s.fsrImpact - prevImpact > ForceThreshold {
        blocks := blocks + 1;
      }
      var a := s.accelerometer;
      motionState := if a.x * a.x + a.y * a.y + a.z * a.z > MotionThresholdSquared then Active else Resting;
      prevIndex := s.fsrIndex;
      prevMiddle := s.fsrMiddle;
      prevImpact := s.fsrImpact;
    }
  }
}
