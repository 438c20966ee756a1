/**
 * The vision fallback of radar_helpers.py: when no radar cluster backs a lead
 * slot, the lead seen by the vision model is smoothed with a 4:1 moving
 * average per slot, and the slot learns its own tau. The module-level
 * dictionaries of the source become the fields of one explicitly owned
 * `VisionState` object, keyed by slot 0 and slot 1.
 */
module VisionFallback {
  import opened RadarCommon

  /** The two lead slots the dictionaries are keyed by. */
  type Slot = i: int | 0 <= i <= 1

  /** The vision lead message; only index 0 of each array is read. */
  datatype VisionLeadMsg = VisionLeadMsg(x: seq<real>, y: seq<real>, v: seq<real>, a: seq<real>, prob: real)

  predicate WellFormed(msg: VisionLeadMsg) {
    |msg.x| > 0 && |msg.y| > 0 && |msg.v| > 0 && |msg.a| > 0
  }

  /** The smoothing state of one slot. */
  datatype VisionLead = VisionLead(dRel: real, vLead: real, aLead: real, aTau: real)

  /** A slot at process start: zeroed averages and the default tau. */
  const InitialLead := VisionLead(0.0, 0.0, 0.0, LeadAccelTau)

  /** The 4:1 moving average: each call closes a fifth of the gap to the sample. */
  function Smooth(avg: real, sample: real): (r: real)
    ensures r - sample == (avg - sample) * 0.8
    ensures avg <= sample ==> avg <= r <= sample
    ensures sample <= avg ==> sample <= r <= avg
  {
    (avg * 4.0 + sample) / 5.0
  }

  /** Vision lead speed corrected by the gap between the vision model's and the filtered ego speed. */
  function CorrectedVLead(msg: VisionLeadMsg, vEgo: real, visionVEgo: real): real
    requires WellFormed(msg)
  {
    msg.v[0] - (visionVEgo - vEgo)
  }

  /** The distance sample: vision distance moved to the radar's reference point. */
  function DistanceSample(msg: VisionLeadMsg): real
    requires WellFormed(msg)
  {
    msg.x[0] - RadarToCamera
  }

  /** The slot state after one `get_RadarState_from_vision` call. */
  function VisionUpdate(l: VisionLead, msg: VisionLeadMsg, vEgo: real, visionVEgo: real): VisionLead
    requires WellFormed(msg)
  {
    var a := Smooth(l.aLead, msg.a[0]);
    VisionLead(
      Smooth(l.dRel, DistanceSample(msg)),
      Smooth(l.vLead, CorrectedVLead(msg, vEgo, visionVEgo)),
      a,
      LearnTau(a, l.aTau))
  }

  /** The record built from the updated slot state. */
  function VisionRecord(l: VisionLead, msg: VisionLeadMsg, vEgo: real, visionVEgo: real): (r: RadarState)
    requires WellFormed(msg)
    ensures r.status && !r.radar && !r.fcw
    ensures r.modelProb == msg.prob && r.yRel == -msg.y[0]
    ensures r.dRel == l.dRel && r.vLeadK == l.vLead && r.vRel == l.vLead - vEgo
    ensures r.vLead == msg.v[0] - (visionVEgo - vEgo)
    ensures r.aLeadK == l.aLead && r.aLeadTau == l.aTau
  {
    RadarState(
      dRel := l.dRel,
      yRel := -msg.y[0],
      vRel := l.vLead - vEgo,
      vLead := CorrectedVLead(msg, vEgo, visionVEgo),
      vLeadK := l.vLead,
      aLeadK := l.aLead,
      status := true,
      fcw := false,
      modelProb := msg.prob,
      radar := false,
      aLeadTau := l.aTau)
  }

  /** One update closes a fifth of each gap, and the slot's tau follows the tau rule. */
  lemma VisionUpdateShrinksGaps(l: VisionLead, msg: VisionLeadMsg, vEgo: real, visionVEgo: real)
    requires WellFormed(msg)
    ensures var r := VisionUpdate(l, msg, vEgo, visionVEgo);
      && r.dRel - DistanceSample(msg) == (l.dRel - DistanceSample(msg)) * 0.8
      && r.vLead - CorrectedVLead(msg, vEgo, visionVEgo) == (l.vLead - CorrectedVLead(msg, vEgo, visionVEgo)) * 0.8
      && r.aLead - msg.a[0] == (l.aLead - msg.a[0]) * 0.8
      && (0.0 < l.aTau <= LeadAccelTau ==> 0.0 < r.aTau <= LeadAccelTau)
  {
  }

  /** From the zeroed start state, one sample X gives the average X / 5. */
  lemma FirstVisionSample(msg: VisionLeadMsg, vEgo: real, visionVEgo: real)
    requires WellFormed(msg)
    ensures var r := VisionUpdate(InitialLead, msg, vEgo, visionVEgo);
      && r.dRel == (msg.x[0] - 1.52) / 5.0
      && r.vLead == (msg.v[0] - (visionVEgo - vEgo)) / 5.0
      && r.aLead == msg.a[0] / 5.0
  {
  }

  /** The slot after `n` calls with the same message and ego speeds. */
  function VisionRun(l: VisionLead, msg: VisionLeadMsg, vEgo: real, visionVEgo: real, n: nat): VisionLead
    requires WellFormed(msg)
    decreases n
  {
    if n == 0 then l else VisionRun(VisionUpdate(l, msg, vEgo, visionVEgo), msg, vEgo, visionVEgo, n - 1)
  }

  /** With a constant sample, each gap shrinks by the factor 4/5 per call. */
  lemma {:induction false} VisionRunConverges(l: VisionLead, msg: VisionLeadMsg, vEgo: real, visionVEgo: real, n: nat)
    requires WellFormed(msg)
    ensures var r := VisionRun(l, msg, vEgo, visionVEgo, n);
      && r.dRel - DistanceSample(msg) == (l.dRel - DistanceSample(msg)) * Pow(0.8, n)
      && r.vLead - CorrectedVLead(msg, vEgo, visionVEgo) == (l.vLead - CorrectedVLead(msg, vEgo, visionVEgo)) * Pow(0.8, n)
      && r.aLead - msg.a[0] == (l.aLead - msg.a[0]) * Pow(0.8, n)
    decreases n
  {
    if n > 0 {
      var l1 := VisionUpdate(l, msg, vEgo, visionVEgo);
      VisionRunConverges(l1, msg, vEgo, visionVEgo, n - 1);
      var p := Pow(0.8, n - 1);
      assert Pow(0.8, n) == 0.8 * p;
      var d, v := DistanceSample(msg), CorrectedVLead(msg, vEgo, visionVEgo);
      assert (l1.dRel - d) * p == (l.dRel - d) * 0.8 * p;
      assert (l1.vLead - v) * p == (l.vLead - v) * 0.8 * p;
      assert (l1.aLead - msg.a[0]) * p == (l.aLead - msg.a[0]) * 0.8 * p;
    }
  }

  /** Hence a non-zero distance gap strictly shrinks after any positive number of calls. */
  lemma VisionDistanceGapShrinks(l: VisionLead, msg: VisionLeadMsg, vEgo: real, visionVEgo: real, n: nat)
    requires WellFormed(msg) && n > 0 && l.dRel != DistanceSample(msg)
    ensures Abs(VisionRun(l, msg, vEgo, visionVEgo, n).dRel - DistanceSample(msg)) < Abs(l.dRel - DistanceSample(msg))
  {
    VisionRunConverges(l, msg, vEgo, visionVEgo, n);
    PowBounds(0.8, n);
    var g := l.dRel - DistanceSample(msg);
    var p := Pow(0.8, n);
    var h := VisionRun(l, msg, vEgo, visionVEgo, n).dRel - DistanceSample(msg);
    assert h == g * p;
    ScaledTowardZero(g, p);
  }

  lemma ScaledTowardZero(x: real, p: real)
    requires x != 0.0 && 0.0 < p < 1.0
    ensures Abs(x * p) < Abs(x)
  {
    if x < 0.0 {
      assert x < x * p < 0.0;
    } else {
      assert 0.0 < x * p < x;
    }
  }

  /**
   * The process-wide smoothing state (`_avg_vision_dRel`, `_avg_vision_vLead`,
   * `_avg_vision_aLead`, `_vision_lead_aTau`), one dictionary per field.
   */
  class VisionState {
    var avgDRel: map<Slot, real>
    var avgVLead: map<Slot, real>
    var avgALead: map<Slot, real>
    var leadATau: map<Slot, real>

    /** Both slots are present in every dictionary. */
    predicate Valid()
      reads this
    {
      avgDRel.Keys == {0, 1} && avgVLead.Keys == {0, 1} &&
      avgALead.Keys == {0, 1} && leadATau.Keys == {0, 1}
    }

    function Lead(i: Slot): VisionLead
      reads this
      requires Valid()
    {
      VisionLead(avgDRel[i], avgVLead[i], avgALead[i], leadATau[i])
    }

    constructor ()
      ensures Valid() && Lead(0) == InitialLead && Lead(1) == InitialLead
    {
      leadATau := map[0 := LeadAccelTau, 1 := LeadAccelTau];
      avgDRel := map[0 := 0.0, 1 := 0.0];
      avgVLead := map[0 := 0.0, 1 := 0.0];
      avgALead := map[0 := 0.0, 1 := 0.0];
    }
  }
}
