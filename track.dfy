/**
 * `Track`: the per-detection state machine of radar_helpers.py. Each radar
 * detection identity owns one track; every scan calls `Update` with the raw
 * measurement, and from the second call on the raw lead speed is fed to a
 * 1-D Kalman filter over [speed, acceleration].
 */
module Tracks {
  import opened RadarCommon

  /** The Kalman filter state vector `kf.x`: index SPEED and index ACCEL. */
  datatype FilterState = FilterState(speed: real, accel: real)

  /**
   * One predict-and-correct step of the filter (`KF1D.update`) with the
   * coefficients a track was built with. The filter's arithmetic is not part
   * of this model: a track is given its step as a total function.
   */
  type KalmanStep = (FilterState, real) -> FilterState

  /** One raw radar measurement, as passed to `update`. */
  datatype Detection = Detection(dRel: real, yRel: real, vRel: real, vLead: real, measured: bool)

  /** Placeholder for the raw fields a track does not have before its first update. */
  const NoDetection := Detection(0.0, 0.0, 0.0, 0.0, false)

  /** The observable state of a track. */
  datatype TrackState = TrackState(
    cnt: nat,
    kf: FilterState,
    latest: Detection,
    vLeadK: real,
    aLeadK: real,
    aLeadTau: real)

  /** A freshly constructed track: the filter is seeded with [vLead, 0]. */
  function InitialState(vLead: real): TrackState {
    TrackState(0, FilterState(vLead, 0.0), NoDetection, 0.0, 0.0, LeadAccelTau)
  }

  /** The state after one `update` with measurement `obs`. */
  function TrackUpdate(s: TrackState, step: KalmanStep, obs: Detection): TrackState {
    var kf := if s.cnt > 0 then step(s.kf, obs.vLead) else s.kf;
    TrackState(s.cnt + 1, kf, obs, kf.speed, kf.accel, LearnTau(kf.accel, s.aLeadTau))
  }

  /** The state after `reset_a_lead(a, tau)`: the filter is re-seeded with [vLead, a]. */
  function ResetState(s: TrackState, a: real, tau: real): (r: TrackState)
    ensures r.cnt == s.cnt && r.latest == s.latest && r.vLeadK == s.vLeadK
    ensures r.kf == FilterState(s.latest.vLead, a) && r.aLeadK == a && r.aLeadTau == tau
  {
    s.(kf := FilterState(s.latest.vLead, a), aLeadK := a, aLeadTau := tau)
  }

  /** `get_key_for_cluster`: the lateral distance counts double. */
  function ClusterKey(d: Detection): seq<real> {
    [d.dRel, 2.0 * d.yRel, d.vRel]
  }

  /** The state after a sequence of updates. */
  function TrackRun(s: TrackState, step: KalmanStep, obs: seq<Detection>): TrackState
    decreases |obs|
  {
    if obs == [] then s else TrackRun(TrackUpdate(s, step, obs[0]), step, obs[1..])
  }

  /** The filter state after feeding it the observations `zs` in turn. */
  function FilterRun(step: KalmanStep, x: FilterState, zs: seq<real>): FilterState
    decreases |zs|
  {
    if zs == [] then x else FilterRun(step, step(x, zs[0]), zs[1..])
  }

  function LeadSpeeds(obs: seq<Detection>): (zs: seq<real>)
    ensures |zs| == |obs| && forall i :: 0 <= i < |obs| ==> zs[i] == obs[i].vLead
  {
    seq(|obs|, i requires 0 <= i < |obs| => obs[i].vLead)
  }

  /** The filtered accelerations a run of updates produces, one per update. */
  function AccelTrace(s: TrackState, step: KalmanStep, obs: seq<Detection>): (t: seq<real>)
    decreases |obs|
  {
    if obs == [] then []
    else
      var s1 := TrackUpdate(s, step, obs[0]);
      [s1.aLeadK] + AccelTrace(s1, step, obs[1..])
  }

  /** The first update only seeds: the filter keeps [vLead, 0], so aLeadK is 0 and tau the default. */
  lemma FirstUpdateSeeds(vLead: real, step: KalmanStep, obs: Detection)
    ensures var r := TrackUpdate(InitialState(vLead), step, obs);
      r.cnt == 1 && r.kf == FilterState(vLead, 0.0) && r.latest == obs &&
      r.vLeadK == vLead && r.aLeadK == 0.0 && r.aLeadTau == LeadAccelTau
  {
  }

  /** Every update counts exactly once. */
  lemma {:induction false} RunCount(s: TrackState, step: KalmanStep, obs: seq<Detection>)
    ensures TrackRun(s, step, obs).cnt == s.cnt + |obs|
    decreases |obs|
  {
    if obs != [] {
      RunCount(TrackUpdate(s, step, obs[0]), step, obs[1..]);
    }
  }

  /** After the latest update, the raw fields are those of the latest measurement. */
  lemma {:induction false} RunLatest(s: TrackState, step: KalmanStep, obs: seq<Detection>)
    requires obs != []
    ensures TrackRun(s, step, obs).latest == obs[|obs| - 1]
    decreases |obs|
  {
    if |obs| > 1 {
      RunLatest(TrackUpdate(s, step, obs[0]), step, obs[1..]);
    }
  }

  /** Once a track has been seeded, every update steps the filter with the lead speed. */
  lemma {:induction false} SeededRunSteps(s: TrackState, step: KalmanStep, obs: seq<Detection>)
    requires s.cnt > 0
    ensures TrackRun(s, step, obs).kf == FilterRun(step, s.kf, LeadSpeeds(obs))
    decreases |obs|
  {
    if obs != [] {
      var s1 := TrackUpdate(s, step, obs[0]);
      SeededRunSteps(s1, step, obs[1..]);
      assert LeadSpeeds(obs)[1..] == LeadSpeeds(obs[1..]);
    }
  }

  /**
   * From construction, the filter sees every measurement but the first:
   * the first one seeds, it does not correct.
   */
  lemma FreshRunSkipsFirst(vLead: real, step: KalmanStep, obs: seq<Detection>)
    requires obs != []
    ensures TrackRun(InitialState(vLead), step, obs).kf
         == FilterRun(step, FilterState(vLead, 0.0), LeadSpeeds(obs[1..]))
  {
    SeededRunSteps(TrackUpdate(InitialState(vLead), step, obs[0]), step, obs[1..]);
  }

  /** The tau of a track follows the learning rule over the filtered accelerations. */
  lemma {:induction false} RunTau(s: TrackState, step: KalmanStep, obs: seq<Detection>)
    ensures |AccelTrace(s, step, obs)| == |obs|
    ensures TrackRun(s, step, obs).aLeadTau == TauRun(s.aLeadTau, AccelTrace(s, step, obs))
    decreases |obs|
  {
    if obs != [] {
      var s1 := TrackUpdate(s, step, obs[0]);
      RunTau(s1, step, obs[1..]);
      var t := AccelTrace(s, step, obs);
      assert t[0] == s1.aLeadK && t[1..] == AccelTrace(s1, step, obs[1..]);
    }
  }

  /** A track that starts with tau in (0, 1.5], e.g. a new one, keeps it there. */
  lemma RunTauInRange(s: TrackState, step: KalmanStep, obs: seq<Detection>)
    requires 0.0 < s.aLeadTau <= LeadAccelTau
    ensures 0.0 < TrackRun(s, step, obs).aLeadTau <= LeadAccelTau
  {
    RunTau(s, step, obs);
    TauRunInRange(s.aLeadTau, AccelTrace(s, step, obs));
  }

  /**
   * `reset_a_lead` does not reset the count, so the next update of a seeded
   * track steps the filter from the re-seeded [vLead, a].
   */
  lemma ResetThenUpdate(s: TrackState, a: real, tau: real, step: KalmanStep, obs: Detection)
    requires s.cnt > 0
    ensures TrackUpdate(ResetState(s, a, tau), step, obs).kf == step(FilterState(s.latest.vLead, a), obs.vLead)
  {
  }

  /** The cluster key depends on the latest measurement only, and a reset leaves it alone. */
  lemma ClusterKeyFollowsLatest(s: TrackState, step: KalmanStep, obs: Detection, a: real, tau: real)
    ensures ClusterKey(TrackUpdate(s, step, obs).latest) == [obs.dRel, 2.0 * obs.yRel, obs.vRel]
    ensures ClusterKey(ResetState(s, a, tau).latest) == ClusterKey(s.latest)
  {
  }

  /** The fields the cluster averages over, by name. */
  datatype Attr = DRel | YRel | VRel | VLead | VLeadK | ALeadK | ALeadTau

  class Track {
    var cnt: nat
    var aLeadTau: real
    /** The filter state `kf.x`; its coefficients are in `kalmanStep`. */
    var kf: FilterState
    const kalmanStep: KalmanStep

    // Set by `Update`; placeholders until the first update.
    var dRel: real
    var yRel: real
    var vRel: real
    var vLead: real
    var measured: bool
    var vLeadK: real
    var aLeadK: real

    function State(): TrackState
      reads this
    {
      TrackState(cnt, kf, Detection(dRel, yRel, vRel, vLead, measured), vLeadK, aLeadK, aLeadTau)
    }

    function Get(f: Attr): real
      reads this
    {
      match f
      case DRel => dRel
      case YRel => yRel
      case VRel => vRel
      case VLead => vLead
      case VLeadK => vLeadK
      case ALeadK => aLeadK
      case ALeadTau => aLeadTau
    }

    constructor (vLead: real, kalmanStep: KalmanStep)
      ensures State() == InitialState(vLead) && this.kalmanStep == kalmanStep
    {
      cnt := 0;
      aLeadTau := LeadAccelTau;
      this.kalmanStep := kalmanStep;
      kf := FilterState(vLead, 0.0);
      dRel, yRel, vRel, this.vLead, measured := 0.0, 0.0, 0.0, 0.0, false;
      vLeadK, aLeadK := 0.0, 0.0;
    }

    method Update(dRel: real, yRel: real, vRel: real, vLead: real, measured: bool)
      modifies this
      ensures State() == TrackUpdate(old(State()), kalmanStep, Detection(dRel, yRel, vRel, vLead, measured))
    {
      this.dRel := dRel;
      this.yRel := yRel;
      this.vRel := vRel;
      this.vLead := vLead;
      this.measured := measured;

      if cnt > 0 {
        kf := kalmanStep(kf, this.vLead);
      }

      vLeadK := kf.speed;
      aLeadK := kf.accel;

      if Abs(aLeadK) < ConstantAccelLimit {
        aLeadTau := LeadAccelTau;
      } else {
        aLeadTau := aLeadTau * TauDecay;
      }

      cnt := cnt + 1;
    }

    /** Reads the raw fields, which exist only once the track has been updated. */
    method GetKeyForCluster() returns (key: seq<real>)
      requires cnt > 0
      ensures key == ClusterKey(State().latest)
    {
      key := [dRel, yRel * 2.0, vRel];
    }

    /** Reads `vLead`, which exists only once the track has been updated. */
    method ResetALead(aLeadK: real, aLeadTau: real)
      requires cnt > 0
      modifies this
      ensures State() == ResetState(old(State()), aLeadK, aLeadTau)
    {
      kf := FilterState(vLead, aLeadK);
      this.aLeadK := aLeadK;
      this.aLeadTau := aLeadTau;
    }
  }
}
