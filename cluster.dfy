/**
 * `Cluster`: a set of tracks judged by the external association step to be
 * one physical lead. Its attributes are recomputed from the members on every
 * read: each is the mean of the members' field, except that the acceleration
 * attributes only average members updated more than once, and `measured` is
 * an "any" over the members.
 */
module Clusters {
  import opened RadarCommon
  import opened Tracks
  import opened VisionFallback

  /** Some member of a non-empty set of tracks. */
  ghost function Pick(ts: set<Track>): (t: Track)
    requires ts != {}
    ensures t in ts
  {
    var t :| t in ts; t
  }

  /** The sum of one field over a set of tracks. */
  ghost function Sum(ts: set<Track>, f: Attr): real
    reads ts
    decreases ts
  {
    if ts == {} then 0.0 else
      var t := Pick(ts);
      t.Get(f) + Sum(ts - {t}, f)
  }

  /** `numpy_fast.mean` of one field over the members: the sum over the count. */
  ghost function Mean(ts: set<Track>, f: Attr): real
    reads ts
    requires ts != {}
  {
    Sum(ts, f) / (|ts| as real)
  }

  /** Every member has been updated, so its raw fields exist. */
  ghost predicate Seeded(ts: set<Track>)
    reads ts
  {
    forall t :: t in ts ==> t.cnt > 0
  }

  /** The members whose acceleration estimate is trusted: updated more than once. */
  ghost function Mature(ts: set<Track>): set<Track>
    reads ts
  {
    set t | t in ts && t.cnt > 1
  }

  /** `Cluster.aLeadK`: 0 when no member is mature, else the mean over the mature ones. */
  ghost function FusedALeadK(ts: set<Track>): real
    reads ts
  {
    if forall t :: t in ts ==> t.cnt <= 1 then 0.0
    else
      assert Mature(ts) != {} by {
        var u :| u in ts && u.cnt > 1;
        assert u in Mature(ts);
      }
      Mean(Mature(ts), Attr.ALeadK)
  }

  /** `Cluster.aLeadTau`: the default when no member is mature, else the mean over the mature ones. */
  ghost function FusedALeadTau(ts: set<Track>): real
    reads ts
  {
    if forall t :: t in ts ==> t.cnt <= 1 then LeadAccelTau
    else
      assert Mature(ts) != {} by {
        var u :| u in ts && u.cnt > 1;
        assert u in Mature(ts);
      }
      Mean(Mature(ts), Attr.ALeadTau)
  }

  /** `Cluster.measured`: any member measured. A member's flag exists only once it has been updated. */
  ghost predicate AnyMeasured(ts: set<Track>)
    reads ts
    requires Seeded(ts)
  {
    exists t :: t in ts && t.measured
  }

  /** The sum does not depend on which member is taken out first. */
  lemma {:induction false} SumRemove(ts: set<Track>, t: Track, f: Attr)
    requires t in ts
    ensures Sum(ts, f) == t.Get(f) + Sum(ts - {t}, f)
    decreases ts
  {
    var u := Pick(ts);
    if u != t {
      SumRemove(ts - {u}, t, f);
      SumRemove(ts - {t}, u, f);
      assert ts - {u} - {t} == ts - {t} - {u};
    }
  }

  /** The mean of one member is that member's field. */
  lemma MeanSingleton(t: Track, f: Attr)
    ensures Mean({t}, f) == t.Get(f)
  {
    SumRemove({t}, t, f);
    assert {t} - {t} == {};
  }

  /** If every member's value lies in (0, 1.5], the sum lies in (0, 1.5 * n]. */
  lemma {:induction false} SumWithinTauRange(ts: set<Track>, f: Attr)
    requires ts != {}
    requires forall t :: t in ts ==> 0.0 < t.Get(f) <= 1.5
    ensures 0.0 < Sum(ts, f) <= 1.5 * (|ts| as real)
    decreases ts
  {
    var t := Pick(ts);
    var rest := ts - {t};
    assert Sum(ts, f) == t.Get(f) + Sum(rest, f);
    assert |ts| == |rest| + 1;
    if rest != {} {
      SumWithinTauRange(rest, f);
    }
  }

  /** If every member's value lies in (0, 1.5], so does the mean. */
  lemma MeanWithinTauRange(ts: set<Track>, f: Attr)
    requires ts != {}
    requires forall t :: t in ts ==> 0.0 < t.Get(f) <= 1.5
    ensures 0.0 < Mean(ts, f) <= 1.5
  {
    SumWithinTauRange(ts, f);
    QuotientWithinTauRange(Sum(ts, f), |ts| as real);
  }

  lemma QuotientWithinTauRange(s: real, n: real)
    requires n > 0.0 && 0.0 < s <= 1.5 * n
    ensures 0.0 < s / n <= 1.5
  {
    assert s / n <= (1.5 * n) / n;
  }

  /**
   * The acceleration fall-backs: with no member updated more than once
   * (the empty cluster included) they are 0 and the default tau; otherwise
   * they are means over exactly the members updated more than once.
   */
  lemma FusedAccelDefaults(ts: set<Track>)
    ensures (forall t :: t in ts ==> t.cnt <= 1) <==> Mature(ts) == {}
    ensures Mature(ts) == {} ==> FusedALeadK(ts) == 0.0 && FusedALeadTau(ts) == LeadAccelTau
    ensures Mature(ts) != {} ==>
      FusedALeadK(ts) == Mean(Mature(ts), Attr.ALeadK) && FusedALeadTau(ts) == Mean(Mature(ts), Attr.ALeadTau)
    ensures forall t :: t in Mature(ts) <==> t in ts && t.cnt > 1
  {
    if Mature(ts) == {} {
      forall t | t in ts ensures t.cnt <= 1 {
        assert t !in Mature(ts);
      }
    }
  }

  /** A member updated at most once has no influence on the fused acceleration or tau. */
  lemma FusedIgnoresYoungTrack(ts: set<Track>, t: Track)
    requires t in ts && t.cnt <= 1
    ensures FusedALeadK(ts) == FusedALeadK(ts - {t})
    ensures FusedALeadTau(ts) == FusedALeadTau(ts - {t})
  {
    assert Mature(ts) == Mature(ts - {t});
    assert (forall u :: u in ts ==> u.cnt <= 1) <==> (forall u :: u in ts - {t} ==> u.cnt <= 1);
  }

  /** If every member's tau lies in (0, 1.5], so does the fused tau. */
  lemma FusedTauInRange(ts: set<Track>)
    requires forall t :: t in ts ==> 0.0 < t.aLeadTau <= LeadAccelTau
    ensures 0.0 < FusedALeadTau(ts) <= LeadAccelTau
  {
    FusedAccelDefaults(ts);
    if Mature(ts) != {} {
      MeanWithinTauRange(Mature(ts), Attr.ALeadTau);
    }
  }

  /** Adding a member ORs its measured flag into the cluster's. */
  lemma MeasuredAfterAdd(ts: set<Track>, t: Track)
    requires Seeded(ts) && t.cnt > 0
    ensures AnyMeasured(ts + {t}) <==> AnyMeasured(ts) || t.measured
  {
    if t.measured {
      assert t in ts + {t};
    }
  }

  class Cluster {
    var tracks: set<Track>

    constructor ()
      ensures tracks == {}
    {
      tracks := {};
    }

    /** Set insertion: adding a member twice leaves the membership as it was. */
    method Add(t: Track)
      modifies this
      ensures tracks == old(tracks) + {t}
      ensures t in old(tracks) ==> tracks == old(tracks)
    {
      tracks := tracks + {t};
    }

    predicate IsPotentialFcw(modelProb: real) {
      modelProb > FcwProbability
    }

    /** Something close and nearly straight ahead at low ego speed, even without model confirmation. */
    ghost predicate PotentialLowSpeedLead(vEgo: real)
      reads this, tracks
      requires tracks != {} && Seeded(tracks)
    {
      Abs(Mean(tracks, Attr.YRel)) < 1.5 && vEgo < VEgoStationary && Mean(tracks, Attr.DRel) < 25.0
    }

    /** `get_RadarState`: the fused record of a radar cluster. */
    ghost function GetRadarState(modelProb: real): (r: RadarState)
      reads this, tracks
      requires tracks != {} && Seeded(tracks)
      ensures r.status && r.radar && r.modelProb == modelProb
      ensures r.fcw <==> modelProb > FcwProbability
    {
      RadarState(
        dRel := Mean(tracks, Attr.DRel),
        yRel := Mean(tracks, Attr.YRel),
        vRel := Mean(tracks, Attr.VRel),
        vLead := Mean(tracks, Attr.VLead),
        vLeadK := Mean(tracks, Attr.VLeadK),
        aLeadK := FusedALeadK(tracks),
        status := true,
        fcw := IsPotentialFcw(modelProb),
        modelProb := modelProb,
        radar := true,
        aLeadTau := FusedALeadTau(tracks))
    }

    /**
     * `get_RadarState_from_vision`: the record for slot `leadIndex` when no
     * radar cluster backs it. The cluster itself is not read; the smoothing
     * state is passed in.
     */
    method GetRadarStateFromVision(vs: VisionState, msg: VisionLeadMsg, leadIndex: Slot, vEgo: real, visionVEgo: real)
      returns (r: RadarState)
      requires vs.Valid() && WellFormed(msg)
      modifies vs
      ensures vs.Valid()
      ensures vs.Lead(leadIndex) == VisionUpdate(old(vs.Lead(leadIndex)), msg, vEgo, visionVEgo)
      ensures vs.Lead(1 - leadIndex) == old(vs.Lead(1 - leadIndex))
      ensures r == VisionRecord(vs.Lead(leadIndex), msg, vEgo, visionVEgo)
    {
      var correctedVLead := msg.v[0] - (visionVEgo - vEgo);

      vs.avgDRel := vs.avgDRel[leadIndex := (vs.avgDRel[leadIndex] * 4.0 + (msg.x[0] - RadarToCamera)) / 5.0];
      vs.avgVLead := vs.avgVLead[leadIndex := (vs.avgVLead[leadIndex] * 4.0 + correctedVLead) / 5.0];
      vs.avgALead := vs.avgALead[leadIndex := (vs.avgALead[leadIndex] * 4.0 + msg.a[0]) / 5.0];

      if Abs(vs.avgALead[leadIndex]) < ConstantAccelLimit {
        vs.leadATau := vs.leadATau[leadIndex := LeadAccelTau];
      } else {
        vs.leadATau := vs.leadATau[leadIndex := vs.leadATau[leadIndex] * TauDecay];
      }

      r := RadarState(
        dRel := vs.avgDRel[leadIndex],
        yRel := -msg.y[0],
        vRel := vs.avgVLead[leadIndex] - vEgo,
        vLead := correctedVLead,
        vLeadK := vs.avgVLead[leadIndex],
        aLeadK := vs.avgALead[leadIndex],
        aLeadTau := vs.leadATau[leadIndex],
        fcw := false,
        modelProb := msg.prob,
        radar := false,
        status := true);
    }
  }

  /**
   * A one-member cluster reproduces its member: the plain attributes are the
   * member's fields, and the acceleration attributes are the member's once
   * it has been updated more than once.
   */
  lemma SingleTrackCluster(c: Cluster, t: Track, modelProb: real)
    requires c.tracks == {t} && t.cnt > 0
    ensures var r := c.GetRadarState(modelProb);
      && r.dRel == t.dRel && r.yRel == t.yRel && r.vRel == t.vRel
      && r.vLead == t.vLead && r.vLeadK == t.vLeadK
      && r.aLeadK == (if t.cnt > 1 then t.aLeadK else 0.0)
      && r.aLeadTau == (if t.cnt > 1 then t.aLeadTau else LeadAccelTau)
    ensures AnyMeasured(c.tracks) == t.measured
  {
    MeanSingleton(t, Attr.DRel);
    MeanSingleton(t, Attr.YRel);
    MeanSingleton(t, Attr.VRel);
    MeanSingleton(t, Attr.VLead);
    MeanSingleton(t, Attr.VLeadK);
    FusedAccelDefaults({t});
    if t.cnt > 1 {
      assert Mature({t}) == {t};
      MeanSingleton(t, Attr.ALeadK);
      MeanSingleton(t, Attr.ALeadTau);
    }
  }

  /** For a one-member cluster the low-speed-lead test reads the member's own distances; all gates are strict. */
  lemma LowSpeedLeadOfSingleTrack(c: Cluster, t: Track, vEgo: real)
    requires c.tracks == {t} && t.cnt > 0
    ensures c.PotentialLowSpeedLead(vEgo) <==> Abs(t.yRel) < 1.5 && vEgo < 4.0 && t.dRel < 25.0
  {
    MeanSingleton(t, Attr.DRel);
    MeanSingleton(t, Attr.YRel);
  }
}
