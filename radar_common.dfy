/**
 * Constants, the published lead record and the acceleration time-constant
 * ("tau") learning rule shared by radar tracks and the vision fallback
 * (selfdrive/controls/lib/radar_helpers.py).
 */
module RadarCommon {

  /** Default acceleration time constant `_LEAD_ACCEL_TAU`, in seconds. */
  const LeadAccelTau: real := 1.5

  /** No stationary-object flag at or above this ego speed (`v_ego_stationary`). */
  const VEgoStationary: real := 4.0

  /** The radar sits this far ahead of the centre of the camera mesh frame (`RADAR_TO_CAMERA`). */
  const RadarToCamera: real := 1.52

  /** Below this acceleration magnitude the lead counts as moving at constant speed. */
  const ConstantAccelLimit: real := 0.5

  /** Multiplicative decay of tau while the lead keeps accelerating. */
  const TauDecay: real := 0.9

  /** Model probability above which a forward-collision warning is raised. */
  const FcwProbability: real := 0.9

  function Abs(x: real): real {
    if x < 0.0 then -x else x
  }

  function Pow(b: real, n: nat): real {
    if n == 0 then 1.0 else b * Pow(b, n - 1)
  }

  /** A base strictly between 0 and 1 raised to a power stays in (0, 1], and below 1 once n > 0. */
  lemma {:induction false} PowBounds(b: real, n: nat)
    requires 0.0 < b < 1.0
    ensures 0.0 < Pow(b, n) <= 1.0
    ensures n > 0 ==> Pow(b, n) < 1.0
  {
    if n > 0 {
      PowBounds(b, n - 1);
      assert Pow(b, n) == b * Pow(b, n - 1);
      assert b * Pow(b, n - 1) <= b * 1.0;
    }
  }

  /**
   * The record published for one lead slot, with the field names of the
   * `radarState` lead message.
   */
  datatype RadarState = RadarState(
    dRel: real,
    yRel: real,
    vRel: real,
    vLead: real,
    vLeadK: real,
    aLeadK: real,
    status: bool,
    fcw: bool,
    modelProb: real,
    radar: bool,
    aLeadTau: real)

  /**
   * "Learn if constant acceleration": a small acceleration resets tau to the
   * default, a large one decays it by 0.9.
   */
  function LearnTau(accel: real, tau: real): (r: real)
    ensures Abs(accel) < ConstantAccelLimit ==> r == LeadAccelTau
    ensures Abs(accel) >= ConstantAccelLimit ==> r == tau * TauDecay
    ensures 0.0 < tau <= LeadAccelTau ==> 0.0 < r <= LeadAccelTau
    ensures Abs(accel) >= ConstantAccelLimit && tau > 0.0 ==> 0.0 < r < tau
  {
    if Abs(accel) < ConstantAccelLimit then LeadAccelTau else tau * TauDecay
  }

  /** Tau after the rule has been applied to each acceleration of `accels` in turn. */
  function TauRun(tau: real, accels: seq<real>): real
    decreases |accels|
  {
    if accels == [] then tau else TauRun(LearnTau(accels[0], tau), accels[1..])
  }

  /** Starting anywhere in (0, 1.5] -- in particular at the default -- tau never leaves (0, 1.5]. */
  lemma {:induction false} TauRunInRange(tau: real, accels: seq<real>)
    requires 0.0 < tau <= LeadAccelTau
    ensures 0.0 < TauRun(tau, accels) <= LeadAccelTau
    decreases |accels|
  {
    if accels != [] {
      TauRunInRange(LearnTau(accels[0], tau), accels[1..]);
    }
  }

  /**
   * A run of large accelerations scales tau by 0.9 per step, whatever tau a
   * reset left behind; a positive tau therefore shrinks strictly.
   */
  lemma {:induction false} TauRunDecays(tau: real, accels: seq<real>)
    requires forall i :: 0 <= i < |accels| ==> Abs(accels[i]) >= ConstantAccelLimit
    ensures TauRun(tau, accels) == tau * Pow(TauDecay, |accels|)
    ensures |accels| > 0 && tau > 0.0 ==> 0.0 < TauRun(tau, accels) < tau
    decreases |accels|
  {
    PowBounds(TauDecay, |accels|);
    if accels != [] {
      var rest := accels[1..];
      assert forall i :: 0 <= i < |rest| ==> Abs(rest[i]) >= ConstantAccelLimit by {
        forall i | 0 <= i < |rest| ensures Abs(rest[i]) >= ConstantAccelLimit {
          assert rest[i] == accels[i + 1];
        }
      }
      assert LearnTau(accels[0], tau) == tau * TauDecay;
      TauRunDecays(tau * TauDecay, rest);
      assert Pow(TauDecay, |accels|) == TauDecay * Pow(TauDecay, |rest|);
      assert tau * TauDecay * Pow(TauDecay, |rest|) == tau * (TauDecay * Pow(TauDecay, |rest|));
      if tau > 0.0 {
        assert tau * Pow(TauDecay, |accels|) < tau * 1.0;
      }
    }
  }

  /** Whatever came before, a small final acceleration leaves tau exactly at the default. */
  lemma {:induction false} TauRunResets(tau: real, accels: seq<real>)
    requires |accels| > 0 && Abs(accels[|accels| - 1]) < ConstantAccelLimit
    ensures TauRun(tau, accels) == LeadAccelTau
    decreases |accels|
  {
    var rest := accels[1..];
    if rest != [] {
      assert rest[|rest| - 1] == accels[|accels| - 1];
      TauRunResets(LearnTau(accels[0], tau), rest);
    }
  }
}
