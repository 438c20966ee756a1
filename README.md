# Radar lead tracking helpers, modelled in Dafny

This project models `selfdrive/controls/lib/radar_helpers.py` of openpilot.
That file holds the logic that tracks the vehicle ahead (the "lead"):

- **`Track`** follows one radar detection identity. It has a scan counter `cnt`. Every scan,
  `update` stores the raw measurement: distance `dRel`, lateral offset `yRel`, relative speed
  `vRel`, lead speed `vLead` and the `measured` flag. From the second scan on it also feeds
  `vLead` to a one-dimensional Kalman filter over [speed, acceleration]. It learns an
  acceleration time constant `aLeadTau` (tau): tau goes back to 1.5 s while the filtered
  acceleration is below 0.5 in magnitude, and is multiplied by 0.9 otherwise.
  `reset_a_lead` re-seeds the filter. `get_key_for_cluster` gives the association step
  its distance key.
- **`Cluster`** is a set of tracks that the external association step believes to be one
  object. Its attributes are means over the members, with these exceptions:
  - the acceleration and tau average only members updated more than once, and fall back to
    0 and 1.5 when there are none;
  - `measured` is an "any" over the members.

  The cluster builds the published lead record (`get_RadarState`). It also has two threshold
  tests: forward-collision warning (FCW), and potential low-speed lead.
- **Vision fallback**: when no radar cluster backs a lead slot (0 or 1),
  `get_RadarState_from_vision` smooths the vision model's lead for that slot. Each value
  becomes `(old*4 + sample)/5`, and the slot learns its own tau by the same rule. The
  source keeps this state in module-level dictionaries. Here it is one explicit
  `VisionState` object with one map per dictionary, passed to the method.

Modules:

- `RadarCommon` (radar_common.dfy): the constants, the record datatype `RadarState`, the
  tau rule `LearnTau`, and lemmas about runs of the rule.
- `Tracks` (track.dfy): the class `Track`. Its methods are specified by pure functions of a
  state snapshot: `TrackUpdate`, `ResetState` and `ClusterKey`. Lemmas describe runs of
  updates (`TrackRun`).
- `VisionFallback` (vision.dfy): the class `VisionState`, the per-slot update
  `VisionUpdate`, the record `VisionRecord`, and the convergence lemmas.
- `Clusters` (cluster.dfy): the class `Cluster` and the means over a set of tracks (`Sum`,
  `Mean`, `FusedALeadK`, `FusedALeadTau`, `AnyMeasured`), with their lemmas.

All numbers are `real`. The Kalman filter's step is a parameter of each track (see Left out).

## Model

| member | source | states |
|---|---|---|
| `RadarCommon.LearnTau` | selfdrive/controls/lib/radar_helpers.py:49-52 | Tau becomes exactly 1.5 when the acceleration magnitude is below 0.5, and exactly 0.9 times the old tau otherwise. Tau in (0, 1.5] stays in (0, 1.5]. A large acceleration makes a positive tau strictly smaller but still positive. |
| `RadarCommon.TauRunInRange` | selfdrive/controls/lib/radar_helpers.py:49-52 | Starting anywhere in (0, 1.5], including the default 1.5, tau stays in (0, 1.5] over any run of accelerations. |
| `RadarCommon.TauRunDecays` | selfdrive/controls/lib/radar_helpers.py:49-52 | Over a run of n accelerations all of magnitude at least 0.5, tau becomes tau * 0.9^n, for any starting tau (a reset may set any value). A positive tau is therefore strictly smaller, and still positive, after any non-empty run. |
| `RadarCommon.TauRunResets` | selfdrive/controls/lib/radar_helpers.py:49-50 | Whatever came before, a final acceleration below 0.5 in magnitude leaves tau exactly at 1.5. |
| `Tracks.Track.constructor` | selfdrive/controls/lib/radar_helpers.py:25-31 | A new track has `cnt == 0`, tau 1.5, and the filter seeded with [v_lead, 0]. It keeps the filter coefficients it was given. |
| `Tracks.Track.Update` | selfdrive/controls/lib/radar_helpers.py:33-54 | The new state is `TrackUpdate` of the old one: the raw fields are overwritten with the arguments, the filter is stepped with `vLead` only when `cnt > 0` before the call, `vLeadK`/`aLeadK` are read off the filter, tau follows the tau rule, and `cnt` goes up by one. |
| `Tracks.Track.GetKeyForCluster` | selfdrive/controls/lib/radar_helpers.py:56-58 | Returns `[dRel, 2*yRel, vRel]` of the latest measurement. It needs a track that has been updated, because before that these attributes do not exist. |
| `Tracks.Track.ResetALead` | selfdrive/controls/lib/radar_helpers.py:60-63 | The new state is `ResetState` of the old one. It needs a track that has been updated, because it reads `vLead`. |
| `Tracks.ResetState` | selfdrive/controls/lib/radar_helpers.py:60-63 | A reset sets `aLeadK = a` and `aLeadTau = tau` and re-seeds the filter to [vLead, a]. It leaves `cnt`, the raw fields and `vLeadK` unchanged. |
| `Tracks.FirstUpdateSeeds` | selfdrive/controls/lib/radar_helpers.py:42-50 | The first update of a new track does not step the filter. Afterwards `vLeadK == v_lead`, `aLeadK == 0`, tau is 1.5 and `cnt == 1`. |
| `Tracks.RunCount` | selfdrive/controls/lib/radar_helpers.py:54 | Each update adds exactly one to `cnt`: after n updates it has grown by n. |
| `Tracks.RunLatest` | selfdrive/controls/lib/radar_helpers.py:33-39 | After a run of updates, the raw fields are exactly those of the last measurement. No history is kept. |
| `Tracks.SeededRunSteps` | selfdrive/controls/lib/radar_helpers.py:42-43 | Once `cnt > 0`, a run of updates steps the filter once per update, with each update's `vLead` in order. |
| `Tracks.FreshRunSkipsFirst` | selfdrive/controls/lib/radar_helpers.py:31-43 | From construction, the filter state after n updates is [v_lead, 0] stepped with the lead speeds of updates 2 to n. The first measurement only seeds the filter. |
| `Tracks.RunTau` | selfdrive/controls/lib/radar_helpers.py:45-52 | A track's tau after a run of updates is the tau rule applied in turn to the filtered accelerations those updates produce. |
| `Tracks.RunTauInRange` | selfdrive/controls/lib/radar_helpers.py:27-52 | A track whose tau is in (0, 1.5], a new track among them, keeps tau in (0, 1.5] over any run of updates. |
| `Tracks.ResetThenUpdate` | selfdrive/controls/lib/radar_helpers.py:42-63 | A reset does not clear `cnt`. So the next update of an updated track steps the filter, starting from the re-seeded [vLead, a]. |
| `Tracks.ClusterKeyFollowsLatest` | selfdrive/controls/lib/radar_helpers.py:56-63 | After an update, the cluster key is `[d_rel, 2*y_rel, v_rel]` of that update's arguments. A reset leaves the key unchanged. |
| `VisionFallback.Smooth` | selfdrive/controls/lib/radar_helpers.py:146-148 | The 4:1 average closes exactly a fifth of the gap to the sample. The result lies between the old average and the sample. |
| `VisionFallback.VisionRecord` | selfdrive/controls/lib/radar_helpers.py:156-168 | A vision record always has `status` true and `radar` and `fcw` false. `modelProb` is the message's `prob`, `yRel` is `-y[0]`, and `vRel` is the smoothed lead speed minus `v_ego`. `vLead` is the corrected `v[0] - (vision_v_ego - v_ego)`. The other fields are the slot's smoothed values. |
| `VisionFallback.VisionUpdateShrinksGaps` | selfdrive/controls/lib/radar_helpers.py:142-154 | One update moves the distance, speed and acceleration averages a fifth of the way to their samples: `x[0] - 1.52`, the corrected `v[0]`, and `a[0]`. The slot's tau stays in (0, 1.5] when it started there. |
| `VisionFallback.FirstVisionSample` | selfdrive/controls/lib/radar_helpers.py:11-13 | From the zeroed start state, one call gives the averages sample / 5. |
| `VisionFallback.VisionRunConverges` | selfdrive/controls/lib/radar_helpers.py:146-148 | After n calls with a constant message and ego speeds, each average's gap to its sample is the starting gap times (4/5)^n. |
| `VisionFallback.VisionDistanceGapShrinks` | selfdrive/controls/lib/radar_helpers.py:146 | A non-zero distance gap becomes strictly smaller in magnitude after any positive number of calls. |
| `VisionFallback.VisionState.constructor` | selfdrive/controls/lib/radar_helpers.py:10-13 | Both slots start with zero averages and tau 1.5. |
| `Clusters.Cluster.constructor` | selfdrive/controls/lib/radar_helpers.py:67-68 | A new cluster has no members. |
| `Clusters.Cluster.Add` | selfdrive/controls/lib/radar_helpers.py:70-72 | `add` is set insertion. Adding a track that is already a member leaves the membership unchanged. |
| `Clusters.Cluster.GetRadarState` | selfdrive/controls/lib/radar_helpers.py:125-138 | The radar record always has `status` and `radar` true. It passes `modelProb` through, and `fcw` holds iff `model_prob > 0.9`, strictly. |
| `Clusters.Cluster.GetRadarStateFromVision` | selfdrive/controls/lib/radar_helpers.py:140-168 | The chosen slot's state becomes `VisionUpdate` of its old state, and the other slot is untouched. The record returned is `VisionRecord` of the new slot state. |
| `Clusters.FusedAccelDefaults` | selfdrive/controls/lib/radar_helpers.py:107-119 | If every member has `cnt <= 1` (the empty cluster included), the fused acceleration is 0 and the fused tau is 1.5. Otherwise they are the means over exactly the members with `cnt > 1`. |
| `Clusters.FusedIgnoresYoungTrack` | selfdrive/controls/lib/radar_helpers.py:109-119 | A member with `cnt <= 1` does not change the fused acceleration or tau: removing it gives the same values. |
| `Clusters.FusedTauInRange` | selfdrive/controls/lib/radar_helpers.py:114-119 | If every member's tau is in (0, 1.5], so is the fused tau. |
| `Clusters.MeasuredAfterAdd` | selfdrive/controls/lib/radar_helpers.py:121-123 | For updated tracks (the flag does not exist before the first update), a cluster is measured after adding a track iff it was measured before or the track is measured. |
| `Clusters.SingleTrackCluster` | selfdrive/controls/lib/radar_helpers.py:75-123 | A one-track cluster's `dRel`, `yRel`, `vRel`, `vLead` and `vLeadK` are that track's. Its acceleration and tau are the track's when `cnt > 1`, else 0 and 1.5. It is measured iff the track is. |
| `Clusters.LowSpeedLeadOfSingleTrack` | selfdrive/controls/lib/radar_helpers.py:174-176 | For a one-track cluster, a potential low-speed lead holds iff abs(yRel) < 1.5, v_ego < 4.0 and dRel < 25. All three comparisons are strict. |

## Left out

- The Kalman filter `KF1D` (`common/kalman/simple_kalman`) is not part of this model. Each track is given one filter step as a function (`KalmanStep`), standing for its `kalman_params`. Every property above holds for any such step.
- `numpy_fast.mean` is not part of this model. It is modelled as the sum divided by the count, so the plain means need a non-empty cluster. `aLeadK`/`aLeadTau` need no such condition, because they fall back to defaults on the empty cluster.
- The `float(...)` casts and floating-point rounding. Values are exact reals.
- Before its first `update`, a Python track has no `dRel`, `yRel`, `vRel`, `vLead`, `measured`, `vLeadK` or `aLeadK`. Reading them raises. The model stores placeholder zeros in these fields. Every member that models a source operation reading them requires the track, or every member of the cluster, to have `cnt > 0`, which holds exactly after the first update: `GetKeyForCluster`, `ResetALead`, `AnyMeasured`, `PotentialLowSpeedLead` and `GetRadarState`. The fused acceleration reads `aLeadK` only of members with `cnt > 1`. The helpers `Track.Get`, `Sum` and `Mean` read the fields without that condition; they are only applied under it, or to `aLeadTau`, which the constructor sets.
- `Cluster.aRel`, `dPath` and `vLat` read track attributes that are never assigned, so they always raise. They are not modelled.
- `__str__` and the unused `RADAR_TO_CENTER` constant.
- The default argument `model_prob=0.0` of `get_RadarState`: callers pass the probability explicitly.
- The message dictionaries: records are the datatype `RadarState`. Of the vision message only `x`, `y`, `v`, `a` and `prob` are modelled, and only index 0 of each array is read. The message must have non-empty arrays, as the source indexes them.
- Slot indices other than 0 and 1 raise a `KeyError` in the source. The model's `Slot` type rules them out.
- The clustering/association step is external. A cluster's tracks are whatever `Add` was given.
- Convergence of the vision averages is proved as an exact geometric decay of the gap. No explicit bound is given on the number of calls needed to reach a tolerance.
- The cluster's `yRel` is the plain mean of the members' `yRel`. No sign flip is applied at that point, as in the code.
