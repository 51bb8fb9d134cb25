/**
 * score_run: the summary a finished history is judged by (first detection
 * time, closest approach, time spent inside the keep-out zone, both sides'
 * total delta-v) and the outcome label chosen from them by precedence;
 * then what those numbers are for a history the simulation produced.
 */
module Scoring {
  import opened Optional
  import opened Vectors
  import opened Series
  import opened Simulation

  const Maintained: string := "Blue maintained KOZ with timely detection"
  const Recovered: string := "KOZ violated briefly; Blue recovered with dodge"
  const ViolatedNoDodge: string := "KOZ violated (no dodge)"
  const NoEncounter: string := "No encounter"

  /**
   * The summary dictionary; a detection time of `None` is the source's
   * `None` for a run that was never detected.
   */
  datatype Score = Score(detectionTime: Option<real>, closestApproach: real, timeInsideKeepout: real,
                         blueTotalDv: real, threatTotalDv: real, outcome: string)

  /**
   * Selecting the times by the detection mask needs the mask to be as long
   * as the time series; it is only evaluated when some flag is set.
   */
  predicate MaskFits(t: seq<real>, detected: seq<bool>)
  {
    (exists i :: 0 <= i < |detected| && detected[i]) ==> |detected| == |t|
  }

  /** The time of the first detected record, if any record is detected. */
  function DetectionTime(t: seq<real>, detected: seq<bool>): (r: Option<real>)
    requires MaskFits(t, detected)
    ensures r.None? <==> forall i :: 0 <= i < |detected| ==> !detected[i]
    ensures r.Some? ==> exists j :: 0 <= j < |detected| && detected[j] && (forall i :: 0 <= i < j ==> !detected[i]) &&
                                    j < |t| && r.value == t[j]
  {
    match FirstTrue(detected)
    case None => None
    case Some(j) => Some(t[j])
  }

  /**
   * Count of records flagged inside the keep-out zone times the first time
   * step, or zero when the history has fewer than two records.
   */
  function TimeInside(t: seq<real>, inside: seq<bool>): (r: real)
    ensures |t| <= 1 ==> r == 0.0
    ensures (forall i :: 0 <= i < |inside| ==> !inside[i]) ==> r == 0.0
    ensures |t| > 1 && t[0] < t[1] ==> (r > 0.0 <==> exists i :: 0 <= i < |inside| && inside[i])
    ensures |t| > 1 && t[0] < t[1] ==> r <= Time(|inside|, t[1] - t[0])
  {
    if |t| > 1 then
      var c := CountTrue(inside);
      TimeBounds(c, |inside|, t[1] - t[0]);
      Time(c, t[1] - t[0])
    else 0.0
  }

  /**
   * No steps take no time; with a positive step, `c` steps take no longer
   * than `bound` steps, and a positive time exactly when `c > 0`.
   */
  lemma TimeBounds(c: nat, bound: nat, step: real)
    requires c <= bound
    ensures c == 0 ==> Time(c, step) == 0.0
    ensures step > 0.0 ==> Time(c, step) <= Time(bound, step)
    ensures step > 0.0 ==> (Time(c, step) > 0.0 <==> c > 0)
  {
    if step > 0.0 {
      MulNonpositive(c as real - bound as real, step);
      if c > 0 {
        assert c as real * step > 0.0 * step;
      }
    }
  }

  /**
   * The outcome label, the first of these that applies: detected and never
   * inside; inside for a while and Blue spent delta-v; inside for a while;
   * otherwise no encounter.
   */
  function Outcome(detectionTime: Option<real>, timeInside: real, blueTotal: real): (r: string)
    ensures r == Maintained || r == Recovered || r == ViolatedNoDodge || r == NoEncounter
    ensures r == Maintained <==> detectionTime.Some? && timeInside == 0.0
    ensures r == Recovered <==> timeInside > 0.0 && blueTotal > 0.0
    ensures r == ViolatedNoDodge <==> timeInside > 0.0 && blueTotal <= 0.0
    ensures r == NoEncounter <==> timeInside <= 0.0 && !(detectionTime.Some? && timeInside == 0.0)
  {
    if detectionTime.Some? && timeInside == 0.0 then Maintained
    else if timeInside > 0.0 && blueTotal > 0.0 then Recovered
    else if timeInside > 0.0 then ViolatedNoDodge
    else NoEncounter
  }

  /**
   * score_run.  The radii are parameters of the source function that it
   * does not use.  The closest approach is the minimum of the range series,
   * which must not be empty.
   */
  function ScoreRun(h: History, detectRKm: real, kozRKm: real): (s: Score)
    requires |h.rangeM| > 0
    requires MaskFits(h.t, h.detected)
    ensures s.detectionTime.None? <==> forall i :: 0 <= i < |h.detected| ==> !h.detected[i]
    ensures s.detectionTime.Some? ==>
              exists j :: 0 <= j < |h.detected| && h.detected[j] && (forall i :: 0 <= i < j ==> !h.detected[i]) &&
                          j < |h.t| && s.detectionTime.value == h.t[j]
    ensures forall i :: 0 <= i < |h.rangeM| ==> s.closestApproach <= h.rangeM[i]
    ensures exists i :: 0 <= i < |h.rangeM| && s.closestApproach == h.rangeM[i]
    ensures s.timeInsideKeepout == TimeInside(h.t, h.insideKoz)
    ensures s.blueTotalDv == Sum(h.blueDv) && s.threatTotalDv == Sum(h.threatDv)
    ensures s.outcome == Outcome(s.detectionTime, s.timeInsideKeepout, s.blueTotalDv)
  {
    var detection := DetectionTime(h.t, h.detected);
    var inside := TimeInside(h.t, h.insideKoz);
    var blueTotal := Sum(h.blueDv);
    Score(detection, MinOf(h.rangeM), inside, blueTotal, Sum(h.threatDv), Outcome(detection, inside, blueTotal))
  }

  /** The threat's delta-v is reported but never affects the outcome. */
  lemma OutcomeIgnoresThreatTotal(h: History, threatDv: seq<real>, detectRKm: real, kozRKm: real)
    requires |h.rangeM| > 0 && MaskFits(h.t, h.detected)
    ensures ScoreRun(h.(threatDv := threatDv), detectRKm, kozRKm).outcome == ScoreRun(h, detectRKm, kozRKm).outcome
  {
  }

  /** A history never detected and never inside scores no detection, no time inside and "No encounter". */
  lemma QuietRunScore(h: History, detectRKm: real, kozRKm: real)
    requires |h.rangeM| > 0
    requires forall i :: 0 <= i < |h.detected| ==> !h.detected[i]
    requires forall i :: 0 <= i < |h.insideKoz| ==> !h.insideKoz[i]
    ensures ScoreRun(h, detectRKm, kozRKm).detectionTime == None
    ensures ScoreRun(h, detectRKm, kozRKm).timeInsideKeepout == 0.0
    ensures ScoreRun(h, detectRKm, kozRKm).outcome == NoEncounter
  {
  }

  // ---------------------------------------------------------------------
  // Scoring a simulated run
  // ---------------------------------------------------------------------

  /** The score of the history a run returns, with the run's own radii. */
  function RunScore(sc: Scenario, pp: PolicyParams, noise: nat -> Vec3, norm: Vec3 -> real): Score
    requires NormNonnegative(norm)
  {
    HistoryLength(sc, pp, noise, norm);
    ScoreRun(Simulate(sc, pp, noise, norm), sc.detectRKm, sc.kozRKm)
  }

  /** Index `j` holds the first range within `bound` (inclusive). */
  predicate FirstWithin(rangeM: seq<real>, j: int, bound: real)
  {
    0 <= j < |rangeM| && rangeM[j] <= bound && forall i :: 0 <= i < j ==> rangeM[i] > bound
  }

  /**
   * A run's detection time is the time stamp `j * dt` of the first pass
   * whose pre-step range is within the detection radius, and there is none
   * exactly when no pass comes that close.
   */
  lemma RunDetectionTime(sc: Scenario, pp: PolicyParams, noise: nat -> Vec3, norm: Vec3 -> real)
    requires NormNonnegative(norm)
    ensures RunScore(sc, pp, noise, norm).detectionTime.None? <==>
              forall i :: 0 <= i < sc.steps + 1 ==> Simulate(sc, pp, noise, norm).rangeM[i] > DetectRM(sc)
    ensures RunScore(sc, pp, noise, norm).detectionTime.Some? ==>
              exists j :: FirstWithin(Simulate(sc, pp, noise, norm).rangeM, j, DetectRM(sc)) &&
                          RunScore(sc, pp, noise, norm).detectionTime.value == Time(j, sc.dt)
  {
    var h := Simulate(sc, pp, noise, norm);
    var bound := DetectRM(sc);
    HistoryLength(sc, pp, noise, norm);
    DetectionLatch(sc, pp, noise, norm, sc.steps + 1);
    TimeStamps(sc, pp, noise, norm, sc.steps + 1);
    var s := RunScore(sc, pp, noise, norm);
    if s.detectionTime.None? {
      forall i | 0 <= i < sc.steps + 1
        ensures h.rangeM[i] > bound
      {
        assert !h.detected[i];
      }
    } else {
      var j :| 0 <= j < |h.detected| && h.detected[j] && (forall i :: 0 <= i < j ==> !h.detected[i]) &&
               j < |h.t| && s.detectionTime.value == h.t[j];
      forall i | 0 <= i < j
        ensures h.rangeM[i] > bound
      {
        assert !h.detected[i];
      }
      assert ReachedWithin(h.rangeM, j + 1, bound);
      var w :| 0 <= w < j + 1 && h.rangeM[w] <= bound;
      assert w == j;
      assert FirstWithin(h.rangeM, j, bound);
    }
  }

  /**
   * Blue's reported total is its dodge delta-v times `dt` if it dodged and
   * zero otherwise; the threat's is its running total times `dt`.
   */
  lemma RunTotals(sc: Scenario, pp: PolicyParams, noise: nat -> Vec3, norm: Vec3 -> real)
    requires NormNonnegative(norm)
    ensures RunScore(sc, pp, noise, norm).blueTotalDv
         == if Run(sc, pp, noise, norm).blue.didDodge then Impulse(pp.dodgeDv, sc.dt) else 0.0
    ensures RunScore(sc, pp, noise, norm).threatTotalDv == Impulse(Run(sc, pp, noise, norm).threat.totalDv, sc.dt)
  {
    BlueFuel(sc, pp, noise, norm, sc.steps + 1);
    ThreatFuelSum(sc, pp, noise, norm, sc.steps + 1);
  }

  /**
   * With a positive step, the time inside is `dt` per record flagged inside
   * the keep-out zone; a run of a single pass always reports zero.
   */
  lemma RunTimeInside(sc: Scenario, pp: PolicyParams, noise: nat -> Vec3, norm: Vec3 -> real)
    requires NormNonnegative(norm)
    ensures sc.steps == 0 ==> RunScore(sc, pp, noise, norm).timeInsideKeepout == 0.0
    ensures sc.steps > 0 ==>
              RunScore(sc, pp, noise, norm).timeInsideKeepout == Time(CountTrue(Simulate(sc, pp, noise, norm).insideKoz), sc.dt)
  {
    HistoryLength(sc, pp, noise, norm);
    TimeStamps(sc, pp, noise, norm, sc.steps + 1);
    var h := Simulate(sc, pp, noise, norm);
    assert RunScore(sc, pp, noise, norm).timeInsideKeepout == TimeInside(h.t, h.insideKoz);
    if sc.steps > 0 {
      assert h.t[0] == Time(0, sc.dt) && h.t[1] == Time(1, sc.dt);
      assert h.t[1] - h.t[0] == sc.dt;
    }
  }

  /**
   * A run in which Blue dodged, with a positive step and a positive dodge
   * delta-v over more than one pass, is scored "KOZ violated briefly; Blue
   * recovered with dodge": a dodge only happens inside the keep-out zone.
   */
  lemma DodgedRunRecovered(sc: Scenario, pp: PolicyParams, noise: nat -> Vec3, norm: Vec3 -> real)
    requires NormNonnegative(norm)
    requires sc.dt > 0.0 && sc.steps > 0 && pp.dodgeDv > 0.0
    requires Run(sc, pp, noise, norm).blue.didDodge
    ensures RunScore(sc, pp, noise, norm).timeInsideKeepout > 0.0
    ensures RunScore(sc, pp, noise, norm).outcome == Recovered
  {
    HistoryLength(sc, pp, noise, norm);
    TimeStamps(sc, pp, noise, norm, sc.steps + 1);
    DodgeInsideKeepOut(sc, pp, noise, norm, sc.steps + 1);
    RunTotals(sc, pp, noise, norm);
    var h := Simulate(sc, pp, noise, norm);
    assert h.t[0] < h.t[1] by {
      assert h.t[1] - h.t[0] == sc.dt;
    }
    assert Impulse(pp.dodgeDv, sc.dt) > 0.0 by {
      MulNonpositive(-pp.dodgeDv, sc.dt);
      assert pp.dodgeDv * sc.dt != 0.0;
    }
  }
}
