/**
 * The fixed-count step loop of `simulate_relative_motion`: a pure
 * specification (`Step`, `Iterate`) of what each pass computes, the
 * imperative loop proved equal to it, and the bookkeeping properties of the
 * history it builds.
 */
module Simulation {
  import opened Vectors
  import opened Dynamics
  import opened Policies
  import opened Series

  /** A defender event: the step's time and the tag its command returned. */
  datatype Event = Event(t: real, event: string)

  /**
   * The history: one series per key of the source's history dictionary,
   * plus the two event logs.
   */
  datatype History = History(
    t: seq<real>,
    x: seq<Vec3>,
    v: seq<Vec3>,
    rangeM: seq<real>,
    closingSpeed: seq<real>,
    detected: seq<bool>,
    insideKoz: seq<bool>,
    blueDv: seq<real>,
    threatDv: seq<real>,
    blueEvents: seq<Event>,
    threatEvents: seq<Event>)

  const EmptyHistory: History := History([], [], [], [], [], [], [], [], [], [], [])

  /** Every per-step series holds `len` entries. */
  predicate SeriesLength(h: History, len: nat)
  {
    |h.t| == len && |h.x| == len && |h.v| == len && |h.rangeM| == len && |h.closingSpeed| == len &&
    |h.detected| == len && |h.insideKoz| == len && |h.blueDv| == len && |h.threatDv| == len
  }

  /**
   * Inputs of one run other than the policy objects: mean motion, initial
   * state, step count, step length, the two radii in km and the standard
   * deviation of the process noise.
   */
  datatype Scenario = Scenario(n: real, x0: State, steps: nat, dt: real, detectRKm: real, kozRKm: real,
                               noiseStd: real)

  /** The policies' constructor parameters, which `reset` leaves alone. */
  datatype PolicyParams = PolicyParams(desired: real, dvRateLimit: real, blueKind: DefenderKind, dodgeDv: real)

  /**
   * Everything the loop carries from one pass to the next: the state, the
   * detection latch, how often the defender's hook has been called, both
   * policies' mutable fields and the history so far.
   */
  datatype Sim = Sim(state: State, detected: bool, hookCalls: nat, threat: ThreatState, blue: DefenderState,
                     hist: History)

  function DetectRM(sc: Scenario): real { sc.detectRKm * 1000.0 }

  function KozRM(sc: Scenario): real { sc.kozRKm * 1000.0 }

  /**
   * Rate at which the range shrinks: positive exactly when the velocity
   * points against the position (closing), zero exactly when it is
   * orthogonal to it.
   */
  function ClosingSpeed(s: State, rng: real): (c: real)
    requires rng >= 0.0
    ensures c > 0.0 <==> Dot(s.r, s.v) < 0.0
    ensures c == 0.0 <==> Dot(s.r, s.v) == 0.0
  {
    var q := Dot(s.r, s.v) / (rng + Eps);
    QuotientSign(Dot(s.r, s.v), rng + Eps);
    assert q * (rng + Eps) == Dot(s.r, s.v);
    -q
  }

  /** Threat's command minus Blue's, plus the step's noise draw when the noise is switched on. */
  function NetAccel(sc: Scenario, noise: nat -> Vec3, k: nat, aThreat: Vec3, aBlue: Vec3): Vec3
  {
    var a := Sub(aThreat, aBlue);
    if sc.noiseStd > 0.0 then Add(a, noise(k)) else a
  }

  /** The loop's state after both policies have been reset. */
  function Initial(sc: Scenario): Sim
  {
    Sim(sc.x0, false, 0, ThreatInitial, DefenderInitial, EmptyHistory)
  }

  /** The time of pass `k`. */
  function Time(k: nat, dt: real): real
  {
    k as real * dt
  }

  /** The delta-v of one step burnt at `rate`. */
  function Impulse(rate: real, dt: real): real
  {
    rate * dt
  }

  lemma ImpulseAdds(a: real, b: real, dt: real)
    ensures Impulse(a + b, dt) == Impulse(a, dt) + Impulse(b, dt)
  {
  }

  lemma ImpulseBounds(rate: real, limit: real, dt: real)
    requires 0.0 <= rate <= limit && dt >= 0.0
    ensures 0.0 <= Impulse(rate, dt) <= Impulse(limit, dt)
  {
    MulNonpositive(-rate, dt);
    MulNonpositive(rate - limit, dt);
  }

  /** The loop's state after its first `k` passes; every series then holds `k` entries. */
  function Iterate(sc: Scenario, pp: PolicyParams, noise: nat -> Vec3, norm: Vec3 -> real, k: nat): (sim: Sim)
    requires NormNonnegative(norm)
    ensures SeriesLength(sim.hist, k)
    ensures sim.hist.threatEvents == []
    decreases k, 0
  {
    if k == 0 then Initial(sc) else Step(sc, pp, noise, norm, k - 1)
  }

  /** Pass `k` of the loop, from the state the first `k` passes leave. */
  function Step(sc: Scenario, pp: PolicyParams, noise: nat -> Vec3, norm: Vec3 -> real, k: nat): (next: Sim)
    requires NormNonnegative(norm)
    ensures SeriesLength(next.hist, k + 1)
    ensures next.hist.threatEvents == []
    decreases k, 1
  {
    Advance(sc, pp, noise, norm, k, Iterate(sc, pp, noise, norm, k))
  }

  /**
   * Pass `k` of the loop from the carried state `sim`: observe, latch
   * detection, query both policies, log Blue's event, integrate and append
   * one record to every series.
   */
  function Advance(sc: Scenario, pp: PolicyParams, noise: nat -> Vec3, norm: Vec3 -> real, k: nat, sim: Sim): Sim
    requires NormNonnegative(norm)
  {
    var t := Time(k, sc.dt);
    var rng := norm(sim.state.r);
    var closing := ClosingSpeed(sim.state, rng);
    var hook := !sim.detected && rng <= DetectRM(sc);
    var detected := sim.detected || hook;
    var th := ThreatCommand(pp.desired, pp.dvRateLimit, sim.threat, sim.state, rng, closing);
    var bl := DefenderCommand(pp.blueKind, pp.dodgeDv, sim.blue, sim.state, rng, closing, KozRM(sc), norm);
    var h := sim.hist;
    var blueEvents := if bl.event.Some? then h.blueEvents + [Event(t, bl.event.value)] else h.blueEvents;
    var next := EulerStep(sc.n, sim.state, NetAccel(sc, noise, k, th.accel, bl.accel), sc.dt);
    Sim(next, detected, if hook then sim.hookCalls + 1 else sim.hookCalls, th.next, bl.next,
        History(h.t + [t], h.x + [next.r], h.v + [next.v], h.rangeM + [rng], h.closingSpeed + [closing],
                h.detected + [detected], h.insideKoz + [rng < KozRM(sc)],
                h.blueDv + [Impulse(bl.next.dvRateLast, sc.dt)], h.threatDv + [Impulse(th.next.dvRateLast, sc.dt)],
                blueEvents, h.threatEvents))
  }

  /** The first `k + 1` passes are pass `k` after the first `k`. */
  lemma IterateUnfolds(sc: Scenario, pp: PolicyParams, noise: nat -> Vec3, norm: Vec3 -> real, k: nat)
    requires NormNonnegative(norm)
    ensures Iterate(sc, pp, noise, norm, k + 1) == Advance(sc, pp, noise, norm, k, Iterate(sc, pp, noise, norm, k))
  {
    assert Iterate(sc, pp, noise, norm, k + 1) == Step(sc, pp, noise, norm, k);
  }

  /** A whole run: `steps + 1` passes. */
  function Run(sc: Scenario, pp: PolicyParams, noise: nat -> Vec3, norm: Vec3 -> real): Sim
    requires NormNonnegative(norm)
  {
    Iterate(sc, pp, noise, norm, sc.steps + 1)
  }

  /** The history a run returns. */
  function Simulate(sc: Scenario, pp: PolicyParams, noise: nat -> Vec3, norm: Vec3 -> real): History
    requires NormNonnegative(norm)
  {
    Run(sc, pp, noise, norm).hist
  }

  // ---------------------------------------------------------------------
  // Properties of the history
  // ---------------------------------------------------------------------

  /** Every series of a run has exactly `steps + 1` entries, and the threat event log stays empty. */
  lemma HistoryLength(sc: Scenario, pp: PolicyParams, noise: nat -> Vec3, norm: Vec3 -> real)
    requires NormNonnegative(norm)
    ensures SeriesLength(Simulate(sc, pp, noise, norm), sc.steps + 1)
    ensures Simulate(sc, pp, noise, norm).threatEvents == []
  {
  }

  /** The time stamp at index `j` is `j * dt`. */
  predicate StampedEvery(t: seq<real>, dt: real)
  {
    forall j :: 0 <= j < |t| ==> t[j] == Time(j, dt)
  }

  lemma {:induction false} TimeStamps(sc: Scenario, pp: PolicyParams, noise: nat -> Vec3, norm: Vec3 -> real, k: nat)
    requires NormNonnegative(norm)
    ensures StampedEvery(Iterate(sc, pp, noise, norm, k).hist.t, sc.dt)
  {
    if k > 0 {
      TimeStamps(sc, pp, noise, norm, k - 1);
      IterateUnfolds(sc, pp, noise, norm, k - 1);
    }
  }

  /** Each flag says whether the range at the same index is strictly below `bound`. */
  predicate FlagsBelow(flags: seq<bool>, rangeM: seq<real>, bound: real)
  {
    forall j :: 0 <= j < |flags| && j < |rangeM| ==> (flags[j] <==> rangeM[j] < bound)
  }

  /** The keep-out flag is the strict test `range < keep-out radius` on the range recorded with it. */
  lemma {:induction false} KeepOutFlagIsStrict(sc: Scenario, pp: PolicyParams, noise: nat -> Vec3,
                                               norm: Vec3 -> real, k: nat)
    requires NormNonnegative(norm)
    ensures FlagsBelow(Iterate(sc, pp, noise, norm, k).hist.insideKoz, Iterate(sc, pp, noise, norm, k).hist.rangeM,
                       KozRM(sc))
  {
    if k > 0 {
      KeepOutFlagIsStrict(sc, pp, noise, norm, k - 1);
      IterateUnfolds(sc, pp, noise, norm, k - 1);
    }
  }

  /** Some range among the first `len` entries is within `bound` (inclusive). */
  ghost predicate ReachedWithin(rangeM: seq<real>, len: nat, bound: real)
    requires len <= |rangeM|
  {
    exists i :: 0 <= i < len && rangeM[i] <= bound
  }

  /** Each flag says whether some range up to and including its index was within `bound`. */
  ghost predicate LatchedOn(flags: seq<bool>, rangeM: seq<real>, bound: real)
  {
    |flags| <= |rangeM| && forall j :: 0 <= j < |flags| ==> (flags[j] <==> ReachedWithin(rangeM, j + 1, bound))
  }

  /** The ranges of a shorter run are a prefix of those of a longer one, so `ReachedWithin` agrees on it. */
  lemma ReachedWithinPrefix(rangeM: seq<real>, longer: seq<real>, len: nat, bound: real)
    requires len <= |rangeM| <= |longer| && longer[..|rangeM|] == rangeM
    ensures ReachedWithin(longer, len, bound) == ReachedWithin(rangeM, len, bound)
  {
    if ReachedWithin(longer, len, bound) {
      var i :| 0 <= i < len && longer[i] <= bound;
      assert rangeM[i] == longer[i];
    }
  }

  /** Extending the window by one entry adds that entry's test. */
  lemma ReachedWithinExtend(rangeM: seq<real>, len: nat, bound: real)
    requires len < |rangeM|
    ensures ReachedWithin(rangeM, len + 1, bound) <==> ReachedWithin(rangeM, len, bound) || rangeM[len] <= bound
  {
    if ReachedWithin(rangeM, len + 1, bound) && rangeM[len] > bound {
      var i :| 0 <= i < len + 1 && rangeM[i] <= bound;
      assert i < len;
    }
  }

  /**
   * Detection is a latch on the inclusive test `range <= detection radius`:
   * the flag recorded at index `j` is true exactly when some range up to and
   * including `j` was within the radius, and the defender's hook has been
   * called once if the latch is set and never otherwise.
   */
  lemma {:induction false} DetectionLatch(sc: Scenario, pp: PolicyParams, noise: nat -> Vec3,
                                          norm: Vec3 -> real, k: nat)
    requires NormNonnegative(norm)
    ensures LatchedOn(Iterate(sc, pp, noise, norm, k).hist.detected, Iterate(sc, pp, noise, norm, k).hist.rangeM,
                      DetectRM(sc))
    ensures Iterate(sc, pp, noise, norm, k).detected
        <==> ReachedWithin(Iterate(sc, pp, noise, norm, k).hist.rangeM, k, DetectRM(sc))
    ensures Iterate(sc, pp, noise, norm, k).hookCalls == if Iterate(sc, pp, noise, norm, k).detected then 1 else 0
  {
    if k > 0 {
      DetectionLatch(sc, pp, noise, norm, k - 1);
      IterateUnfolds(sc, pp, noise, norm, k - 1);
      var before := Iterate(sc, pp, noise, norm, k - 1);
      LatchExtends(before.hist.detected, before.hist.rangeM, before.detected, norm(before.state.r), DetectRM(sc));
    }
  }

  /** Appending one range and the updated latch keeps the history `LatchedOn`. */
  lemma LatchExtends(flags: seq<bool>, rangeM: seq<real>, latch: bool, rng: real, bound: real)
    requires |flags| == |rangeM|
    requires LatchedOn(flags, rangeM, bound)
    requires latch <==> ReachedWithin(rangeM, |rangeM|, bound)
    ensures LatchedOn(flags + [latch || rng <= bound], rangeM + [rng], bound)
    ensures latch || rng <= bound <==> ReachedWithin(rangeM + [rng], |rangeM| + 1, bound)
  {
    var longer, flags' := rangeM + [rng], flags + [latch || rng <= bound];
    assert longer[..|rangeM|] == rangeM;
    ReachedWithinPrefix(rangeM, longer, |rangeM|, bound);
    ReachedWithinExtend(longer, |rangeM|, bound);
    forall j | 0 <= j < |flags|
      ensures flags'[j] <==> ReachedWithin(longer, j + 1, bound)
    {
      ReachedWithinPrefix(rangeM, longer, j + 1, bound);
    }
  }

  /** Once the detection flag is set it stays set at every later index. */
  lemma DetectedIsMonotone(sc: Scenario, pp: PolicyParams, noise: nat -> Vec3, norm: Vec3 -> real,
                           k: nat, i: nat, j: nat)
    requires NormNonnegative(norm)
    requires i <= j < k
    ensures Iterate(sc, pp, noise, norm, k).hist.detected[i] ==> Iterate(sc, pp, noise, norm, k).hist.detected[j]
  {
    DetectionLatch(sc, pp, noise, norm, k);
    var h := Iterate(sc, pp, noise, norm, k).hist;
    if h.detected[i] {
      var w :| 0 <= w < i + 1 && h.rangeM[w] <= DetectRM(sc);
      assert 0 <= w < j + 1;
    }
  }

  /** Record `j` holds the position and velocity after pass `j`. */
  lemma {:induction false} RecordsPostStep(sc: Scenario, pp: PolicyParams, noise: nat -> Vec3,
                              norm: Vec3 -> real, k: nat, j: nat)
    requires NormNonnegative(norm)
    requires j < k
    ensures Iterate(sc, pp, noise, norm, k).hist.x[j] == Iterate(sc, pp, noise, norm, j + 1).state.r
    ensures Iterate(sc, pp, noise, norm, k).hist.v[j] == Iterate(sc, pp, noise, norm, j + 1).state.v
  {
    IterateUnfolds(sc, pp, noise, norm, k - 1);
    if j < k - 1 {
      RecordsPostStep(sc, pp, noise, norm, k - 1, j);
    }
  }

  /** Record `j` holds the range and closing speed observed before pass `j`. */
  lemma {:induction false} RecordsPreStep(sc: Scenario, pp: PolicyParams, noise: nat -> Vec3,
                              norm: Vec3 -> real, k: nat, j: nat)
    requires NormNonnegative(norm)
    requires j < k
    ensures Iterate(sc, pp, noise, norm, k).hist.rangeM[j] == norm(Iterate(sc, pp, noise, norm, j).state.r)
    ensures Iterate(sc, pp, noise, norm, k).hist.closingSpeed[j]
         == ClosingSpeed(Iterate(sc, pp, noise, norm, j).state, norm(Iterate(sc, pp, noise, norm, j).state.r))
  {
    IterateUnfolds(sc, pp, noise, norm, k - 1);
    if j < k - 1 {
      RecordsPreStep(sc, pp, noise, norm, k - 1, j);
    }
  }

  /** Each side's delta-v at record `j` is that policy's last rate after pass `j`, times `dt`. */
  lemma {:induction false} RecordsDeltaV(sc: Scenario, pp: PolicyParams, noise: nat -> Vec3,
                              norm: Vec3 -> real, k: nat, j: nat)
    requires NormNonnegative(norm)
    requires j < k
    ensures Iterate(sc, pp, noise, norm, k).hist.blueDv[j]
         == Impulse(Iterate(sc, pp, noise, norm, j + 1).blue.dvRateLast, sc.dt)
    ensures Iterate(sc, pp, noise, norm, k).hist.threatDv[j]
         == Impulse(Iterate(sc, pp, noise, norm, j + 1).threat.dvRateLast, sc.dt)
  {
    IterateUnfolds(sc, pp, noise, norm, k - 1);
    if j < k - 1 {
      RecordsDeltaV(sc, pp, noise, norm, k - 1, j);
    }
  }

  /** Every entry lies in `[lo, hi]`. */
  predicate Within(s: seq<real>, lo: real, hi: real)
  {
    forall j :: 0 <= j < |s| ==> lo <= s[j] <= hi
  }

  /** Every per-step entry of Threat's delta-v lies in `[0, limit * dt]`. */
  lemma {:induction false} ThreatFuelBounds(sc: Scenario, pp: PolicyParams, noise: nat -> Vec3, norm: Vec3 -> real,
                                            k: nat)
    requires NormNonnegative(norm)
    requires sc.dt >= 0.0 && pp.dvRateLimit >= 0.0
    ensures Within(Iterate(sc, pp, noise, norm, k).hist.threatDv, 0.0, Impulse(pp.dvRateLimit, sc.dt))
  {
    if k > 0 {
      ThreatFuelBounds(sc, pp, noise, norm, k - 1);
      IterateUnfolds(sc, pp, noise, norm, k - 1);
      var prev := Iterate(sc, pp, noise, norm, k - 1);
      var sim := Iterate(sc, pp, noise, norm, k);
      var rate := sim.threat.dvRateLast;
      assert sim.hist.threatDv == prev.hist.threatDv + [Impulse(rate, sc.dt)];
      ImpulseBounds(rate, pp.dvRateLimit, sc.dt);
    }
  }

  /** Threat's delta-v series sums to the policy's running total times `dt`. */
  lemma {:induction false} ThreatFuelSum(sc: Scenario, pp: PolicyParams, noise: nat -> Vec3, norm: Vec3 -> real, k: nat)
    requires NormNonnegative(norm)
    ensures Sum(Iterate(sc, pp, noise, norm, k).hist.threatDv) == Impulse(Iterate(sc, pp, noise, norm, k).threat.totalDv, sc.dt)
  {
    if k > 0 {
      ThreatFuelSum(sc, pp, noise, norm, k - 1);
      IterateUnfolds(sc, pp, noise, norm, k - 1);
      var prev := Iterate(sc, pp, noise, norm, k - 1);
      var sim := Iterate(sc, pp, noise, norm, k);
      var rate := sim.threat.dvRateLast;
      assert sim.hist.threatDv == prev.hist.threatDv + [Impulse(rate, sc.dt)];
      SumAppend(prev.hist.threatDv, Impulse(rate, sc.dt));
      ImpulseAdds(prev.threat.totalDv, rate, sc.dt);
    }
  }

  /**
   * The defender dodged at pass `j0`: exactly one event is logged, stamped
   * with that pass's time and carrying `tag`, and the delta-v series is `dv`
   * there and zero everywhere else.
   */
  predicate DodgedAt(h: History, j0: int, dv: real, tag: string)
  {
    0 <= j0 < |h.t| && |h.blueEvents| == 1 && h.blueEvents[0] == Event(h.t[j0], tag) && Spike(h.blueDv, j0, dv)
  }

  /** Until Blue dodges, no event is logged and every per-step delta-v of Blue is zero. */
  lemma {:induction false} BeforeDodge(sc: Scenario, pp: PolicyParams, noise: nat -> Vec3, norm: Vec3 -> real, k: nat)
    requires NormNonnegative(norm)
    ensures !Iterate(sc, pp, noise, norm, k).blue.didDodge ==>
              Iterate(sc, pp, noise, norm, k).hist.blueEvents == [] && AllZero(Iterate(sc, pp, noise, norm, k).hist.blueDv)
  {
    if k > 0 {
      BeforeDodge(sc, pp, noise, norm, k - 1);
      IterateUnfolds(sc, pp, noise, norm, k - 1);
      var prev := Iterate(sc, pp, noise, norm, k - 1);
      var sim := Iterate(sc, pp, noise, norm, k);
      assert sim.hist.blueDv == prev.hist.blueDv + [Impulse(sim.blue.dvRateLast, sc.dt)];
    }
  }

  /**
   * The defender dodges at most once per run: once it has dodged, the
   * history is `DodgedAt` the pass that dodged, with the tag of Blue's kind
   * for the position it dodged from.
   */
  lemma {:induction false} SingleDodge(sc: Scenario, pp: PolicyParams, noise: nat -> Vec3, norm: Vec3 -> real, k: nat)
    requires NormNonnegative(norm)
    ensures Iterate(sc, pp, noise, norm, k).blue.didDodge ==>
              exists j0: nat :: DodgedAt(Iterate(sc, pp, noise, norm, k).hist, j0, Impulse(pp.dodgeDv, sc.dt),
                                         DefenderTag(pp.blueKind, Iterate(sc, pp, noise, norm, j0).state.r))
  {
    if k > 0 {
      SingleDodge(sc, pp, noise, norm, k - 1);
      BeforeDodge(sc, pp, noise, norm, k - 1);
      IterateUnfolds(sc, pp, noise, norm, k - 1);
      var prev := Iterate(sc, pp, noise, norm, k - 1);
      var sim := Iterate(sc, pp, noise, norm, k);
      var h := sim.hist;
      var dv := Impulse(pp.dodgeDv, sc.dt);
      assert h.blueDv == prev.hist.blueDv + [Impulse(sim.blue.dvRateLast, sc.dt)];
      if prev.blue.didDodge {
        var j0: nat :| DodgedAt(prev.hist, j0, dv, DefenderTag(pp.blueKind, Iterate(sc, pp, noise, norm, j0).state.r));
        var tag := DefenderTag(pp.blueKind, Iterate(sc, pp, noise, norm, j0).state.r);
        assert sim.blue.dvRateLast == 0.0;
        assert h.t[j0] == prev.hist.t[j0];
        assert DodgedAt(h, j0, dv, tag);
      } else if sim.blue.didDodge {
        assert sim.blue.dvRateLast == pp.dodgeDv;
        var tag := DefenderTag(pp.blueKind, prev.state.r);
        assert h.blueEvents[0] == Event(h.t[k - 1], tag);
        assert DodgedAt(h, k - 1, dv, tag);
      }
    }
  }

  /** Blue's total delta-v over a run is `dodgeDv * dt` if it dodged and zero otherwise. */
  lemma BlueFuel(sc: Scenario, pp: PolicyParams, noise: nat -> Vec3, norm: Vec3 -> real, k: nat)
    requires NormNonnegative(norm)
    ensures Sum(Iterate(sc, pp, noise, norm, k).hist.blueDv)
         == if Iterate(sc, pp, noise, norm, k).blue.didDodge then Impulse(pp.dodgeDv, sc.dt) else 0.0
  {
    SingleDodge(sc, pp, noise, norm, k);
    BeforeDodge(sc, pp, noise, norm, k);
    var sim := Iterate(sc, pp, noise, norm, k);
    if sim.blue.didDodge {
      var j0: nat :| DodgedAt(sim.hist, j0, Impulse(pp.dodgeDv, sc.dt),
                              DefenderTag(pp.blueKind, Iterate(sc, pp, noise, norm, j0).state.r));
      SumOfSpike(sim.hist.blueDv, j0, Impulse(pp.dodgeDv, sc.dt));
    } else {
      SumOfZeros(sim.hist.blueDv);
    }
  }

  /** Blue only dodges from inside the keep-out zone, so a run in which it dodged has a record flagged inside. */
  lemma {:induction false} DodgeInsideKeepOut(sc: Scenario, pp: PolicyParams, noise: nat -> Vec3, norm: Vec3 -> real,
                                              k: nat)
    requires NormNonnegative(norm)
    ensures Iterate(sc, pp, noise, norm, k).blue.didDodge ==>
              exists j :: 0 <= j < k && Iterate(sc, pp, noise, norm, k).hist.insideKoz[j]
  {
    if k > 0 {
      DodgeInsideKeepOut(sc, pp, noise, norm, k - 1);
      IterateUnfolds(sc, pp, noise, norm, k - 1);
      var prev := Iterate(sc, pp, noise, norm, k - 1);
      var sim := Iterate(sc, pp, noise, norm, k);
      assert sim.hist.insideKoz == prev.hist.insideKoz + [norm(prev.state.r) < KozRM(sc)];
      if prev.blue.didDodge {
        var j :| 0 <= j < k - 1 && prev.hist.insideKoz[j];
        assert sim.hist.insideKoz[j];
      } else if sim.blue.didDodge {
        assert sim.hist.insideKoz[k - 1];
      }
    }
  }

  /** When the detection radius is at least the keep-out radius, every record inside the keep-out zone is detected. */
  lemma DetectionPrecedesKeepOut(sc: Scenario, pp: PolicyParams, noise: nat -> Vec3, norm: Vec3 -> real, k: nat,
                                 j: nat)
    requires NormNonnegative(norm)
    requires sc.kozRKm <= sc.detectRKm
    requires j < k && Iterate(sc, pp, noise, norm, k).hist.insideKoz[j]
    ensures Iterate(sc, pp, noise, norm, k).hist.detected[j]
  {
    KeepOutFlagIsStrict(sc, pp, noise, norm, k);
    DetectionLatch(sc, pp, noise, norm, k);
    var h := Iterate(sc, pp, noise, norm, k).hist;
    assert h.rangeM[j] <= DetectRM(sc);
    assert ReachedWithin(h.rangeM, j + 1, DetectRM(sc));
  }

  /** With the process noise switched off, a run does not depend on the noise draws: it is deterministic. */
  lemma {:induction false} NoiseFreeRunIsDeterministic(sc: Scenario, pp: PolicyParams, noise1: nat -> Vec3,
                                                       noise2: nat -> Vec3, norm: Vec3 -> real, k: nat)
    requires NormNonnegative(norm)
    requires sc.noiseStd <= 0.0
    ensures Iterate(sc, pp, noise1, norm, k) == Iterate(sc, pp, noise2, norm, k)
  {
    if k > 0 {
      NoiseFreeRunIsDeterministic(sc, pp, noise1, noise2, norm, k - 1);
      IterateUnfolds(sc, pp, noise1, norm, k - 1);
      IterateUnfolds(sc, pp, noise2, norm, k - 1);
    }
  }

  // ---------------------------------------------------------------------
  // The loop itself
  // ---------------------------------------------------------------------

  /**
   * One pass of the loop body: observe, latch detection (calling the
   * defender's hook on the first detection), query both policies, log
   * Blue's event, integrate and append one record to every series.  The
   * carried variables and both policies' fields end as `Advance` says.
   */
  method Pass(sc: Scenario, pp: PolicyParams, noise: nat -> Vec3, norm: Vec3 -> real, k: nat,
              threat: ThreatApproach, blue: Defender, state: State, detected: bool, ghost hookCalls: nat,
              hist: History)
    returns (state': State, detected': bool, ghost hookCalls': nat, hist': History)
    requires NormNonnegative(norm)
    requires pp == PolicyParams(threat.desired, threat.dvRateLimit, blue.Kind(), blue.DodgeDv())
    modifies threat, blue.Footprint()
    ensures Sim(state', detected', hookCalls', threat.Abstract(), blue.Abstract(), hist')
         == Advance(sc, pp, noise, norm, k, Sim(state, detected, hookCalls, old(threat.Abstract()), old(blue.Abstract()), hist))
  {
    ghost var before := Sim(state, detected, hookCalls, threat.Abstract(), blue.Abstract(), hist);
    var t := Time(k, sc.dt);
    var rng := norm(state.r);
    var closing := ClosingSpeed(state, rng);

    detected', hookCalls' := detected, hookCalls;
    if !detected && rng <= DetectRM(sc) {
      detected' := true;
      blue.OnDetect(t, state);
      hookCalls' := hookCalls + 1;
    }

    var aThreat := threat.Command(t, state, sc.n, rng, closing);
    ghost var th := ThreatCommand(pp.desired, pp.dvRateLimit, before.threat, state, rng, closing);
    assert aThreat == th.accel && threat.Abstract() == th.next;
    var aBlue, blueEvent := blue.Command(t, state, sc.n, rng, closing, KozRM(sc), norm);
    ghost var bl := DefenderCommand(pp.blueKind, pp.dodgeDv, before.blue, state, rng, closing, KozRM(sc), norm);
    assert aBlue == bl.accel && blueEvent == bl.event && blue.Abstract() == bl.next;
    assert threat.Abstract() == th.next;

    hist' := hist;
    if blueEvent.Some? {
      hist' := hist'.(blueEvents := hist'.blueEvents + [Event(t, blueEvent.value)]);
    }

    var aNet := Sub(aThreat, aBlue);
    if sc.noiseStd > 0.0 {
      aNet := Add(aNet, noise(k));
    }
    state' := EulerStep(sc.n, state, aNet, sc.dt);

    hist' := hist'.(t := hist'.t + [t], x := hist'.x + [state'.r], v := hist'.v + [state'.v],
                    rangeM := hist'.rangeM + [rng], closingSpeed := hist'.closingSpeed + [closing],
                    detected := hist'.detected + [detected'], insideKoz := hist'.insideKoz + [rng < KozRM(sc)]);
    hist' := hist'.(blueDv := hist'.blueDv + [Impulse(blue.Abstract().dvRateLast, sc.dt)],
                    threatDv := hist'.threatDv + [Impulse(threat.dvRateLast, sc.dt)]);
  }

  /**
   * simulate_relative_motion: resets both policies, then runs `steps + 1`
   * passes of the loop body.  The result and both policies' final fields
   * are those of the pure specification; `hookCalls` counts the calls of
   * the defender's detection hook.
   */
  method SimulateRelativeMotion(n: real, x0: State, steps: nat, dt: real, detectRKm: real, kozRKm: real,
                                threat: ThreatApproach, blue: Defender, noiseStd: real := 0.0, noise: nat -> Vec3,
                                norm: Vec3 -> real)
    returns (hist: History, ghost hookCalls: nat)
    requires NormNonnegative(norm)
    modifies threat, blue.Footprint()
    ensures hist == Simulate(Scenario(n, x0, steps, dt, detectRKm, kozRKm, noiseStd),
                             PolicyParams(threat.desired, threat.dvRateLimit, blue.Kind(), blue.DodgeDv()), noise, norm)
    ensures hookCalls == Run(Scenario(n, x0, steps, dt, detectRKm, kozRKm, noiseStd),
                             PolicyParams(threat.desired, threat.dvRateLimit, blue.Kind(), blue.DodgeDv()), noise,
                             norm).hookCalls
    ensures threat.Abstract() == Run(Scenario(n, x0, steps, dt, detectRKm, kozRKm, noiseStd),
                                     PolicyParams(threat.desired, threat.dvRateLimit, blue.Kind(), blue.DodgeDv()),
                                     noise, norm).threat
    ensures blue.Abstract() == Run(Scenario(n, x0, steps, dt, detectRKm, kozRKm, noiseStd),
                                   PolicyParams(threat.desired, threat.dvRateLimit, blue.Kind(), blue.DodgeDv()),
                                   noise, norm).blue
  {
    var sc := Scenario(n, x0, steps, dt, detectRKm, kozRKm, noiseStd);
    var pp := PolicyParams(threat.desired, threat.dvRateLimit, blue.Kind(), blue.DodgeDv());
    hist := EmptyHistory;
    var state := x0;

    blue.Reset();
    threat.Reset();

    var detected := false;
    hookCalls := 0;

    for k := 0 to steps + 1
      invariant Sim(state, detected, hookCalls, threat.Abstract(), blue.Abstract(), hist)
             == Iterate(sc, pp, noise, norm, k)
    {
      state, detected, hookCalls, hist := Pass(sc, pp, noise, norm, k, threat, blue, state, detected, hookCalls, hist);
      IterateUnfolds(sc, pp, noise, norm, k);
    }
  }
}
