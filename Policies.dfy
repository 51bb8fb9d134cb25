/**
 * Manoeuvre policies of the two sides.  Each policy is a small object whose
 * fields (`dvRateLast`, `totalDv`, `didDodge`) its `Reset` and `Command`
 * overwrite; each `Command` is proved against a pure function of the old
 * state and the step's observations, and the properties of the policies are
 * lemmas about those functions.
 */
module Policies {
  import opened Vectors
  import opened Optional

  /** Guard added to the denominators of the line-of-sight and dodge normalisations (1e-9). */
  const Eps: real := 0.000000001
  /** Norm below which crossing with the cross-track axis counts as degenerate (1e-6). */
  const Degenerate: real := 0.000001

  const DodgeTag: string := "DODGE"
  const LeftTag: string := "AI_DODGE_LEFT"
  const RightTag: string := "AI_DODGE_RIGHT"

  function Abs(c: real): (r: real)
    ensures r >= 0.0 && (r == c || r == -c)
  {
    if c < 0.0 then -c else c
  }

  /** numpy's `clip(c, lo, hi)`, that is `min(max(c, lo), hi)`; it yields `hi` when `lo > hi`. */
  function Clip(c: real, lo: real, hi: real): (r: real)
    ensures lo <= hi ==> lo <= r <= hi
    ensures lo <= c <= hi ==> r == c
    ensures lo <= hi && c < lo ==> r == lo
    ensures c > hi ==> r == hi
    ensures hi < lo ==> r == hi
  {
    var m := if c < lo then lo else c;
    if m > hi then hi else m
  }

  // ---------------------------------------------------------------------
  // ThreatApproach
  // ---------------------------------------------------------------------

  /** The mutable part of a ThreatApproach policy. */
  datatype ThreatState = ThreatState(dvRateLast: real, totalDv: real)

  datatype ThreatOutput = ThreatOutput(accel: Vec3, next: ThreatState)

  const ThreatInitial: ThreatState := ThreatState(0.0, 0.0)

  /** Signed acceleration magnitude: the closing-speed error clamped to the rate limit. */
  function ThreatMagnitude(desired: real, limit: real, closing: real): (m: real)
    ensures limit >= 0.0 ==> -limit <= m <= limit
    ensures -limit <= desired - closing <= limit ==> m == desired - closing
  {
    Clip(desired - closing, -limit, limit)
  }

  /**
   * One command of the approaching side: no burn inside 1 m, otherwise a burn
   * of the clamped magnitude against the unit line of sight; the magnitude is
   * recorded as the last rate and added to the running total.
   */
  function ThreatCommand(desired: real, limit: real, st: ThreatState, s: State, rng: real, closing: real): (o: ThreatOutput)
    ensures o.next.dvRateLast >= 0.0
    ensures limit >= 0.0 ==> o.next.dvRateLast <= limit
    ensures o.next.totalDv == st.totalDv + o.next.dvRateLast
    ensures rng < 1.0 ==> o.accel == Zero && o.next.dvRateLast == 0.0
    ensures rng >= 1.0 ==> o.next.dvRateLast == Abs(ThreatMagnitude(desired, limit, closing))
  {
    if rng < 1.0 then
      ThreatOutput(Zero, st.(dvRateLast := 0.0))
    else
      var losHat := Div(s.r, rng);
      var mag := ThreatMagnitude(desired, limit, closing);
      ThreatOutput(Scale(-mag, losHat), ThreatState(Abs(mag), st.totalDv + Abs(mag)))
  }

  /**
   * The burn rate follows the closing-speed error inside the limit and
   * saturates at the limit outside it.
   */
  lemma ThreatRateClamped(desired: real, limit: real, st: ThreatState, s: State, rng: real, closing: real)
    requires rng >= 1.0 && limit >= 0.0
    ensures var rate := ThreatCommand(desired, limit, st, s, rng, closing).next.dvRateLast;
            var err := desired - closing;
            (-limit <= err <= limit ==> rate == Abs(err)) &&
            (err > limit || err < -limit ==> rate == limit)
  {
  }

  /**
   * The burn lies on the line of sight: it is a multiple of the position,
   * points towards Blue when the threat closes too slowly (positive
   * magnitude) and away from Blue when it closes too fast.
   */
  lemma ThreatBurnsAlongLineOfSight(desired: real, limit: real, st: ThreatState, s: State, rng: real, closing: real)
    requires rng >= 1.0
    ensures var a := ThreatCommand(desired, limit, st, s, rng, closing).accel;
            var mag := ThreatMagnitude(desired, limit, closing);
            a == Scale(-mag / rng, s.r) &&
            Cross(a, s.r) == Zero &&
            (mag >= 0.0 ==> Dot(a, s.r) <= 0.0) &&
            (mag <= 0.0 ==> Dot(a, s.r) >= 0.0)
  {
    var mag := ThreatMagnitude(desired, limit, closing);
    var c := -mag / rng;
    var r := s.r;
    ScaleDiv(-mag, r, rng);
    CrossScaleSelf(c, r);
    DotScale(c, r, r);
    NormSqNonnegative(r);
    QuotientSign(-mag, rng);
    if mag >= 0.0 {
      MulNonpositive(c, NormSq(r));
    }
    if mag <= 0.0 {
      MulNonpositive(-c, NormSq(r));
    }
  }

  // ---------------------------------------------------------------------
  // KeepOutPolicy and LLMHeuristicPolicy (the defending side)
  // ---------------------------------------------------------------------

  /** The mutable part of a defender policy. */
  datatype DefenderState = DefenderState(didDodge: bool, dvRateLast: real)

  datatype DefenderOutput = DefenderOutput(accel: Vec3, event: Option<string>, next: DefenderState)

  const DefenderInitial: DefenderState := DefenderState(false, 0.0)

  /** The two defender variants. */
  datatype DefenderKind = KeepOut | Heuristic

  /** Inside the keep-out radius (strictly), closing, and no dodge yet. */
  predicate DodgeTrigger(st: DefenderState, rng: real, closing: real, kozRM: real)
  {
    !st.didDodge && rng < kozRM && closing > 0.0
  }

  /**
   * The line of sight crossed with the cross-track axis, or with the
   * along-track axis when that cross product is too short.
   */
  function DodgeBasis(r: Vec3, norm: Vec3 -> real): (b: Vec3)
    requires NormNonnegative(norm)
    ensures Dot(b, r) == 0.0
  {
    var den := norm(r) + Eps;
    var los := Div(r, den);
    var basis := Cross(los, UnitZ);
    var b := if norm(basis) < Degenerate then Cross(los, UnitY) else basis;
    assert Dot(b, r) == 0.0 by {
      var e := if norm(basis) < Degenerate then UnitY else UnitZ;
      assert b == Cross(los, e);
      CrossIsPerpendicular(los, e);
      assert r == Scale(den, los);
      DotScale(den, b, los);
    }
    b
  }

  /** The normalised dodge basis, scaled by the policy's side sign `side`. */
  function DodgeDirection(r: Vec3, side: real, norm: Vec3 -> real): (d: Vec3)
    requires NormNonnegative(norm)
    ensures Dot(d, r) == 0.0
  {
    var b := DodgeBasis(r, norm);
    var den := norm(b) + Eps;
    var d := Div(Scale(side, b), den);
    assert Dot(d, r) == 0.0 by {
      assert d == Scale(side / den, b);
      DotScale(side / den, b, r);
    }
    d
  }

  /** KeepOutPolicy.command: the single perpendicular dodge, tagged "DODGE". */
  function KeepOutCommand(dodgeDv: real, st: DefenderState, s: State, rng: real, closing: real, kozRM: real,
                          norm: Vec3 -> real): (o: DefenderOutput)
    requires NormNonnegative(norm)
    ensures o.event.Some? <==> DodgeTrigger(st, rng, closing, kozRM)
    ensures o.event.Some? ==> o.event.value == DodgeTag
    ensures o.next.didDodge == (st.didDodge || DodgeTrigger(st, rng, closing, kozRM))
    ensures o.next.dvRateLast == if DodgeTrigger(st, rng, closing, kozRM) then dodgeDv else 0.0
    ensures !DodgeTrigger(st, rng, closing, kozRM) ==> o.accel == Zero
    ensures Dot(o.accel, s.r) == 0.0
  {
    if DodgeTrigger(st, rng, closing, kozRM) then
      var a := Scale(dodgeDv, DodgeDirection(s.r, 1.0, norm));
      DotScale(dodgeDv, DodgeDirection(s.r, 1.0, norm), s.r);
      DefenderOutput(a, Some(DodgeTag), DefenderState(true, dodgeDv))
    else
      DefenderOutput(Zero, None, DefenderState(st.didDodge, 0.0))
  }

  /** The side LLMHeuristicPolicy steers to: -1 when the along-track coordinate is positive, else +1. */
  function DodgeSide(r: Vec3): (side: real)
    ensures side == -1.0 || side == 1.0
    ensures side < 0.0 <==> r.y > 0.0
  {
    if r.y > 0.0 then -1.0 else 1.0
  }

  /** LLMHeuristicPolicy.command: the same trigger and latch, a signed direction and a directional tag. */
  function HeuristicCommand(dodgeDv: real, st: DefenderState, s: State, rng: real, closing: real, kozRM: real,
                            norm: Vec3 -> real): (o: DefenderOutput)
    requires NormNonnegative(norm)
    ensures o.event.Some? <==> DodgeTrigger(st, rng, closing, kozRM)
    ensures o.event.Some? ==> o.event.value == if s.r.y > 0.0 then LeftTag else RightTag
    ensures o.next.didDodge == (st.didDodge || DodgeTrigger(st, rng, closing, kozRM))
    ensures o.next.dvRateLast == if DodgeTrigger(st, rng, closing, kozRM) then dodgeDv else 0.0
    ensures !DodgeTrigger(st, rng, closing, kozRM) ==> o.accel == Zero
    ensures Dot(o.accel, s.r) == 0.0
  {
    if DodgeTrigger(st, rng, closing, kozRM) then
      var side := DodgeSide(s.r);
      var a := Scale(dodgeDv, DodgeDirection(s.r, side, norm));
      DotScale(dodgeDv, DodgeDirection(s.r, side, norm), s.r);
      DefenderOutput(a, Some(if side < 0.0 then LeftTag else RightTag), DefenderState(true, dodgeDv))
    else
      DefenderOutput(Zero, None, DefenderState(st.didDodge, 0.0))
  }

  /**
   * The tag a defender of kind `kind` logs when it dodges from position `r`:
   * "DODGE" for KeepOutPolicy, and for LLMHeuristicPolicy "AI_DODGE_LEFT"
   * when the along-track coordinate is positive and "AI_DODGE_RIGHT"
   * otherwise.
   */
  function DefenderTag(kind: DefenderKind, r: Vec3): (tag: string)
    ensures |tag| > 0
  {
    match kind
    case KeepOut => DodgeTag
    case Heuristic => if r.y > 0.0 then LeftTag else RightTag
  }

  /** The command of either defender variant. */
  function DefenderCommand(kind: DefenderKind, dodgeDv: real, st: DefenderState, s: State, rng: real,
                           closing: real, kozRM: real, norm: Vec3 -> real): (o: DefenderOutput)
    requires NormNonnegative(norm)
    ensures o.event.Some? <==> DodgeTrigger(st, rng, closing, kozRM)
    ensures o.event.Some? ==> o.event.value == DefenderTag(kind, s.r)
    ensures o.next.didDodge == (st.didDodge || DodgeTrigger(st, rng, closing, kozRM))
    ensures o.next.dvRateLast == if DodgeTrigger(st, rng, closing, kozRM) then dodgeDv else 0.0
    ensures Dot(o.accel, s.r) == 0.0
  {
    match kind
    case KeepOut => KeepOutCommand(dodgeDv, st, s, rng, closing, kozRM, norm)
    case Heuristic => HeuristicCommand(dodgeDv, st, s, rng, closing, kozRM, norm)
  }

  /**
   * Once a defender has dodged, every later command (until a reset) is the
   * zero acceleration with no event and a zero rate: at most one dodge.
   */
  lemma DodgeLatched(kind: DefenderKind, dodgeDv: real, st: DefenderState, s: State, rng: real, closing: real,
                     kozRM: real, norm: Vec3 -> real)
    requires NormNonnegative(norm) && st.didDodge
    ensures DefenderCommand(kind, dodgeDv, st, s, rng, closing, kozRM, norm)
         == DefenderOutput(Zero, None, DefenderState(true, 0.0))
  {
  }

  /**
   * LLMHeuristicPolicy is KeepOutPolicy with a side: the same new state and
   * trigger, the KeepOutPolicy acceleration times the side, and the tag
   * "AI_DODGE_LEFT" exactly when it fires with a positive along-track
   * coordinate.
   */
  lemma HeuristicMirrorsKeepOut(dodgeDv: real, st: DefenderState, s: State, rng: real,
                                closing: real, kozRM: real, norm: Vec3 -> real)
    requires NormNonnegative(norm)
    ensures var h := HeuristicCommand(dodgeDv, st, s, rng, closing, kozRM, norm);
            var k := KeepOutCommand(dodgeDv, st, s, rng, closing, kozRM, norm);
            h.next == k.next && h.event.Some? == k.event.Some? &&
            h.accel == Scale(DodgeSide(s.r), k.accel) &&
            (h.event == Some(LeftTag) <==> k.event.Some? && s.r.y > 0.0) &&
            (h.event == Some(RightTag) <==> k.event.Some? && s.r.y <= 0.0)
  {
    var side := DodgeSide(s.r);
    if DodgeTrigger(st, rng, closing, kozRM) {
      var kd := DodgeDirection(s.r, 1.0, norm);
      DodgeDirectionSigned(s.r, side, norm);
      ScaleCommutes(dodgeDv, side, kd);
      assert LeftTag != RightTag;
    } else {
      assert Scale(side, Zero) == Zero;
    }
  }

  /** The signed dodge direction is the side times the unsigned one. */
  lemma DodgeDirectionSigned(r: Vec3, side: real, norm: Vec3 -> real)
    requires NormNonnegative(norm)
    ensures DodgeDirection(r, side, norm) == Scale(side, DodgeDirection(r, 1.0, norm))
  {
    var b := DodgeBasis(r, norm);
    var den := norm(b) + Eps;
    DivOfScale(side, b, den);
    DivOfScale(1.0, b, den);
    assert Scale(1.0, Div(b, den)) == Div(b, den);
  }

  // ---------------------------------------------------------------------
  // The policy objects
  // ---------------------------------------------------------------------

  /** Threat tries to reach a desired closing speed by burning along the line of sight. */
  class ThreatApproach {
    const desired: real
    const dvRateLimit: real
    var dvRateLast: real
    var totalDv: real

    constructor (desiredVClose: real := 0.1, rateLimit: real := 0.05)
      ensures desired == desiredVClose && dvRateLimit == rateLimit
      ensures Abstract() == ThreatInitial
    {
      desired := desiredVClose;
      dvRateLimit := rateLimit;
      dvRateLast := 0.0;
      totalDv := 0.0;
    }

    function Abstract(): ThreatState
      reads this
    {
      ThreatState(dvRateLast, totalDv)
    }

    method Reset()
      modifies this
      ensures Abstract() == ThreatInitial
    {
      dvRateLast := 0.0;
      totalDv := 0.0;
    }

    method Command(t: real, s: State, n: real, rng: real, closing: real) returns (a: Vec3)
      modifies this
      ensures ThreatOutput(a, Abstract()) == ThreatCommand(desired, dvRateLimit, old(Abstract()), s, rng, closing)
      ensures totalDv >= old(totalDv)
    {
      var r := s.r;
      if rng < 1.0 {
        dvRateLast := 0.0;
        return Zero;
      }
      var losHat := Div(r, rng);
      var err := desired - closing;
      var accelMag := Clip(err, -dvRateLimit, dvRateLimit);
      a := Scale(-accelMag, losHat);
      dvRateLast := Abs(accelMag);
      totalDv := totalDv + Abs(accelMag);
    }
  }

  /** Blue executes a single perpendicular dodge when inside the keep-out radius and closing. */
  class KeepOutPolicy {
    const dodgeDv: real
    var didDodge: bool
    var dvRateLast: real

    constructor (dodge: real := 0.1)
      ensures dodgeDv == dodge && Abstract() == DefenderInitial
    {
      dodgeDv := dodge;
      didDodge := false;
      dvRateLast := 0.0;
    }

    function Abstract(): DefenderState
      reads this
    {
      DefenderState(didDodge, dvRateLast)
    }

    method Reset()
      modifies this
      ensures Abstract() == DefenderInitial
    {
      didDodge := false;
      dvRateLast := 0.0;
    }

    /** Hook called when the threat is first detected; it changes nothing. */
    method OnDetect(t: real, s: State)
    {
    }

    method Command(t: real, s: State, n: real, rng: real, closing: real, kozRM: real, norm: Vec3 -> real)
      returns (a: Vec3, event: Option<string>)
      requires NormNonnegative(norm)
      modifies this
      ensures DefenderOutput(a, event, Abstract()) == KeepOutCommand(dodgeDv, old(Abstract()), s, rng, closing, kozRM, norm)
    {
      dvRateLast := 0.0;
      if !didDodge && rng < kozRM && closing > 0.0 {
        var r := s.r;
        var los := Div(r, norm(r) + Eps);
        var basis := Cross(los, UnitZ);
        if norm(basis) < Degenerate {
          basis := Cross(los, UnitY);
        }
        var dodgeDir := Div(basis, norm(basis) + Eps);
        a := Scale(dodgeDv, dodgeDir);
        didDodge := true;
        dvRateLast := dodgeDv;
        assert dodgeDir == DodgeDirection(r, 1.0, norm);
        return a, Some(DodgeTag);
      }
      return Zero, None;
    }
  }

  /** KeepOutPolicy whose dodge side and tag come from the sign of the along-track coordinate. */
  class LLMHeuristicPolicy {
    const dodgeDv: real
    var didDodge: bool
    var dvRateLast: real

    constructor (dodge: real := 0.1)
      ensures dodgeDv == dodge && Abstract() == DefenderInitial
    {
      dodgeDv := dodge;
      didDodge := false;
      dvRateLast := 0.0;
    }

    function Abstract(): DefenderState
      reads this
    {
      DefenderState(didDodge, dvRateLast)
    }

    method Reset()
      modifies this
      ensures Abstract() == DefenderInitial
    {
      didDodge := false;
      dvRateLast := 0.0;
    }

    /** Hook called when the threat is first detected; it changes nothing. */
    method OnDetect(t: real, s: State)
    {
    }

    method Command(t: real, s: State, n: real, rng: real, closing: real, kozRM: real, norm: Vec3 -> real)
      returns (a: Vec3, event: Option<string>)
      requires NormNonnegative(norm)
      modifies this
      ensures DefenderOutput(a, event, Abstract()) == HeuristicCommand(dodgeDv, old(Abstract()), s, rng, closing, kozRM, norm)
    {
      dvRateLast := 0.0;
      if !didDodge && rng < kozRM && closing > 0.0 {
        var r := s.r;
        var los := Div(r, norm(r) + Eps);
        var side := if r.y > 0.0 then -1.0 else 1.0;
        var basis := Cross(los, UnitZ);
        if norm(basis) < Degenerate {
          basis := Cross(los, UnitY);
        }
        var dodgeDir := Div(Scale(side, basis), norm(basis) + Eps);
        a := Scale(dodgeDv, dodgeDir);
        didDodge := true;
        dvRateLast := dodgeDv;
        assert dodgeDir == DodgeDirection(r, side, norm);
        event := Some(if side < 0.0 then LeftTag else RightTag);
        return;
      }
      return Zero, None;
    }
  }

  /** The defending policy of a run: either variant, dispatched by case. */
  datatype Defender = KeepOutBlue(keepOut: KeepOutPolicy) | HeuristicBlue(heuristic: LLMHeuristicPolicy)
  {
    function Kind(): DefenderKind
    {
      match this
      case KeepOutBlue(_) => KeepOut
      case HeuristicBlue(_) => Heuristic
    }

    function DodgeDv(): real
    {
      match this
      case KeepOutBlue(p) => p.dodgeDv
      case HeuristicBlue(p) => p.dodgeDv
    }

    function Footprint(): set<object>
    {
      match this
      case KeepOutBlue(p) => {p}
      case HeuristicBlue(p) => {p}
    }

    function Abstract(): DefenderState
      reads Footprint()
    {
      match this
      case KeepOutBlue(p) => p.Abstract()
      case HeuristicBlue(p) => p.Abstract()
    }

    method Reset()
      modifies Footprint()
      ensures Abstract() == DefenderInitial
    {
      match this
      case KeepOutBlue(p) => p.Reset();
      case HeuristicBlue(p) => p.Reset();
    }

    method OnDetect(t: real, s: State)
    {
      match this
      case KeepOutBlue(p) => p.OnDetect(t, s);
      case HeuristicBlue(p) => p.OnDetect(t, s);
    }

    method Command(t: real, s: State, n: real, rng: real, closing: real, kozRM: real, norm: Vec3 -> real)
      returns (a: Vec3, event: Option<string>)
      requires NormNonnegative(norm)
      modifies Footprint()
      ensures DefenderOutput(a, event, Abstract())
           == DefenderCommand(Kind(), DodgeDv(), old(Abstract()), s, rng, closing, kozRM, norm)
    {
      match this
      case KeepOutBlue(p) =>
        a, event := p.Command(t, s, n, rng, closing, kozRM, norm);
      case HeuristicBlue(p) =>
        a, event := p.Command(t, s, n, rng, closing, kozRM, norm);
    }
  }
}
