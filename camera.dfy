/**
  The camera controller of the zoom block at the end of `animate`.  Two
  independent flags drive it, not a three-state machine: while
  `approaching` is set the camera moves 3% of the remaining way to the
  approach target each frame; otherwise, while `zoomingOut` is set, it
  moves 5% of the way to the overview position.  A flag clears on the
  frame whose step ends less than one unit from its target (compared as a
  squared distance below 1).
 */
module Camera {
  import opened Vectors

  /** The overview pose: the camera's start position and the zoom-out target. */
  const Overview: Vec3 := Vec3(-175.0, 115.0, 5.0)

  const ApproachFactor: real := 0.03
  const ZoomOutFactor: real := 0.05

  /** What one frame leaves of the squared distance: (1 - 0.03)^2 and (1 - 0.05)^2. */
  const ApproachShrink: real := 0.9409
  const ZoomOutShrink: real := 0.9025

  /**
    `camera.position`, `targetCameraPosition`, `isMovingTowardsPlanet`
    and `isZoomingOut`.
   */
  datatype Nav = Nav(position: Vec3, target: Vec3, approaching: bool, zoomingOut: bool)

  /** The state after a frame, and whether this frame completed an approach. */
  datatype Move = Move(nav: Nav, arrived: bool)

  function Step(n: Nav): (m: Move)
    ensures m.nav.target == n.target
    ensures m.arrived <==> n.approaching && !m.nav.approaching
    ensures m.nav.approaching ==> n.approaching
    ensures m.nav.zoomingOut ==> n.zoomingOut
    ensures !n.approaching && !n.zoomingOut ==> m.nav == n
  {
    if n.approaching then
      var p := Lerp(n.position, n.target, ApproachFactor);
      if DistSq(p, n.target) < 1.0 then Move(n.(position := p, approaching := false), true)
      else Move(n.(position := p), false)
    else if n.zoomingOut then
      var p := Lerp(n.position, Overview, ZoomOutFactor);
      Move(n.(position := p, zoomingOut := !(DistSq(p, Overview) < 1.0)), false)
    else
      Move(n, false)
  }

  /**
    While approaching, the remaining displacement is multiplied by 0.97, the
    squared distance by 0.9409 (so it never grows), a pending zoom-out is
    kept, and the approach ends exactly when the new distance is below 1.
   */
  lemma StepApproaching(n: Nav)
    requires n.approaching
    ensures var m := Step(n);
      && Sub(n.target, m.nav.position) == Scale(Sub(n.target, n.position), 0.97)
      && DistSq(m.nav.position, n.target) == ApproachShrink * DistSq(n.position, n.target)
      && DistSq(m.nav.position, n.target) <= DistSq(n.position, n.target)
      && m.nav.zoomingOut == n.zoomingOut
      && (m.arrived <==> DistSq(m.nav.position, n.target) < 1.0)
      && (m.nav.approaching <==> !m.arrived)
  {
    LerpDistSq(n.position, n.target, ApproachFactor);
    ShrinkingFactor(ApproachShrink, DistSq(n.position, n.target));
  }

  /**
    Without an approach, a zoom-out multiplies the displacement from the
    overview position by 0.95 and ends exactly when the new distance is below 1.
   */
  lemma StepZoomingOut(n: Nav)
    requires !n.approaching && n.zoomingOut
    ensures var m := Step(n);
      && Sub(Overview, m.nav.position) == Scale(Sub(Overview, n.position), 0.95)
      && DistSq(m.nav.position, Overview) == ZoomOutShrink * DistSq(n.position, Overview)
      && DistSq(m.nav.position, Overview) <= DistSq(n.position, Overview)
      && !m.nav.approaching && !m.arrived
      && (m.nav.zoomingOut <==> 1.0 <= DistSq(m.nav.position, Overview))
  {
    LerpDistSq(n.position, Overview, ZoomOutFactor);
    ShrinkingFactor(ZoomOutShrink, DistSq(n.position, Overview));
  }

  /** `k` consecutive frames. */
  function Run(n: Nav, k: nat): Nav
    decreases k
  {
    if k == 0 then n else Run(Step(n).nav, k - 1)
  }

  lemma {:induction false} RunKeepsTarget(n: Nav, k: nat)
    ensures Run(n, k).target == n.target
    decreases k
  {
    if k > 0 {
      RunKeepsTarget(Step(n).nav, k - 1);
    }
  }

  /** No frame starts an approach or a zoom-out: only a click or a close does. */
  lemma {:induction false} RunNeverRestarts(n: Nav, k: nat)
    ensures Run(n, k).approaching ==> n.approaching
    ensures Run(n, k).zoomingOut ==> n.zoomingOut
    decreases k
  {
    if k > 0 {
      RunNeverRestarts(Step(n).nav, k - 1);
    }
  }

  /**
    While an approach lasts, after `k` frames the squared distance is the
    initial one multiplied `k` times by 0.9409, and it is still at least 1.
   */
  lemma {:induction false} ApproachProgress(n: Nav, k: nat)
    requires n.approaching
    ensures Run(n, k).approaching ==>
      DistSq(Run(n, k).position, n.target) == Decay(DistSq(n.position, n.target), ApproachShrink, k)
    ensures Run(n, k).approaching && k > 0 ==> 1.0 <= DistSq(Run(n, k).position, n.target)
    decreases k
  {
    if k > 0 {
      var m := Step(n).nav;
      assert Run(n, k) == Run(m, k - 1);
      StepApproaching(n);
      if m.approaching {
        ApproachProgress(m, k - 1);
      } else {
        RunNeverRestarts(m, k - 1);
      }
    }
  }

  /** The same for a zoom-out, with the factor 0.9025. */
  lemma {:induction false} ZoomOutProgress(n: Nav, k: nat)
    requires !n.approaching && n.zoomingOut
    ensures Run(n, k).zoomingOut ==>
      DistSq(Run(n, k).position, Overview) == Decay(DistSq(n.position, Overview), ZoomOutShrink, k)
    ensures Run(n, k).zoomingOut && k > 0 ==> 1.0 <= DistSq(Run(n, k).position, Overview)
    decreases k
  {
    if k > 0 {
      var m := Step(n).nav;
      assert Run(n, k) == Run(m, k - 1);
      StepZoomingOut(n);
      if m.zoomingOut {
        ZoomOutProgress(m, k - 1);
      } else {
        RunNeverRestarts(m, k - 1);
      }
    }
  }

  /** Twelve approach frames at least halve the squared distance. */
  lemma ApproachHalves()
    ensures Pow(ApproachShrink, 12) * 2.0 <= 1.0
  {
    var s := ApproachShrink;
    assert Pow(s, 2) == s * s;
    assert Pow(s, 4) == s * (s * Pow(s, 2));
    assert Pow(s, 6) == s * (s * Pow(s, 4));
    assert Pow(s, 8) == s * (s * Pow(s, 6));
    assert Pow(s, 10) == s * (s * Pow(s, 8));
    assert Pow(s, 12) == s * (s * Pow(s, 10));
  }

  /** Seven zoom-out frames at least halve the squared distance. */
  lemma ZoomOutHalves()
    ensures Pow(ZoomOutShrink, 7) * 2.0 <= 1.0
  {
    var s := ZoomOutShrink;
    assert Pow(s, 2) == s * s;
    assert Pow(s, 4) == s * (s * Pow(s, 2));
    assert Pow(s, 6) == s * (s * Pow(s, 4));
    assert Pow(s, 7) == s * Pow(s, 6);
  }

  /**
    An approach from squared distance below `2^m` is over after `12 * m + 1`
    frames: twelve frames at least halve the squared distance.
   */
  lemma ApproachEnds(n: Nav, m: nat)
    requires n.approaching
    requires DistSq(n.position, n.target) < Pow(2.0, m)
    ensures !Run(n, 12 * m + 1).approaching
  {
    var d := DistSq(n.position, n.target);
    ApproachProgress(n, 12 * m + 1);
    ApproachHalves();
    DecayHalvings(d, ApproachShrink, 12, m);
    DecayAdd(d, ApproachShrink, 12 * m, 1);
  }

  /**
    A zoom-out from squared distance below `2^m` is over after `7 * m + 1`
    frames: seven frames at least halve the squared distance.
   */
  lemma ZoomOutEnds(n: Nav, m: nat)
    requires !n.approaching && n.zoomingOut
    requires DistSq(n.position, Overview) < Pow(2.0, m)
    ensures !Run(n, 7 * m + 1).zoomingOut
  {
    var d := DistSq(n.position, Overview);
    ZoomOutProgress(n, 7 * m + 1);
    ZoomOutHalves();
    DecayHalvings(d, ZoomOutShrink, 7, m);
    DecayAdd(d, ZoomOutShrink, 7 * m, 1);
  }
}
