/**
  What the application's handlers do together, stated on the
  specification functions of `Scene`: what `reset` restores and what it
  leaves alone, the three outcomes of a click, the two ways of closing the
  info panel, the frame's pause gate and angle advance, the life of an
  approach, and how the control panel and the asteroid loader keep (or
  break) the agreement between the settings and the scene.
 */
module Properties {
  import opened Optional
  import opened Vectors
  import opened Bodies
  import opened Config
  import opened Camera
  import opened Asteroids
  import opened Scene

  // ---------------------------------------------------------------- reset

  /**
    `reset` puts every knob back to its declared value, the camera at the
    overview pose and the controls' target at the origin; a second
    `reset` changes nothing more.
   */
  lemma ResetRestores(s: AppState)
    ensures var r := ResetState(s);
      && r.settings == Defaults && InRange(r.settings)
      && r.nav.position == Overview && r.controls.target == Origin
      && r.lights == Lights(1200.0, 6.0, 5.0, true)
      && r.bloom.enabled && r.outline.enabled
      && ResetState(r) == r
  {
    AssignKeepsInRange(Defaults, Time(Pause(false)));
  }

  /**
    `reset` leaves the camera-mode flags, the approach target, the
    selection, the panel, the bodies (orbit lines and wireframe included),
    the asteroids and every live value it does not re-read as they were.
   */
  lemma ResetLeavesTheRest(s: AppState)
    ensures var r := ResetState(s);
      && r.nav == s.nav.(position := Overview)
      && r.controls == s.controls.(target := Origin)
      && r.bloom == s.bloom.(enabled := true)
      && r.outline == s.outline.(enabled := true)
      && r.planets == s.planets && r.asteroids == s.asteroids
      && r.selected == s.selected && r.offset == s.offset && r.panel == s.panel
      && r.sunSpin == s.sunSpin && r.looping == s.looping
  {
  }

  /** The knobs whose live objects `reset` does not re-read already hold their declared values. */
  predicate UnsyncedKnobsAtDefault(v: SettingsValues, hasAsteroids: bool) {
    && v.camera == Defaults.camera
    && v.effects.bloomThreshold == Defaults.effects.bloomThreshold
    && v.effects.bloomRadius == Defaults.effects.bloomRadius
    && v.effects.bloomStrength == Defaults.effects.bloomStrength
    && v.effects.outlineStrength == Defaults.effects.outlineStrength
    && v.display.showOrbits == Defaults.display.showOrbits
    && v.display.wireframe == Defaults.display.wireframe
    && (hasAsteroids ==> v.display.showAsteroids == Defaults.display.showAsteroids)
  }

  /**
    `reset` re-reads only the lights, the shadow map and the two passes'
    `enabled` flags.  From a scene that agrees with its settings, the scene
    still agrees with the restored settings exactly when every other knob
    was already at its declared value: after moving, say, the wireframe
    knob, `reset` shows "off" while the planets stay in wireframe.
   */
  lemma ResetKeepsSyncOnlyAtDefaults(s: AppState)
    requires WellFormed(s) && Synced(s)
    ensures Synced(ResetState(s)) <==> UnsyncedKnobsAtDefault(s.settings, |s.asteroids| > 0)
  {
    var r := ResetState(s);
    var v := s.settings;
    if Synced(r) {
      assert r.planets[0] == s.planets[0];
      if |s.asteroids| > 0 {
        assert r.asteroids[0] == s.asteroids[0];
      }
      assert 0.75 / v.camera.cameraSpeed == 0.75 / 1.0;
      assert v.camera.cameraSpeed == 1.0;
    }
  }

  // ---------------------------------------------------------------- clicks

  /** A click that hits nothing changes nothing. */
  lemma ClickOnNothing(s: AppState, planetPosition: Vec3, len: real)
    requires IsDistance(s, planetPosition, len)
    ensures MouseDownState(s, None, planetPosition, len) == s
  {
  }

  /**
    A hit `identifyPlanet` does not recognise (the bare Venus or Earth
    mesh, inside its atmosphere) clears the selection and nothing else.
   */
  lemma ClickOnBareMesh(s: AppState, h: Surface, planetPosition: Vec3, len: real)
    requires IsDistance(s, planetPosition, len) && !Recognised(h)
    ensures h == PlanetMesh(Venus) || h == PlanetMesh(Earth)
    ensures MouseDownState(s, Some(h), planetPosition, len) == s.(selected := None)
  {
  }

  /**
    A click on a recognised surface selects its body and stores that
    body's camera distance, hides the panel, leaves `accelerationOrbit` at
    0 (set to 1 by `closeInfoNoZoomOut`, then to 0) and every other knob as
    it was, aims the controls at the body and starts an approach without
    moving the camera or touching a zoom-out.  The approach target lies
    the stored distance from the body when the camera is not at the body.
   */
  lemma ClickOnBody(s: AppState, h: Surface, planetPosition: Vec3, len: real)
    requires IsDistance(s, planetPosition, len) && Recognised(h)
    ensures var r := MouseDownState(s, Some(h), planetPosition, len);
      var d := CameraOffset(Owner(h));
      && r.selected == Some(Owner(h)) && r.offset == Some(d)
      && r.panel == s.panel.(visible := false)
      && r.settings == s.settings.(time := s.settings.time.(accelerationOrbit := 0.0))
      && r.controls == s.controls.(target := planetPosition)
      && r.nav.approaching && r.nav.zoomingOut == s.nav.zoomingOut && r.nav.position == s.nav.position
      && (0.0 < len ==> DistSq(r.nav.target, planetPosition) == d * d)
      && r.planets == s.planets && r.asteroids == s.asteroids && r.looping == s.looping
      && Coherent(r)
  {
    var d := CameraOffset(Owner(h));
    var toward := Normalize(Sub(s.nav.position, planetPosition), len);
    var t := s.(selected := Some(Owner(h)), offset := Some(d));
    assert MouseDownState(s, Some(h), planetPosition, len) == FocusState(t, planetPosition, toward, d);
    if 0.0 < len {
      ApproachTargetDistance(s.nav.position, planetPosition, len, d);
    }
  }

  /**
    With the camera at the centre of the clicked body the direction to it
    is the zero vector, which `normalize` leaves as it is: the approach
    target is the body's centre, not a point at the body's offset.
   */
  lemma ClickAtBodyCentre(s: AppState, h: Surface, planetPosition: Vec3, len: real)
    requires IsDistance(s, planetPosition, len) && Recognised(h) && s.nav.position == planetPosition
    ensures MouseDownState(s, Some(h), planetPosition, len).nav.target == planetPosition
  {
    var d := CameraOffset(Owner(h));
    var toward := Normalize(Sub(s.nav.position, planetPosition), len);
    assert toward == Origin by {
      assert Sub(s.nav.position, planetPosition) == Origin;
      NormalizeOrigin(len);
    }
    ClickTarget(s, h, planetPosition, len);
    ApproachAlongNothing(planetPosition, d);
  }

  /** Along the zero direction the approach target is the body itself, whatever the offset. */
  lemma ApproachAlongNothing(planetPosition: Vec3, offset: real)
    ensures ApproachTarget(planetPosition, Origin, offset) == planetPosition
  {
    assert Scale(Origin, offset) == Origin;
  }

  /** The approach target of a click on a recognised body, named by its parts. */
  lemma ClickTarget(s: AppState, h: Surface, planetPosition: Vec3, len: real)
    requires IsDistance(s, planetPosition, len) && Recognised(h)
    ensures MouseDownState(s, Some(h), planetPosition, len).nav.target
      == ApproachTarget(planetPosition, Normalize(Sub(s.nav.position, planetPosition), len), CameraOffset(Owner(h)))
  {
    var d := CameraOffset(Owner(h));
    var toward := Normalize(Sub(s.nav.position, planetPosition), len);
    var t := s.(selected := Some(Owner(h)), offset := Some(d));
    assert MouseDownState(s, Some(h), planetPosition, len) == FocusState(t, planetPosition, toward, d);
  }

  /**
    Unless the camera is at the body, the approach target lies `distance`
    from the body along the normalised direction to the camera.
   */
  lemma ApproachTargetDistance(camera: Vec3, planetPosition: Vec3, len: real, distance: real)
    requires 0.0 < len && len * len == NormSq(Sub(camera, planetPosition))
    ensures DistSq(ApproachTarget(planetPosition, Normalize(Sub(camera, planetPosition), len), distance), planetPosition)
      == distance * distance
  {
    var toward := Normalize(Sub(camera, planetPosition), len);
    OffsetDistSq(planetPosition, toward, distance);
  }

  /**
    A click on a body during a zoom-out leaves both flags set: the
    approach runs first, and when it ends the zoom-out takes over and
    moves the camera 5% of the way back to the overview pose.
   */
  lemma ClickDuringZoomOut(s: AppState, h: Surface, planetPosition: Vec3, len: real)
    requires IsDistance(s, planetPosition, len) && Recognised(h) && s.nav.zoomingOut
    ensures var r := MouseDownState(s, Some(h), planetPosition, len);
      r.nav.approaching && r.nav.zoomingOut
  {
    ClickOnBody(s, h, planetPosition, len);
  }

  lemma ZoomOutResumesAfterArrival(n: Nav)
    requires n.approaching && n.zoomingOut && Step(n).arrived
    ensures var m := Step(n).nav;
      && !m.approaching && m.zoomingOut
      && Sub(Overview, Step(m).nav.position) == Scale(Sub(Overview, m.position), 0.95)
  {
    StepApproaching(n);
    StepZoomingOut(Step(n).nav);
  }

  /**
    A click on a bare mesh during an approach clears the selection while
    the approach goes on; on the frame it ends, `selectedPlanet.name`
    throws and no further frame is requested.
   */
  lemma BareMeshDuringApproach(s: AppState, h: Surface, planetPosition: Vec3, len: real)
    requires IsDistance(s, planetPosition, len) && !Recognised(h) && s.nav.approaching
    ensures var r := MouseDownState(s, Some(h), planetPosition, len);
      && !Coherent(r)
      && (Step(r.nav).arrived ==> !ZoomState(r).looping)
  {
    ClickOnBareMesh(s, h, planetPosition, len);
  }

  // ---------------------------------------------------------------- closing the panel

  /**
    The close button hides the panel, restores the orbits, starts a
    zoom-out and aims the controls at the origin; a click on another body
    closes the panel the same way but leaves the camera alone.
   */
  lemma TwoWaysToClose(s: AppState)
    ensures var r := CloseInfoState(s);
      var q := CloseInfoNoZoomOutState(s);
      && !r.panel.visible && r.panel.card == s.panel.card
      && r.settings.time.accelerationOrbit == 1.0
      && r.settings == s.settings.(time := s.settings.time.(accelerationOrbit := 1.0))
      && r.nav == s.nav.(zoomingOut := true) && r.controls == s.controls.(target := Origin)
      && q.nav == s.nav && q.controls == s.controls
      && r == q.(nav := s.nav.(zoomingOut := true), controls := s.controls.(target := Origin))
      && q.(panel := s.panel, settings := s.settings) == s
  {
  }

  /**
    Closing the panel during an approach does not end the approach: it
    keeps priority, with the zoom-out waiting behind it, so the next frame
    still moves the camera 3% of the way to the body.  The panel is hidden
    throughout an approach (`ClickKeepsPanelHidden` and the lemmas after
    it), so this needs a close button that can be pressed while the panel
    is hidden.
   */
  lemma CloseDuringApproach(s: AppState)
    requires s.nav.approaching
    ensures var r := CloseInfoState(s);
      && r.nav.approaching && r.nav.zoomingOut && r.nav.target == s.nav.target
      && Sub(r.nav.target, Step(r.nav).nav.position) == Scale(Sub(r.nav.target, r.nav.position), 0.97)
  {
    StepApproaching(CloseInfoState(s).nav);
  }

  /** A click starts an approach only with the panel hidden, and never shows the panel. */
  lemma ClickKeepsPanelHidden(s: AppState, hit: Option<Surface>, planetPosition: Vec3, len: real)
    requires IsDistance(s, planetPosition, len) && PanelHiddenWhileApproaching(s)
    ensures PanelHiddenWhileApproaching(MouseDownState(s, hit, planetPosition, len))
  {
    match hit
    case None =>
    case Some(h) =>
      if Recognised(h) {
        ClickOnBody(s, h, planetPosition, len);
      }
  }

  /** The closes, `reset`, the control panel and the loader neither start an approach nor show the panel. */
  lemma HandlersKeepPanelHidden(s: AppState, c: Change, flipped: set<nat>)
    requires PanelHiddenWhileApproaching(s) && ChangeInRange(c) && IsFlipSet(s.planets, flipped)
    ensures PanelHiddenWhileApproaching(ResetState(s))
    ensures PanelHiddenWhileApproaching(CloseInfoState(s))
    ensures PanelHiddenWhileApproaching(CloseInfoNoZoomOutState(s))
    ensures PanelHiddenWhileApproaching(ChangeState(s, c, flipped))
  {
    ChangeTouchesOnlyItsTargets(s, c, flipped);
  }

  /** The loader leaves the camera and the panel alone. */
  lemma LoadKeepsPanelHidden(s: AppState, meshes: seq<PackMesh>, draws: seq<seq<Draw>>, n: nat, minRadius: real, maxRadius: real)
    requires minRadius <= maxRadius && DrawsFit(meshes, draws, n) && PanelHiddenWhileApproaching(s)
    ensures PanelHiddenWhileApproaching(LoadAsteroidsState(s, meshes, draws, n, minRadius, maxRadius))
  {
  }

  // ---------------------------------------------------------------- frames

  /** A paused frame, and any frame once `animate` has thrown, changes nothing. */
  lemma StillFrame(s: AppState, hover: Option<Surface>, turnCos: real, turnSin: real)
    requires WellFormed(s) && IsTurn(s.settings.time, turnCos, turnSin) && (s.settings.time.pause || !s.looping)
    ensures Frame(s, hover, turnCos, turnSin) == s
  {
  }

  /**
    A running frame turns the sun and every body: spins by rate x
    `acceleration` x `timeSpeed`, pivots by rate x `accelerationOrbit` x
    `timeSpeed` (so not at all while the orbits are stopped); it points the
    outline at the hovered body and writes no knob, no selection and no
    controls.
   */
  lemma RunningFrame(s: AppState, hover: Option<Surface>, turnCos: real, turnSin: real, i: nat)
    requires WellFormed(s) && IsTurn(s.settings.time, turnCos, turnSin)
    requires s.looping && !s.settings.time.pause && i < |AllBodies|
    ensures var r := Frame(s, hover, turnCos, turnSin);
      var v := s.settings.time;
      var b := AllBodies[i];
      && |r.planets| == |s.planets|
      && r.planets[i].spin == s.planets[i].spin + SpinRate(b) * v.acceleration * v.timeSpeed
      && r.planets[i].orbit == s.planets[i].orbit + OrbitRate(b) * v.accelerationOrbit * v.timeSpeed
      && (v.accelerationOrbit == 0.0 ==> r.planets[i].orbit == s.planets[i].orbit)
      && r.planets[i].orbitVisible == s.planets[i].orbitVisible && r.planets[i].wireframe == s.planets[i].wireframe
      && r.sunSpin == s.sunSpin + SunSpinRate * v.acceleration * v.timeSpeed
      && r.outline.selected == OutlineTarget(hover)
      && r.settings == s.settings && r.selected == s.selected && r.offset == s.offset
      && r.controls == s.controls && |r.asteroids| == |s.asteroids|
  {
  }

  /** Frames never break the link between an approach and its selected body. */
  lemma FrameKeepsCoherent(s: AppState, hover: Option<Surface>, turnCos: real, turnSin: real)
    requires WellFormed(s) && IsTurn(s.settings.time, turnCos, turnSin) && Coherent(s)
    ensures Coherent(Frame(s, hover, turnCos, turnSin))
  {
  }

  /** The frame that shows the card is the one that ends the approach. */
  lemma FrameKeepsPanelHidden(s: AppState, hover: Option<Surface>, turnCos: real, turnSin: real)
    requires WellFormed(s) && IsTurn(s.settings.time, turnCos, turnSin) && PanelHiddenWhileApproaching(s)
    ensures PanelHiddenWhileApproaching(Frame(s, hover, turnCos, turnSin))
    ensures Frame(s, hover, turnCos, turnSin).panel != s.panel ==> s.nav.approaching && Step(s.nav).arrived
  {
  }

  /**
    A running frame turns every asteroid by 0.0001 x `timeSpeed` about its
    own axis and keeps its height, scale and visibility; while the orbits
    are stopped the belts do not move.
   */
  lemma RunningFrameBelts(s: AppState, hover: Option<Surface>, turnCos: real, turnSin: real)
    requires WellFormed(s) && IsTurn(s.settings.time, turnCos, turnSin)
    requires s.looping && !s.settings.time.pause
    ensures var r := Frame(s, hover, turnCos, turnSin);
      var v := s.settings.time;
      && |r.asteroids| == |s.asteroids|
      && (forall j :: 0 <= j < |s.asteroids| ==>
            && r.asteroids[j].spin == s.asteroids[j].spin + 0.0001 * v.timeSpeed
            && r.asteroids[j].position.y == s.asteroids[j].position.y
            && r.asteroids[j].scale == s.asteroids[j].scale
            && r.asteroids[j].visible == s.asteroids[j].visible)
      && (v.accelerationOrbit == 0.0 ==>
            forall j :: 0 <= j < |s.asteroids| ==> r.asteroids[j].position == s.asteroids[j].position)
  {
    var v := s.settings.time;
    var r := Frame(s, hover, turnCos, turnSin);
    assert r.asteroids == AdvanceAll(s.asteroids, v.timeSpeed, turnCos, turnSin);
    if v.accelerationOrbit == 0.0 {
      assert v.accelerationOrbit * v.timeSpeed == 0.0;
      forall j | 0 <= j < |s.asteroids|
        ensures r.asteroids[j].position == s.asteroids[j].position
      {
        AdvanceAtRest(s.asteroids[j], v.timeSpeed);
      }
    }
  }

  /**
    The frame an approach ends on shows the selected body's card, and the
    next frame cannot show it again, since no frame starts an approach.
   */
  lemma ArrivalShowsCardOnce(s: AppState)
    requires Coherent(s) && s.nav.approaching && Step(s.nav).arrived
    ensures var r := ZoomState(s);
      && r.panel == Panel(true, Some(InfoFor(Name(s.selected.value))))
      && r.looping == s.looping && !r.nav.approaching
      && !Step(r.nav).arrived
  {
  }

  /** With nothing selected, the frame an approach ends on throws and the loop stops. */
  lemma ArrivalWithoutSelection(s: AppState)
    requires s.nav.approaching && s.selected.None? && Step(s.nav).arrived
    ensures !ZoomState(s).looping && ZoomState(s).panel == s.panel
  {
  }

  // ---------------------------------------------------------------- the control panel

  /**
    Moving the orbit-speed knob sets it and writes y = 0 on every pivot,
    nothing else of the bodies: a pivot within a quarter turn of 0 is then
    at angle 0, but one turned past a quarter turn is left at a half turn.
   */
  lemma OrbitSpeedClearsPivots(s: AppState, x: real, flipped: set<nat>, i: nat, k: int)
    requires ChangeInRange(Time(OrbitSpeed(x))) && IsFlipSet(s.planets, flipped) && i < |s.planets|
    ensures var r := ChangeState(s, Time(OrbitSpeed(x)), flipped);
      && r.settings.time.accelerationOrbit == x
      && |r.planets| == |s.planets|
      && r.planets[i].(orbit := s.planets[i].orbit) == s.planets[i]
      && (-1.57 + Laps(k) < s.planets[i].orbit < 1.57 + Laps(k) ==> r.planets[i].orbit == 0.0)
      && (1.572 + Laps(k) < s.planets[i].orbit < 4.71 + Laps(k) ==> r.planets[i].orbit == HalfTurn)
  {
  }

  /** The knob puts every pivot at angle 0 exactly when no pivot is flipped. */
  lemma OrbitSpeedZeroesAllIff(s: AppState, x: real, flipped: set<nat>)
    requires ChangeInRange(Time(OrbitSpeed(x))) && IsFlipSet(s.planets, flipped)
    ensures var r := ChangeState(s, Time(OrbitSpeed(x)), flipped);
      (forall i :: 0 <= i < |r.planets| ==> r.planets[i].orbit == 0.0) <==> flipped == {}
  {
    var r := ChangeState(s, Time(OrbitSpeed(x)), flipped);
    if flipped != {} {
      var i :| i in flipped;
      assert r.planets[i].orbit == HalfTurn;
    }
  }

  /** Every knob stays in its slider range whatever the control panel does. */
  lemma ChangeKeepsInRange(s: AppState, c: Change, flipped: set<nat>)
    requires InRange(s.settings) && ChangeInRange(c) && IsFlipSet(s.planets, flipped)
    ensures InRange(ChangeState(s, c, flipped).settings)
  {
    AssignKeepsInRange(s.settings, c);
  }

  /**
    No knob touches the camera, its flags, the selection, the panel, the
    sun or the loop, and each toggle over a list writes only its own field
    of the elements currently in the list.
   */
  lemma ChangeTouchesOnlyItsTargets(s: AppState, c: Change, flipped: set<nat>)
    requires ChangeInRange(c) && IsFlipSet(s.planets, flipped)
    ensures var r := ChangeState(s, c, flipped);
      && r.nav == s.nav && r.selected == s.selected && r.offset == s.offset
      && r.panel == s.panel && r.sunSpin == s.sunSpin && r.looping == s.looping
      && |r.planets| == |s.planets| && |r.asteroids| == |s.asteroids|
      && (forall i :: 0 <= i < |s.asteroids| ==>
            r.asteroids[i].(visible := s.asteroids[i].visible) == s.asteroids[i])
      && (forall i :: 0 <= i < |s.planets| ==>
            r.planets[i].(orbit := s.planets[i].orbit, orbitVisible := s.planets[i].orbitVisible,
              wireframe := s.planets[i].wireframe) == s.planets[i])
  {
    match c
    case Time(k) =>
    case Camera(k) =>
    case Light(k) =>
    case Effect(k) =>
    case Display(k) =>
  }

  /**
    Each knob writes only its own target: the pivots only for the orbit
    speed, each list toggle only its own field, and the controls, lights
    and passes only for their own folder.
   */
  lemma ChangeWritesOnlyItsOwn(s: AppState, c: Change, flipped: set<nat>)
    requires ChangeInRange(c) && IsFlipSet(s.planets, flipped)
    ensures var r := ChangeState(s, c, flipped);
      && (!(c.Time? && c.time.OrbitSpeed?) ==>
            forall i :: 0 <= i < |s.planets| ==> r.planets[i].orbit == s.planets[i].orbit)
      && (!(c.Display? && c.display.ShowOrbits?) ==>
            forall i :: 0 <= i < |s.planets| ==> r.planets[i].orbitVisible == s.planets[i].orbitVisible)
      && (!(c.Display? && c.display.Wireframe?) ==>
            forall i :: 0 <= i < |s.planets| ==> r.planets[i].wireframe == s.planets[i].wireframe)
      && (!(c.Display? && c.display.ShowAsteroids?) ==> r.asteroids == s.asteroids)
      && (!c.Camera? ==> r.controls == s.controls)
      && (!c.Light? ==> r.lights == s.lights)
      && (!c.Effect? ==> r.bloom == s.bloom && r.outline == s.outline)
  {
    match c
    case Time(k) =>
    case Camera(k) =>
    case Light(k) =>
    case Effect(k) =>
    case Display(k) =>
  }

  /** Each handler writes what its knob now says: a scene that agrees with its settings keeps agreeing. */
  lemma ChangeKeepsSynced(s: AppState, c: Change, flipped: set<nat>)
    requires Synced(s) && ChangeInRange(c) && IsFlipSet(s.planets, flipped)
    ensures Synced(ChangeState(s, c, flipped))
  {
    var t := s.(settings := Assign(s.settings, c));
    match c
    case Time(k) => TimeChangeKeepsSynced(s, t, k, flipped);
    case Camera(k) => CameraChangeKeepsSynced(s, t, k);
    case Light(k) => assert Synced(LightHandler(t, k));
    case Effect(k) => EffectChangeKeepsSynced(s, t, k);
    case Display(k) => DisplayChangeKeepsSynced(s, t, k);
  }

  lemma CameraChangeKeepsSynced(s: AppState, t: AppState, k: CameraChange)
    requires Synced(s) && ChangeInRange(Camera(k)) && t == s.(settings := Assign(s.settings, Camera(k)))
    ensures Synced(CameraHandler(t, k))
  {
  }

  lemma EffectChangeKeepsSynced(s: AppState, t: AppState, k: EffectChange)
    requires Synced(s) && t == s.(settings := Assign(s.settings, Effect(k)))
    ensures Synced(EffectHandler(t, k))
  {
  }

  lemma TimeChangeKeepsSynced(s: AppState, t: AppState, k: TimeChange, flipped: set<nat>)
    requires Synced(s) && t == s.(settings := Assign(s.settings, Time(k)))
    ensures Synced(TimeHandler(t, k, flipped))
  {
    var r := TimeHandler(t, k, flipped);
    assert forall i :: 0 <= i < |r.planets| ==>
      r.planets[i].orbitVisible == s.planets[i].orbitVisible && r.planets[i].wireframe == s.planets[i].wireframe;
  }

  lemma DisplayChangeKeepsSynced(s: AppState, t: AppState, k: DisplayChange)
    requires Synced(s) && t == s.(settings := Assign(s.settings, Display(k)))
    ensures Synced(DisplayHandler(t, k))
  {
    var r := DisplayHandler(t, k);
    match k
    case ShowOrbits(b) =>
      assert forall i :: 0 <= i < |r.planets| ==> r.planets[i].wireframe == s.planets[i].wireframe;
    case ShowLabels(_) =>
    case ShowAsteroids(b) =>
    case Wireframe(b) =>
      assert forall i :: 0 <= i < |r.planets| ==> r.planets[i].orbitVisible == s.planets[i].orbitVisible;
  }

  // ---------------------------------------------------------------- asteroids and the first frame

  /**
    `loadAsteroids` appends `CloneCount(n)` clones per pack mesh after the
    asteroids already there, all on the plane y = 0.
   */
  lemma LoadAppends(s: AppState, meshes: seq<PackMesh>, draws: seq<seq<Draw>>, n: nat, minRadius: real, maxRadius: real)
    requires minRadius <= maxRadius && DrawsFit(meshes, draws, n)
    ensures var r := LoadAsteroidsState(s, meshes, draws, n, minRadius, maxRadius);
      && |r.asteroids| == |s.asteroids| + |meshes| * CloneCount(n)
      && r.asteroids[..|s.asteroids|] == s.asteroids
      && forall k :: |s.asteroids| <= k < |r.asteroids| ==> r.asteroids[k].position.y == 0.0
  {
    var cs := PackClones(meshes, draws, n, minRadius, maxRadius);
    var r := LoadAsteroidsState(s, meshes, draws, n, minRadius, maxRadius);
    PackClonesLength(meshes, draws, n, minRadius, maxRadius);
    PackClonesFlat(meshes, draws, n, minRadius, maxRadius);
    forall k | |s.asteroids| <= k < |r.asteroids|
      ensures r.asteroids[k].position.y == 0.0
    {
      assert r.asteroids[k] == cs[k - |s.asteroids|];
      assert cs[k - |s.asteroids|] in cs;
    }
  }

  /**
    The asteroid toggle reaches only the asteroids already loaded: a belt
    whose pack arrives after the asteroids were hidden is shown, since its
    clones copy the pack mesh's own visibility.
   */
  lemma LateBeltIgnoresToggle(s: AppState, meshes: seq<PackMesh>, draws: seq<seq<Draw>>, n: nat, minRadius: real, maxRadius: real)
    requires minRadius <= maxRadius && DrawsFit(meshes, draws, n)
    requires 0 < |meshes| && meshes[0].visible && 0 < n
    requires !s.settings.display.showAsteroids
    ensures var r := LoadAsteroidsState(s, meshes, draws, n, minRadius, maxRadius);
      && |s.asteroids| < |r.asteroids| && r.asteroids[|s.asteroids|].visible
      && !Synced(r)
  {
    var cs := PackClones(meshes, draws, n, minRadius, maxRadius);
    var r := LoadAsteroidsState(s, meshes, draws, n, minRadius, maxRadius);
    PackClonesAt(meshes, draws, n, minRadius, maxRadius, 0, 0);
    assert r.asteroids[|s.asteroids|] == cs[0];
  }

  /**
    The state the script starts in keeps every knob in range and has no
    approach, but its bloom pass does not agree with its settings: the pass
    is built with strength 1 while the knob says 0.85.
   */
  lemma InitialStateFacts()
    ensures var s := InitialState();
      && InRange(s.settings) && Coherent(s) && PanelHiddenWhileApproaching(s)
      && s.bloom.strength != s.settings.effects.bloomStrength
      && !Synced(s)
  {
    AssignKeepsInRange(Defaults, Time(Pause(false)));
  }
}
