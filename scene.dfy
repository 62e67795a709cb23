/**
  The state that `script.js` keeps in its globals and in the live scene
  objects it writes, as one value, and every way the application changes
  it, as a function of the old state and the inputs the host supplies:
  the nearest ray-cast hit, the clicked body's world position, the length
  of the camera's offset from it, the cosine and sine of the asteroid
  turn, and the pivots three.js reads back flipped.  The class in `script.dfy` is specified by these functions.
 */
module Scene {
  import opened Optional
  import opened Vectors
  import opened Bodies
  import opened Config
  import opened Camera
  import opened Asteroids

  /** The `OrbitControls` fields the application writes. */
  datatype Controls = Controls(target: Vec3, dampingFactor: real, autoRotate: bool, zoomSpeed: real)

  /** `pointLight.intensity`, `lightAmbient.intensity`, `sunMat.emissiveIntensity`, `renderer.shadowMap.enabled`. */
  datatype Lights = Lights(pointLight: real, ambient: real, sunEmissive: real, shadows: bool)

  /** The `UnrealBloomPass` fields the application writes. */
  datatype Bloom = Bloom(enabled: bool, threshold: real, radius: real, strength: real)

  /** The `OutlinePass` fields the application writes. */
  datatype Outline = Outline(enabled: bool, edgeStrength: real, selected: seq<Surface>)

  /**
    What the application changes of one `createPlanet` result: the
    accumulated `rotateY` turns of the planet mesh about its own (tilted)
    axis, of `planet3d` (the orbital pivot) and of the atmosphere shell,
    the orbit line's `visible` and the planet material's `wireframe`.
    Turns are unwrapped sums of the per-frame increments.
   */
  datatype Planet = Planet(spin: real, orbit: real, atmosphereSpin: real, orbitVisible: bool, wireframe: bool)

  /** The `planetInfo` element: shown or not, and the card last written into it. */
  datatype Panel = Panel(visible: bool, card: Option<InfoCard>)

  /**
    The whole state.  `nav` holds `camera.position`,
    `targetCameraPosition`, `isMovingTowardsPlanet` and `isZoomingOut`;
    `planets` is in `AllBodies` order; `looping` is false once `animate`
    has thrown and no further frame is requested.
   */
  datatype AppState = AppState(
    settings: SettingsValues,
    nav: Nav,
    controls: Controls,
    lights: Lights,
    bloom: Bloom,
    outline: Outline,
    sunSpin: real,
    planets: seq<Planet>,
    asteroids: seq<Asteroid>,
    selected: Option<Body>,
    offset: Option<real>,
    panel: Panel,
    looping: bool)

  predicate WellFormed(s: AppState) {
    |s.planets| == |AllBodies|
  }

  const StartPlanet: Planet := Planet(0.0, 0.0, 0.0, true, false)

  /**
    The state once the script's top level has run: the camera at the
    overview pose looking at the origin, the passes and lights as
    constructed (the bloom pass is built with strength 1, not the
    setting's 0.85), nothing selected, no asteroids loaded yet.
   */
  function InitialState(): (s: AppState)
    ensures WellFormed(s)
  {
    AppState(
      Defaults,
      Nav(Overview, Origin, false, false),
      Controls(Origin, 0.75, false, 1.0),
      Lights(1200.0, 6.0, 5.0, true),
      Bloom(true, 1.0, 0.9, 1.0),
      Outline(true, 3.0, []),
      0.0,
      seq(|AllBodies|, i => StartPlanet),
      [],
      None,
      None,
      Panel(false, None),
      true)
  }

  /**
    `settings.reset`: every knob back to its declared value, the camera
    to the overview pose, the controls' target to the origin, and the
    lights, the shadow map and the two passes' `enabled` flags re-read
    from the settings.  Nothing else is written.  The `controls.update()`
    in between is not part of this model: with auto-rotation off and no
    drag momentum left it only re-aims the camera.
   */
  function ResetState(s: AppState): AppState {
    var v := Defaults;
    s.(settings := v,
      nav := s.nav.(position := Overview),
      controls := s.controls.(target := Origin),
      lights := Lights(v.lights.pointLightIntensity, v.lights.ambientLight, v.lights.sunIntensity, v.lights.shadows),
      bloom := s.bloom.(enabled := v.effects.bloomEnabled),
      outline := s.outline.(enabled := v.effects.outlineEnabled))
  }

  /** `showPlanetInfo(name)`: the panel shows the card for `name` (or its loading note). */
  function ShowInfoState(s: AppState, name: string): AppState {
    s.(panel := Panel(true, Some(InfoFor(name))))
  }

  /** `closeInfo`, the panel's close button: the panel hides, orbits resume and the camera heads home. */
  function CloseInfoState(s: AppState): AppState {
    s.(panel := s.panel.(visible := false),
      settings := Assign(s.settings, Time(OrbitSpeed(1.0))),
      nav := s.nav.(zoomingOut := true),
      controls := s.controls.(target := Origin))
  }

  /** `closeInfoNoZoomOut`, run when another body is clicked: the panel hides and orbits resume. */
  function CloseInfoNoZoomOutState(s: AppState): AppState {
    s.(panel := s.panel.(visible := false),
      settings := Assign(s.settings, Time(OrbitSpeed(1.0))))
  }

  /**
    Where the camera is sent after a click on the body at `planetPosition`:
    `offset` units from it along `toward`, the normalised direction from
    the body to the camera.
   */
  function ApproachTarget(planetPosition: Vec3, toward: Vec3, offset: real): Vec3 {
    Add(planetPosition, Scale(toward, offset))
  }

  /** `len` is the distance from the camera to the clicked body, the one square root a click needs. */
  predicate IsDistance(s: AppState, planetPosition: Vec3, len: real) {
    0.0 <= len && len * len == NormSq(Sub(s.nav.position, planetPosition))
  }

  /**
    The block `onDocumentMouseDown` runs once a body is selected:
    `closeInfoNoZoomOut`, the orbits stopped, the controls aimed at the
    body and an approach started towards the point `distance` from it.
    A zoom-out in progress is not cancelled.
   */
  function FocusState(s: AppState, planetPosition: Vec3, toward: Vec3, distance: real): AppState {
    var t := CloseInfoNoZoomOutState(s);
    t.(settings := Assign(t.settings, Time(OrbitSpeed(0.0))),
      controls := t.controls.(target := planetPosition),
      nav := t.nav.(target := ApproachTarget(planetPosition, toward, distance), approaching := true))
  }

  /**
    `onDocumentMouseDown` for the nearest hit under the pointer, the world
    position of the body it belongs to and the camera's distance from that
    body.  No hit changes nothing; a hit `identifyPlanet` does not
    recognise clears the selection; a recognised one selects the body,
    stores its offset and focuses on it, along the normalised direction
    from the body to the camera.
   */
  function MouseDownState(s: AppState, hit: Option<Surface>, planetPosition: Vec3, len: real): AppState
    requires IsDistance(s, planetPosition, len)
  {
    match hit
    case None => s
    case Some(h) =>
      match Identify(h)
      case None => s.(selected := None)
      case Some(p) =>
        var toward := Normalize(Sub(s.nav.position, planetPosition), len);
        FocusState(s.(selected := Some(p.body), offset := Some(p.offset)), planetPosition, toward, p.offset)
  }

  /**
    One frame's rotations of a body: its spin by rate x `acceleration` x
    `timeSpeed`, its orbital pivot by rate x `accelerationOrbit` x
    `timeSpeed`, and an atmosphere shell, where there is one, by its own rate.
   */
  function AdvancePlanet(p: Planet, b: Body, v: TimeSettings): Planet {
    var tm := v.timeSpeed;
    p.(spin := p.spin + SpinRate(b) * v.acceleration * tm,
      orbit := p.orbit + OrbitRate(b) * v.accelerationOrbit * tm,
      atmosphereSpin := if HasAtmosphere(b) then p.atmosphereSpin + AtmosphereRate(b) * v.acceleration * tm else p.atmosphereSpin)
  }

  /** Every body's rotations for one frame, in `AllBodies` order. */
  function AdvanceBodies(planets: seq<Planet>, v: TimeSettings): (ps: seq<Planet>)
    requires |planets| == |AllBodies|
    ensures |ps| == |planets|
    ensures forall i :: 0 <= i < |planets| ==> ps[i] == AdvancePlanet(planets[i], AllBodies[i], v)
  {
    seq(|planets|, i requires 0 <= i < |planets| => AdvancePlanet(planets[i], AllBodies[i], v))
  }

  /** `Math.PI`: a half turn. */
  const HalfTurn: real := 3.141592653589793

  /**
    The pivots three.js reads back as turned the other way round.  A pivot
    only ever turns about y, but three.js keeps `rotation` as XYZ Euler
    angles derived from the accumulated turn, with y in [-pi/2, pi/2]: a
    turn whose cosine is negative reads back as a half turn about x and
    about z together with y = pi - turn.  Which turns these are is
    trigonometry, an input here; the set must agree with the turn where
    that is clear, on every lap: a turn within 1.57 of a whole number of
    laps is not flipped, one between 1.572 and 4.71 past it is.  Only the
    narrow windows around a quarter and three quarters of a lap, where
    three.js reads the turn back as y = +-pi/2, are left open.
   */
  ghost predicate IsFlipSet(planets: seq<Planet>, flipped: set<nat>) {
    && (forall i :: i in flipped ==> i < |planets|)
    && (forall i, k: int :: 0 <= i < |planets| ==>
          && (-1.57 + Laps(k) < planets[i].orbit < 1.57 + Laps(k) ==> i !in flipped)
          && (1.572 + Laps(k) < planets[i].orbit < 4.71 + Laps(k) ==> i in flipped))
  }

  /** `k` whole turns, 2 x `Math.PI` each. */
  function Laps(k: int): real {
    2.0 * HalfTurn * (k as real)
  }

  /**
    The orbit-speed handler: `rotation.y = 0` on every pivot.  That keeps
    the x and z Euler angles, so a flipped pivot is left at a half turn
    about y rather than at angle 0.
   */
  function ClearPivots(planets: seq<Planet>, flipped: set<nat>): (ps: seq<Planet>)
    ensures |ps| == |planets|
    ensures forall i :: 0 <= i < |planets| ==> ps[i] == planets[i].(orbit := if i in flipped then HalfTurn else 0.0)
  {
    seq(|planets|, i requires 0 <= i < |planets| => planets[i].(orbit := if i in flipped then HalfTurn else 0.0))
  }

  /** The orbit-path handler: every orbit line shown or hidden. */
  function WithOrbitPaths(planets: seq<Planet>, b: bool): (ps: seq<Planet>)
    ensures |ps| == |planets|
    ensures forall i :: 0 <= i < |planets| ==> ps[i] == planets[i].(orbitVisible := b)
  {
    seq(|planets|, i requires 0 <= i < |planets| => planets[i].(orbitVisible := b))
  }

  /** The wireframe handler: every planet material switched. */
  function WithWireframe(planets: seq<Planet>, b: bool): (ps: seq<Planet>)
    ensures |ps| == |planets|
    ensures forall i :: 0 <= i < |planets| ==> ps[i] == planets[i].(wireframe := b)
  {
    seq(|planets|, i requires 0 <= i < |planets| => planets[i].(wireframe := b))
  }

  /**
    The zoom block at the end of `animate`: one camera step.  On the frame
    an approach ends, the panel shows the selected body's card; with
    nothing selected, `selectedPlanet.name` throws, and no further frame is
    requested.
   */
  function ZoomState(s: AppState): AppState {
    var m := Camera.Step(s.nav);
    if !m.arrived then s.(nav := m.nav)
    else
      match s.selected
      case None => s.(nav := m.nav, looping := false)
      case Some(b) => ShowInfoState(s.(nav := m.nav), Name(b))
  }

  /**
    The cosine and sine of the asteroids' turn for a frame, the angle
    `0.0001 * accelerationOrbit * timeSpeed`: a point of the unit circle,
    and (1, 0) when the angle is 0.
   */
  predicate IsTurn(v: TimeSettings, turnCos: real, turnSin: real) {
    && turnCos * turnCos + turnSin * turnSin == 1.0
    && (v.accelerationOrbit * v.timeSpeed == 0.0 ==> turnCos == 1.0 && turnSin == 0.0)
  }

  /**
    One call of `animate`.  A paused frame only runs `controls.update()`
    and renders; the orbit controls' auto-rotation and damping are not part
    of this model, so here it changes nothing.  Otherwise the sun and the
    bodies turn, the asteroids advance, the outline follows the hovered
    surface and the camera takes one step.
   */
  function Frame(s: AppState, hover: Option<Surface>, turnCos: real, turnSin: real): AppState
    requires WellFormed(s) && IsTurn(s.settings.time, turnCos, turnSin)
  {
    if !s.looping || s.settings.time.pause then s
    else
      var v := s.settings.time;
      ZoomState(s.(
        sunSpin := s.sunSpin + SunSpinRate * v.acceleration * v.timeSpeed,
        planets := AdvanceBodies(s.planets, v),
        asteroids := AdvanceAll(s.asteroids, v.timeSpeed, turnCos, turnSin),
        outline := s.outline.(selected := OutlineTarget(hover))))
  }

  /** `loadAsteroids`: the pack's clones are appended to `asteroids`. */
  function LoadAsteroidsState(s: AppState, meshes: seq<PackMesh>, draws: seq<seq<Draw>>, n: nat, minRadius: real, maxRadius: real): AppState
    requires minRadius <= maxRadius && DrawsFit(meshes, draws, n)
  {
    s.(asteroids := s.asteroids + PackClones(meshes, draws, n, minRadius, maxRadius))
  }

  /**
    A control-panel change: the settings write followed by the knob's
    `onChange` handler, where it has one.  `flipped` is the set of pivots
    three.js reads back as turned the other way round.
   */
  function ChangeState(s: AppState, c: Change, flipped: set<nat>): AppState
    requires ChangeInRange(c) && IsFlipSet(s.planets, flipped)
  {
    var t := s.(settings := Assign(s.settings, c));
    match c
    case Time(k) => TimeHandler(t, k, flipped)
    case Camera(k) => CameraHandler(t, k)
    case Light(k) => LightHandler(t, k)
    case Effect(k) => EffectHandler(t, k)
    case Display(k) => DisplayHandler(t, k)
  }

  /** The time folder's handlers: only the orbit-speed knob has one. */
  function TimeHandler(s: AppState, k: TimeChange, flipped: set<nat>): AppState {
    match k
    case OrbitSpeed(_) => s.(planets := ClearPivots(s.planets, flipped))
    case _ => s
  }

  /** The camera folder's handlers, on the orbit controls. */
  function CameraHandler(s: AppState, k: CameraChange): AppState
    requires ChangeInRange(Camera(k))
  {
    match k
    case CameraSpeed(x) => s.(controls := s.controls.(dampingFactor := 0.75 / x))
    case AutoRotate(b) => s.(controls := s.controls.(autoRotate := b))
    case ZoomSpeed(x) => s.(controls := s.controls.(zoomSpeed := x))
  }

  /** The light folder's handlers. */
  function LightHandler(s: AppState, k: LightChange): AppState {
    match k
    case SunIntensity(x) => s.(lights := s.lights.(sunEmissive := x))
    case AmbientLight(x) => s.(lights := s.lights.(ambient := x))
    case PointLight(x) => s.(lights := s.lights.(pointLight := x))
    case Shadows(b) => s.(lights := s.lights.(shadows := b))
  }

  /** The effects folder's handlers, on the two passes. */
  function EffectHandler(s: AppState, k: EffectChange): AppState {
    match k
    case BloomEnabled(b) => s.(bloom := s.bloom.(enabled := b))
    case BloomThreshold(x) => s.(bloom := s.bloom.(threshold := x))
    case BloomRadius(x) => s.(bloom := s.bloom.(radius := x))
    case BloomStrength(x) => s.(bloom := s.bloom.(strength := x))
    case OutlineEnabled(b) => s.(outline := s.outline.(enabled := b))
    case OutlineStrength(x) => s.(outline := s.outline.(edgeStrength := x))
  }

  /** The display folder's handlers; the label knob has none. */
  function DisplayHandler(s: AppState, k: DisplayChange): AppState {
    match k
    case ShowOrbits(b) => s.(planets := WithOrbitPaths(s.planets, b))
    case ShowLabels(_) => s
    case ShowAsteroids(b) => s.(asteroids := SetVisible(s.asteroids, b))
    case Wireframe(b) => s.(planets := WithWireframe(s.planets, b))
  }

  /**
    The live objects agree with the settings: each holds what the knob's
    handler last wrote, as it would after every knob had been moved once.
   */
  predicate Synced(s: AppState) {
    var v := s.settings;
    && s.lights == Lights(v.lights.pointLightIntensity, v.lights.ambientLight, v.lights.sunIntensity, v.lights.shadows)
    && s.bloom == Bloom(v.effects.bloomEnabled, v.effects.bloomThreshold, v.effects.bloomRadius, v.effects.bloomStrength)
    && s.outline.enabled == v.effects.outlineEnabled && s.outline.edgeStrength == v.effects.outlineStrength
    && s.controls.autoRotate == v.camera.autoRotate && s.controls.zoomSpeed == v.camera.zoomSpeed
    && 0.0 < v.camera.cameraSpeed && s.controls.dampingFactor == 0.75 / v.camera.cameraSpeed
    && (forall i :: 0 <= i < |s.planets| ==> s.planets[i].orbitVisible == v.display.showOrbits)
    && (forall i :: 0 <= i < |s.planets| ==> s.planets[i].wireframe == v.display.wireframe)
    && (forall i :: 0 <= i < |s.asteroids| ==> s.asteroids[i].visible == v.display.showAsteroids)
  }

  /** The info panel stays hidden for as long as an approach lasts. */
  predicate PanelHiddenWhileApproaching(s: AppState) {
    s.nav.approaching ==> !s.panel.visible
  }

  /** An approach always has a selected body to show when it ends. */
  predicate Coherent(s: AppState) {
    s.nav.approaching ==> s.selected.Some?
  }
}
