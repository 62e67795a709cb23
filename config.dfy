/**
  The `settings` object: the twenty-one knobs of the control panel, in
  the five sections of the object literal, which are also the five folders
  of the control panel.  The object is written key by key by the control
  panel, by the picking code and by `reset`; its value at any moment is a
  `SettingsValues` record, held by the application in one field.
 */
module Config {

  datatype TimeSettings = TimeSettings(accelerationOrbit: real, acceleration: real, timeSpeed: real, pause: bool)

  datatype CameraSettings = CameraSettings(cameraSpeed: real, autoRotate: bool, zoomSpeed: real)

  datatype LightSettings = LightSettings(sunIntensity: real, ambientLight: real, pointLightIntensity: real, shadows: bool)

  datatype EffectSettings = EffectSettings(
    bloomEnabled: bool, bloomThreshold: real, bloomRadius: real, bloomStrength: real,
    outlineEnabled: bool, outlineStrength: real)

  datatype DisplaySettings = DisplaySettings(showOrbits: bool, showLabels: bool, showAsteroids: bool, wireframe: bool)

  datatype SettingsValues = SettingsValues(
    time: TimeSettings, camera: CameraSettings, lights: LightSettings,
    effects: EffectSettings, display: DisplaySettings)

  /** The values the settings object is declared with. */
  const Defaults: SettingsValues := SettingsValues(
    TimeSettings(1.0, 1.0, 1.0, false),
    CameraSettings(1.0, false, 1.0),
    LightSettings(5.0, 6.0, 1200.0, true),
    EffectSettings(true, 1.0, 0.9, 0.85, true, 3.0),
    DisplaySettings(true, false, true, false))

  /**
    Every numeric knob lies in the range of its slider.  The control panel
    clamps what it writes to that range, and the picking code writes only 0
    and 1 to `accelerationOrbit`.
   */
  predicate InRange(v: SettingsValues) {
    && 0.0 <= v.time.accelerationOrbit <= 10.0
    && 0.0 <= v.time.acceleration <= 10.0
    && 0.0 <= v.time.timeSpeed <= 5.0
    && 0.1 <= v.camera.cameraSpeed <= 3.0
    && 0.1 <= v.camera.zoomSpeed <= 3.0
    && 0.0 <= v.lights.sunIntensity <= 20.0
    && 0.0 <= v.lights.ambientLight <= 20.0
    && 0.0 <= v.lights.pointLightIntensity <= 5000.0
    && 0.0 <= v.effects.bloomThreshold <= 3.0
    && 0.0 <= v.effects.bloomRadius <= 2.0
    && 0.0 <= v.effects.bloomStrength <= 2.0
    && 0.0 <= v.effects.outlineStrength <= 10.0
  }

  /** A change made on the control panel: the folder, the knob and the value it is given. */
  datatype Change =
    | Time(time: TimeChange) | Camera(camera: CameraChange) | Light(light: LightChange)
    | Effect(effect: EffectChange) | Display(display: DisplayChange)

  datatype TimeChange = OrbitSpeed(x: real) | SpinSpeed(x: real) | TimeSpeed(x: real) | Pause(b: bool)

  datatype CameraChange = CameraSpeed(x: real) | AutoRotate(b: bool) | ZoomSpeed(x: real)

  datatype LightChange = SunIntensity(x: real) | AmbientLight(x: real) | PointLight(x: real) | Shadows(b: bool)

  datatype EffectChange =
    | BloomEnabled(b: bool) | BloomThreshold(x: real) | BloomRadius(x: real) | BloomStrength(x: real)
    | OutlineEnabled(b: bool) | OutlineStrength(x: real)

  datatype DisplayChange = ShowOrbits(b: bool) | ShowLabels(b: bool) | ShowAsteroids(b: bool) | Wireframe(b: bool)

  /** A slider only produces values in its range (`add(settings, key, min, max)`). */
  predicate ChangeInRange(c: Change) {
    match c
    case Time(OrbitSpeed(x)) => 0.0 <= x <= 10.0
    case Time(SpinSpeed(x)) => 0.0 <= x <= 10.0
    case Time(TimeSpeed(x)) => 0.0 <= x <= 5.0
    case Camera(CameraSpeed(x)) => 0.1 <= x <= 3.0
    case Camera(ZoomSpeed(x)) => 0.1 <= x <= 3.0
    case Light(SunIntensity(x)) => 0.0 <= x <= 20.0
    case Light(AmbientLight(x)) => 0.0 <= x <= 20.0
    case Light(PointLight(x)) => 0.0 <= x <= 5000.0
    case Effect(BloomThreshold(x)) => 0.0 <= x <= 3.0
    case Effect(BloomRadius(x)) => 0.0 <= x <= 2.0
    case Effect(BloomStrength(x)) => 0.0 <= x <= 2.0
    case Effect(OutlineStrength(x)) => 0.0 <= x <= 10.0
    case _ => true
  }

  /** The control panel's write of a change into the settings object. */
  function Assign(v: SettingsValues, c: Change): SettingsValues {
    match c
    case Time(t) => v.(time := AssignTime(v.time, t))
    case Camera(k) => v.(camera := AssignCamera(v.camera, k))
    case Light(l) => v.(lights := AssignLight(v.lights, l))
    case Effect(e) => v.(effects := AssignEffect(v.effects, e))
    case Display(d) => v.(display := AssignDisplay(v.display, d))
  }

  function AssignTime(v: TimeSettings, c: TimeChange): TimeSettings {
    match c
    case OrbitSpeed(x) => v.(accelerationOrbit := x)
    case SpinSpeed(x) => v.(acceleration := x)
    case TimeSpeed(x) => v.(timeSpeed := x)
    case Pause(b) => v.(pause := b)
  }

  function AssignCamera(v: CameraSettings, c: CameraChange): CameraSettings {
    match c
    case CameraSpeed(x) => v.(cameraSpeed := x)
    case AutoRotate(b) => v.(autoRotate := b)
    case ZoomSpeed(x) => v.(zoomSpeed := x)
  }

  function AssignLight(v: LightSettings, c: LightChange): LightSettings {
    match c
    case SunIntensity(x) => v.(sunIntensity := x)
    case AmbientLight(x) => v.(ambientLight := x)
    case PointLight(x) => v.(pointLightIntensity := x)
    case Shadows(b) => v.(shadows := b)
  }

  function AssignEffect(v: EffectSettings, c: EffectChange): EffectSettings {
    match c
    case BloomEnabled(b) => v.(bloomEnabled := b)
    case BloomThreshold(x) => v.(bloomThreshold := x)
    case BloomRadius(x) => v.(bloomRadius := x)
    case BloomStrength(x) => v.(bloomStrength := x)
    case OutlineEnabled(b) => v.(outlineEnabled := b)
    case OutlineStrength(x) => v.(outlineStrength := x)
  }

  function AssignDisplay(v: DisplaySettings, c: DisplayChange): DisplaySettings {
    match c
    case ShowOrbits(b) => v.(showOrbits := b)
    case ShowLabels(b) => v.(showLabels := b)
    case ShowAsteroids(b) => v.(showAsteroids := b)
    case Wireframe(b) => v.(wireframe := b)
  }

  /** The defaults lie in the slider ranges, and moving a slider keeps every knob in range. */
  lemma AssignKeepsInRange(v: SettingsValues, c: Change)
    requires InRange(v) && ChangeInRange(c)
    ensures InRange(Defaults)
    ensures InRange(Assign(v, c))
  {
    match c
    case Time(t) =>
    case Camera(k) =>
    case Light(l) =>
    case Effect(e) =>
    case Display(d) =>
  }
}
