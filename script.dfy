/**
  The application object: the globals of `script.js` and the live scene
  objects its handlers write.  Each handler is a method whose new state
  is the matching function of `Scene` applied to the old state.
 */
module Script {
  import opened Optional
  import opened Vectors
  import opened Bodies
  import opened Config
  import opened Camera
  import opened Asteroids
  import opened Scene

  class App {
    /** The `settings` object's current values. */
    var settings: SettingsValues

    var camera: Vec3
    var targetCameraPosition: Vec3
    var isMovingTowardsPlanet: bool
    var isZoomingOut: bool
    var controls: Controls
    var lights: Lights
    var bloomPass: Bloom
    var outlinePass: Outline
    var sunSpin: real
    /** The nine `createPlanet` results, in `AllBodies` order. */
    var planets: seq<Planet>
    var asteroids: seq<Asteroid>
    var selectedPlanet: Option<Body>
    var offset: Option<real>
    var panel: Panel
    /** Whether `animate` is still requesting frames. */
    var looping: bool

    function Snapshot(): AppState
      reads this
    {
      AppState(settings, Nav(camera, targetCameraPosition, isMovingTowardsPlanet, isZoomingOut),
        controls, lights, bloomPass, outlinePass, sunSpin, planets, asteroids,
        selectedPlanet, offset, panel, looping)
    }

    predicate Valid()
      reads this
    {
      WellFormed(Snapshot())
    }

    /** The script's top level, up to the first `animate`. */
    constructor ()
      ensures Valid() && Snapshot() == InitialState()
    {
      settings := Defaults;
      camera := Overview;
      targetCameraPosition := Origin;
      isMovingTowardsPlanet := false;
      isZoomingOut := false;
      controls := Controls(Origin, 0.75, false, 1.0);
      lights := Lights(1200.0, 6.0, 5.0, true);
      bloomPass := Bloom(true, 1.0, 0.9, 1.0);
      outlinePass := Outline(true, 3.0, []);
      sunSpin := 0.0;
      planets := seq(|AllBodies|, i => StartPlanet);
      asteroids := [];
      selectedPlanet := None;
      offset := None;
      panel := Panel(false, None);
      looping := true;
    }

    /** `settings.reset`. */
    method Reset()
      modifies this`settings, this`camera, this`controls, this`lights, this`bloomPass, this`outlinePass
      ensures Snapshot() == ResetState(old(Snapshot()))
    {
      settings := Defaults;
      camera := Overview;
      controls := controls.(target := Origin);
      lights := lights.(pointLight := settings.lights.pointLightIntensity, ambient := settings.lights.ambientLight,
        sunEmissive := settings.lights.sunIntensity);
      bloomPass := bloomPass.(enabled := settings.effects.bloomEnabled);
      outlinePass := outlinePass.(enabled := settings.effects.outlineEnabled);
      lights := lights.(shadows := settings.lights.shadows);
    }

    /** `identifyPlanet`: the clicked body, with its camera distance stored in `offset`. */
    method IdentifyPlanet(clicked: Surface) returns (b: Option<Body>)
      modifies this`offset
      ensures Identify(clicked).Some? ==>
        b == Some(Identify(clicked).value.body) && offset == Some(Identify(clicked).value.offset)
      ensures Identify(clicked).None? ==> b == None && offset == old(offset)
    {
      if clicked == PlanetMesh(Mercury) {
        offset := Some(10.0);
        return Some(Mercury);
      } else if clicked == VenusAtmosphere {
        offset := Some(25.0);
        return Some(Venus);
      } else if clicked == EarthAtmosphere {
        offset := Some(25.0);
        return Some(Earth);
      } else if clicked == PlanetMesh(Mars) {
        offset := Some(15.0);
        return Some(Mars);
      } else if clicked == PlanetMesh(Jupiter) {
        offset := Some(50.0);
        return Some(Jupiter);
      } else if clicked == PlanetMesh(Saturn) {
        offset := Some(50.0);
        return Some(Saturn);
      } else if clicked == PlanetMesh(Uranus) {
        offset := Some(25.0);
        return Some(Uranus);
      } else if clicked == PlanetMesh(Neptune) {
        offset := Some(20.0);
        return Some(Neptune);
      } else if clicked == PlanetMesh(Pluto) {
        offset := Some(10.0);
        return Some(Pluto);
      }
      return None;
    }

    /** `showPlanetInfo`. */
    method ShowPlanetInfo(name: string)
      modifies this`panel
      ensures panel == Panel(true, Some(InfoFor(name)))
    {
      if name in PlanetDataKeys {
        panel := panel.(card := Some(Card(name, CardImage(name))));
      } else {
        panel := panel.(card := Some(Loading(name)));
      }
      panel := panel.(visible := true);
    }

    /** `closeInfo`. */
    method CloseInfo()
      modifies this`panel, this`settings, this`isZoomingOut, this`controls
      ensures Snapshot() == CloseInfoState(old(Snapshot()))
    {
      panel := panel.(visible := false);
      settings := settings.(time := settings.time.(accelerationOrbit := 1.0));
      isZoomingOut := true;
      controls := controls.(target := Origin);
    }

    /** `closeInfoNoZoomOut`. */
    method CloseInfoNoZoomOut()
      modifies this`panel, this`settings
      ensures Snapshot() == CloseInfoNoZoomOutState(old(Snapshot()))
    {
      panel := panel.(visible := false);
      settings := settings.(time := settings.time.(accelerationOrbit := 1.0));
    }

    /**
      `onDocumentMouseDown`, given the nearest hit, the world position of
      the body it belongs to and the camera's distance from that body.
     */
    method MouseDown(hit: Option<Surface>, planetPosition: Vec3, len: real)
      requires IsDistance(Snapshot(), planetPosition, len)
      modifies this`selectedPlanet, this`offset, this`panel, this`controls, this`targetCameraPosition
      modifies this`isMovingTowardsPlanet, this`settings
      ensures Snapshot() == MouseDownState(old(Snapshot()), hit, planetPosition, len)
    {
      if hit.Some? {
        var b := IdentifyPlanet(hit.value);
        selectedPlanet := b;
        if selectedPlanet.Some? {
          var toward := Normalize(Sub(camera, planetPosition), len);
          Focus(planetPosition, toward, offset.value);
        }
      }
    }

    /** The `if (selectedPlanet)` block of `onDocumentMouseDown`, with the stored offset as `distance`. */
    method Focus(planetPosition: Vec3, toward: Vec3, distance: real)
      modifies this`panel, this`settings, this`controls, this`targetCameraPosition, this`isMovingTowardsPlanet
      ensures Snapshot() == FocusState(old(Snapshot()), planetPosition, toward, distance)
    {
      CloseInfoNoZoomOut();
      settings := settings.(time := settings.time.(accelerationOrbit := 0.0));
      controls := controls.(target := planetPosition);
      targetCameraPosition := Add(planetPosition, Scale(toward, distance));
      isMovingTowardsPlanet := true;
    }

    /**
      One `animate` call, given the nearest hit under the pointer and the
      cosine and sine of the asteroids' turn for this frame.  It runs only
      while frames are requested.
     */
    method Animate(hover: Option<Surface>, turnCos: real, turnSin: real)
      requires Valid() && looping && IsTurn(settings.time, turnCos, turnSin)
      modifies this
      ensures Valid() && Snapshot() == Frame(old(Snapshot()), hover, turnCos, turnSin)
    {
      if settings.time.pause {
        return;
      }
      ghost var s0 := Snapshot();
      var v := settings.time;
      RotateBodies();
      RotateAsteroids(turnCos, turnSin);
      HighlightHovered(hover);
      assert Snapshot() == s0.(sunSpin := s0.sunSpin + SunSpinRate * v.acceleration * v.timeSpeed,
        planets := AdvanceBodies(s0.planets, v),
        asteroids := AdvanceAll(s0.asteroids, v.timeSpeed, turnCos, turnSin),
        outline := s0.outline.(selected := OutlineTarget(hover)));
      Zoom();
    }

    /**
      The `rotateY` calls on the sun and on every body, its atmosphere and
      its pivot: separate statements in the script, a loop over the bodies here.
     */
    method RotateBodies()
      requires Valid()
      modifies this`sunSpin, this`planets
      ensures Valid()
      ensures sunSpin == old(sunSpin) + SunSpinRate * settings.time.acceleration * settings.time.timeSpeed
      ensures planets == AdvanceBodies(old(planets), settings.time)
    {
      var v := settings.time;
      sunSpin := sunSpin + SunSpinRate * v.acceleration * v.timeSpeed;
      var before := planets;
      var i := 0;
      while i < |planets|
        invariant 0 <= i <= |planets| == |before|
        invariant sunSpin == old(sunSpin) + SunSpinRate * v.acceleration * v.timeSpeed
        invariant forall j :: 0 <= j < i ==> planets[j] == AdvancePlanet(before[j], AllBodies[j], v)
        invariant forall j :: i <= j < |planets| ==> planets[j] == before[j]
      {
        planets := planets[i := AdvancePlanet(planets[i], AllBodies[i], v)];
        i := i + 1;
      }
    }

    /** `asteroids.forEach(...)` of `animate`. */
    method RotateAsteroids(turnCos: real, turnSin: real)
      modifies this`asteroids
      ensures asteroids == AdvanceAll(old(asteroids), settings.time.timeSpeed, turnCos, turnSin)
    {
      var tm := settings.time.timeSpeed;
      var before := asteroids;
      var i := 0;
      while i < |asteroids|
        invariant 0 <= i <= |asteroids| == |before|
        invariant forall j :: 0 <= j < i ==> asteroids[j] == Advance(before[j], tm, turnCos, turnSin)
        invariant forall j :: i <= j < |asteroids| ==> asteroids[j] == before[j]
      {
        asteroids := asteroids[i := Advance(asteroids[i], tm, turnCos, turnSin)];
        i := i + 1;
      }
    }

    /** The outline block of `animate`, for the nearest hit under the pointer. */
    method HighlightHovered(hover: Option<Surface>)
      modifies this`outlinePass
      ensures outlinePass == old(outlinePass).(selected := OutlineTarget(hover))
    {
      outlinePass := outlinePass.(selected := []);
      if hover.Some? {
        var h := hover.value;
        if h == EarthAtmosphere {
          outlinePass := outlinePass.(selected := [PlanetMesh(Earth)]);
        } else if h == VenusAtmosphere {
          outlinePass := outlinePass.(selected := [PlanetMesh(Venus)]);
        } else {
          outlinePass := outlinePass.(selected := [h]);
        }
      }
    }

    /** The zoom block of `animate`. */
    method Zoom()
      modifies this`camera, this`isMovingTowardsPlanet, this`isZoomingOut, this`panel, this`looping
      ensures Snapshot() == ZoomState(old(Snapshot()))
    {
      if isMovingTowardsPlanet {
        camera := Lerp(camera, targetCameraPosition, ApproachFactor);
        if DistSq(camera, targetCameraPosition) < 1.0 {
          isMovingTowardsPlanet := false;
          if selectedPlanet.None? {
            looping := false;
            return;
          }
          ShowPlanetInfo(Name(selectedPlanet.value));
        }
      } else if isZoomingOut {
        camera := Lerp(camera, Overview, ZoomOutFactor);
        if DistSq(camera, Overview) < 1.0 {
          isZoomingOut := false;
        }
      }
    }

    /**
      `loadAsteroids` once the pack has arrived: every mesh of the pack is
      cloned while `i < n / 12`, each clone from its own draws.
     */
    method LoadAsteroids(meshes: seq<PackMesh>, draws: seq<seq<Draw>>, n: nat, minRadius: real, maxRadius: real)
      requires minRadius <= maxRadius && DrawsFit(meshes, draws, n)
      modifies this`asteroids
      ensures Snapshot() == LoadAsteroidsState(old(Snapshot()), meshes, draws, n, minRadius, maxRadius)
    {
      var j := 0;
      while j < |meshes|
        invariant 0 <= j <= |meshes|
        invariant asteroids == old(asteroids) + PackClones(meshes[..j], draws[..j], n, minRadius, maxRadius)
      {
        var i := 0;
        while 12 * i < n
          invariant 0 <= i <= CloneCount(n)
          invariant asteroids == old(asteroids) + PackClones(meshes[..j], draws[..j], n, minRadius, maxRadius)
            + MeshClones(meshes[j], draws[j][..i], minRadius, maxRadius)
        {
          var asteroid := CloneOf(meshes[j], draws[j][i], minRadius, maxRadius);
          assert draws[j][..i + 1] == draws[j][..i] + [draws[j][i]];
          asteroids := asteroids + [asteroid];
          i := i + 1;
        }
        assert draws[j][..i] == draws[j];
        assert meshes[..j + 1][..j] == meshes[..j];
        assert draws[..j + 1][..j] == draws[..j];
        j := j + 1;
      }
      assert meshes[..j] == meshes;
      assert draws[..j] == draws;
    }

    /** A control-panel change: the settings write, then the knob's `onChange` handler. */
    method OnChange(c: Change, flipped: set<nat>)
      requires Valid() && ChangeInRange(c) && IsFlipSet(planets, flipped)
      modifies this`settings, this`planets, this`controls, this`lights, this`bloomPass, this`outlinePass, this`asteroids
      ensures Valid() && Snapshot() == ChangeState(old(Snapshot()), c, flipped)
    {
      settings := Assign(settings, c);
      match c
      case Time(k) => OnTimeChange(k, flipped);
      case Camera(k) => OnCameraChange(k);
      case Light(k) => OnLightChange(k);
      case Effect(k) => OnEffectChange(k);
      case Display(k) => OnDisplayChange(k);
    }

    /** The time folder's `onChange` handlers. */
    method OnTimeChange(k: TimeChange, flipped: set<nat>)
      modifies this`planets
      ensures Snapshot() == TimeHandler(old(Snapshot()), k, flipped)
    {
      if k.OrbitSpeed? {
        ResetOrbitAngles(flipped);
      }
    }

    /** The camera folder's `onChange` handlers. */
    method OnCameraChange(k: CameraChange)
      requires ChangeInRange(Camera(k))
      modifies this`controls
      ensures Snapshot() == CameraHandler(old(Snapshot()), k)
    {
      match k
      case CameraSpeed(x) => controls := controls.(dampingFactor := 0.75 / x);
      case AutoRotate(b) => controls := controls.(autoRotate := b);
      case ZoomSpeed(x) => controls := controls.(zoomSpeed := x);
    }

    /** The light folder's `onChange` handlers. */
    method OnLightChange(k: LightChange)
      modifies this`lights
      ensures Snapshot() == LightHandler(old(Snapshot()), k)
    {
      match k
      case SunIntensity(x) => lights := lights.(sunEmissive := x);
      case AmbientLight(x) => lights := lights.(ambient := x);
      case PointLight(x) => lights := lights.(pointLight := x);
      case Shadows(b) => lights := lights.(shadows := b);
    }

    /** The effects folder's `onChange` handlers. */
    method OnEffectChange(k: EffectChange)
      modifies this`bloomPass, this`outlinePass
      ensures Snapshot() == EffectHandler(old(Snapshot()), k)
    {
      match k
      case BloomEnabled(b) => bloomPass := bloomPass.(enabled := b);
      case BloomThreshold(x) => bloomPass := bloomPass.(threshold := x);
      case BloomRadius(x) => bloomPass := bloomPass.(radius := x);
      case BloomStrength(x) => bloomPass := bloomPass.(strength := x);
      case OutlineEnabled(b) => outlinePass := outlinePass.(enabled := b);
      case OutlineStrength(x) => outlinePass := outlinePass.(edgeStrength := x);
    }

    /** The display folder's `onChange` handlers. */
    method OnDisplayChange(k: DisplayChange)
      modifies this`planets, this`asteroids
      ensures Snapshot() == DisplayHandler(old(Snapshot()), k)
    {
      match k
      case ShowOrbits(b) => ShowOrbitPaths(b);
      case ShowLabels(_) =>
      case ShowAsteroids(b) => ShowAsteroidBelts(b);
      case Wireframe(b) => ShowWireframe(b);
    }

    /**
      The orbit-speed handler: the nine `planet3d.rotation.y = 0` writes,
      one statement per pivot in the script, a loop here.
     */
    method ResetOrbitAngles(flipped: set<nat>)
      modifies this`planets
      ensures planets == ClearPivots(old(planets), flipped)
    {
      var before := planets;
      var i := 0;
      while i < |planets|
        invariant 0 <= i <= |planets| == |before|
        invariant forall j :: 0 <= j < i ==> planets[j] == before[j].(orbit := if j in flipped then HalfTurn else 0.0)
        invariant forall j :: i <= j < |planets| ==> planets[j] == before[j]
      {
        planets := planets[i := planets[i].(orbit := if i in flipped then HalfTurn else 0.0)];
        i := i + 1;
      }
    }

    /** The `showOrbits` handler: `planets.forEach` over the orbit lines. */
    method ShowOrbitPaths(b: bool)
      modifies this`planets
      ensures planets == WithOrbitPaths(old(planets), b)
    {
      var before := planets;
      var i := 0;
      while i < |planets|
        invariant 0 <= i <= |planets| == |before|
        invariant forall j :: 0 <= j < i ==> planets[j] == before[j].(orbitVisible := b)
        invariant forall j :: i <= j < |planets| ==> planets[j] == before[j]
      {
        planets := planets[i := planets[i].(orbitVisible := b)];
        i := i + 1;
      }
    }

    /** The `showAsteroids` handler: `asteroids.forEach` over the current list. */
    method ShowAsteroidBelts(b: bool)
      modifies this`asteroids
      ensures asteroids == SetVisible(old(asteroids), b)
    {
      var before := asteroids;
      var i := 0;
      while i < |asteroids|
        invariant 0 <= i <= |asteroids| == |before|
        invariant forall j :: 0 <= j < i ==> asteroids[j] == before[j].(visible := b)
        invariant forall j :: i <= j < |asteroids| ==> asteroids[j] == before[j]
      {
        asteroids := asteroids[i := asteroids[i].(visible := b)];
        i := i + 1;
      }
    }

    /** The `wireframe` handler: `planets.forEach` over the planet materials. */
    method ShowWireframe(b: bool)
      modifies this`planets
      ensures planets == WithWireframe(old(planets), b)
    {
      var before := planets;
      var i := 0;
      while i < |planets|
        invariant 0 <= i <= |planets| == |before|
        invariant forall j :: 0 <= j < i ==> planets[j] == before[j].(wireframe := b)
        invariant forall j :: i <= j < |planets| ==> planets[j] == before[j]
      {
        planets := planets[i := planets[i].(wireframe := b)];
        i := i + 1;
      }
    }
  }
}
