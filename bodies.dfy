/**
  The nine orbiting bodies, the surfaces the pointer ray is cast against, and
  the lookup tables keyed by them: display names, per-frame rates, the camera
  offset chosen when a body is picked, the outline target of a hovered
  surface and the image shown on the information card.
 */
module Bodies {
  import opened Optional

  datatype Body = Mercury | Venus | Earth | Mars | Jupiter | Saturn | Uranus | Neptune | Pluto

  /** The order of the `planets` arrays of the orbit-path and wireframe handlers. */
  const AllBodies: seq<Body> := [Mercury, Venus, Earth, Mars, Jupiter, Saturn, Uranus, Neptune, Pluto]

  /** The display name each body is created with. */
  function Name(b: Body): string {
    match b
    case Mercury => "Merkür"
    case Venus => "Venüs"
    case Earth => "Dünya"
    case Mars => "Mars"
    case Jupiter => "Jüpiter"
    case Saturn => "Satürn"
    case Uranus => "Uranüs"
    case Neptune => "Neptün"
    case Pluto => "Plüton"
  }

  /** Sphere radius passed to `createPlanet`. */
  function Radius(b: Body): real {
    match b
    case Mercury => 2.4
    case Venus => 6.1
    case Earth => 6.4
    case Mars => 3.4
    case Jupiter => 69.0 / 4.0
    case Saturn => 58.0 / 4.0
    case Uranus => 25.0 / 4.0
    case Neptune => 24.0 / 4.0
    case Pluto => 1.0
  }

  /**
    Radius of everything rendered around the body's centre: the
    atmosphere shell (radius + 0.1) or the ring's outer edge.
   */
  function OuterRadius(b: Body): (r: real)
    ensures Radius(b) <= r
  {
    match b
    case Venus => Radius(Venus) + 0.1
    case Earth => Radius(Earth) + 0.1
    case Saturn => 29.0
    case Uranus => 8.0
    case _ => Radius(b)
  }

  predicate HasAtmosphere(b: Body) {
    b == Venus || b == Earth
  }

  /** Base rate of the body's own spin per frame (`planet.rotateY`). */
  function SpinRate(b: Body): real {
    match b
    case Mercury => 0.001
    case Venus => 0.0005
    case Earth => 0.005
    case Mars => 0.01
    case Jupiter => 0.005
    case Saturn => 0.01
    case Uranus => 0.005
    case Neptune => 0.005
    case Pluto => 0.001
  }

  /** Base rate of the orbital pivot per frame (`planet3d.rotateY`). */
  function OrbitRate(b: Body): real {
    match b
    case Mercury => 0.004
    case Venus => 0.0006
    case Earth => 0.001
    case Mars => 0.0007
    case Jupiter => 0.0003
    case Saturn => 0.0002
    case Uranus => 0.0001
    case Neptune => 0.00008
    case Pluto => 0.00006
  }

  /** Base rate of the atmosphere shell's spin (`Atmosphere.rotateY`). */
  function AtmosphereRate(b: Body): real
    requires HasAtmosphere(b)
  {
    if b == Venus then 0.0005 else 0.001
  }

  /** Base rate of the sun's spin (`sun.rotateY`). */
  const SunSpinRate: real := 0.001

  /** Distance from the body at which the camera settles after a pick. */
  function CameraOffset(b: Body): real {
    match b
    case Mercury => 10.0
    case Venus => 25.0
    case Earth => 25.0
    case Mars => 15.0
    case Jupiter => 50.0
    case Saturn => 50.0
    case Uranus => 25.0
    case Neptune => 20.0
    case Pluto => 10.0
  }

  /**
    The eleven objects in `raycastTargets`: the nine planet meshes and the two
    atmosphere shells.  A ray-cast hit is always one of them.
   */
  datatype Surface = PlanetMesh(body: Body) | VenusAtmosphere | EarthAtmosphere

  /** The body a surface belongs to. */
  function Owner(s: Surface): Body {
    match s
    case PlanetMesh(b) => b
    case VenusAtmosphere => Venus
    case EarthAtmosphere => Earth
  }

  /**
    The surfaces `identifyPlanet` recognises by their material: every planet
    mesh except Venus's and Earth's, whose atmosphere shell is compared instead.
   */
  predicate Recognised(s: Surface) {
    match s
    case PlanetMesh(b) => !HasAtmosphere(b)
    case _ => true
  }

  /** The one surface whose click selects `b`. */
  function ClickSurface(b: Body): (s: Surface)
    ensures Recognised(s) && Owner(s) == b
  {
    match b
    case Venus => VenusAtmosphere
    case Earth => EarthAtmosphere
    case _ => PlanetMesh(b)
  }

  /** A recognised click: the body and the camera distance `identifyPlanet` stores in `offset`. */
  datatype Pick = Pick(body: Body, offset: real)

  /**
    `identifyPlanet`'s chain of material comparisons.  Every mesh has a
    material of its own, so comparing materials is comparing surfaces.
   */
  function Identify(hit: Surface): (p: Option<Pick>)
    ensures p.Some? <==> Recognised(hit)
    ensures p.Some? ==> p.value == Pick(Owner(hit), CameraOffset(Owner(hit)))
  {
    if hit == PlanetMesh(Mercury) then Some(Pick(Mercury, 10.0))
    else if hit == VenusAtmosphere then Some(Pick(Venus, 25.0))
    else if hit == EarthAtmosphere then Some(Pick(Earth, 25.0))
    else if hit == PlanetMesh(Mars) then Some(Pick(Mars, 15.0))
    else if hit == PlanetMesh(Jupiter) then Some(Pick(Jupiter, 50.0))
    else if hit == PlanetMesh(Saturn) then Some(Pick(Saturn, 50.0))
    else if hit == PlanetMesh(Uranus) then Some(Pick(Uranus, 25.0))
    else if hit == PlanetMesh(Neptune) then Some(Pick(Neptune, 20.0))
    else if hit == PlanetMesh(Pluto) then Some(Pick(Pluto, 10.0))
    else None
  }

  /** Clicking a body's own surface picks it; Venus's and Earth's bare meshes pick nothing. */
  lemma IdentifyEveryBody(b: Body)
    ensures Identify(ClickSurface(b)) == Some(Pick(b, CameraOffset(b)))
    ensures Identify(PlanetMesh(b)).None? <==> HasAtmosphere(b)
  {
  }

  /**
    `outlinePass.selectedObjects` for the nearest hovered surface: nothing for
    no hit, the owning planet mesh for an atmosphere shell, the hit itself
    otherwise.
   */
  function OutlineTarget(hover: Option<Surface>): (sel: seq<Surface>)
    ensures hover.None? <==> sel == []
    ensures hover.Some? ==> sel == [PlanetMesh(Owner(hover.value))]
  {
    if hover.None? then []
    else if hover.value == EarthAtmosphere then [PlanetMesh(Earth)]
    else if hover.value == VenusAtmosphere then [PlanetMesh(Venus)]
    else [hover.value]
  }

  /** The keys of `planetData`. */
  const PlanetDataKeys: set<string> :=
    {"Merkür", "Venüs", "Dünya", "Mars", "Jüpiter", "Satürn", "Uranüs", "Neptün", "Plüton"}

  /** The image file that `showPlanetInfo`'s switch picks for a name, with its fallback. */
  function CardImage(name: string): (file: string)
    ensures name !in PlanetDataKeys ==> file == "earth.png"
  {
    if name == "Merkür" then "mercury.webp"
    else if name == "Venüs" then "venus.jpg"
    else if name == "Dünya" then "earth.png"
    else if name == "Mars" then "mars.jpg"
    else if name == "Jüpiter" then "jupiter.webp"
    else if name == "Satürn" then "saturn.webp"
    else if name == "Uranüs" then "uranus.webp"
    else if name == "Neptün" then "neptune.webp"
    else if name == "Plüton" then "pluto.webp"
    else "earth.png"
  }

  /** What the information panel shows for a name. */
  datatype InfoCard = Card(title: string, image: string) | Loading(title: string)

  /** `showPlanetInfo`: a card for a name with data, a loading note otherwise. */
  function InfoFor(name: string): (c: InfoCard)
    ensures c.title == name
    ensures c.Card? <==> name in PlanetDataKeys
  {
    if name in PlanetDataKeys then Card(name, CardImage(name)) else Loading(name)
  }

  /** Names identify bodies. */
  lemma NamesDistinct(b1: Body, b2: Body)
    ensures Name(b1) == Name(b2) <==> b1 == b2
  {
  }

  /** The bodies' display names are exactly the keys of `planetData`. */
  lemma NamesAreDataKeys(name: string)
    ensures name in PlanetDataKeys <==> exists b :: Name(b) == name
  {
    if name in PlanetDataKeys {
      var b :| b in AllBodies && Name(b) == name;
    }
  }

  /** Every body gets its own card image, and never the fallback branch of the switch. */
  lemma CardImagesDistinct(b1: Body, b2: Body)
    ensures CardImage(Name(b1)) == CardImage(Name(b2)) <==> b1 == b2
    ensures InfoFor(Name(b1)) == Card(Name(b1), CardImage(Name(b1)))
  {
    NamesAreDataKeys(Name(b1));
  }

  /** `ClickSurface` is the only recognised surface of each body. */
  lemma RecognisedSurfaceUnique(s: Surface)
    requires Recognised(s)
    ensures s == ClickSurface(Owner(s))
  {
  }

  /** A picked body is approached to a distance that clears its sphere, atmosphere and ring. */
  lemma OffsetClearsBody(b: Body)
    ensures OuterRadius(b) < CameraOffset(b)
  {
  }
}
