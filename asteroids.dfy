/**
  The asteroid belts: the clones `loadAsteroids` makes of every mesh of
  the asteroid pack, and the per-frame update `animate` applies to each
  of them.  `Math.random()` draws and the cosine and sine of the angles
  are inputs, so the clones and the update are functions of them.
 */
module Asteroids {
  import opened Vectors

  /** A clone in `asteroids`: `position`, `rotation.y`, the uniform scale and `visible`. */
  datatype Asteroid = Asteroid(position: Vec3, spin: real, scale: real, visible: bool)

  /** What a clone inherits from the pack mesh it is cloned from. */
  datatype PackMesh = PackMesh(spin: real, visible: bool)

  /**
    The draws behind one clone: the `Math.random()` values of the radius
    and of the scale `randFloat`, and the cosine and sine of the angle
    `Math.random() * 2 * PI`.
   */
  datatype Draw = Draw(radiusDraw: real, angleCos: real, angleSin: real, scaleDraw: real)

  /** What `Math.random`, `Math.cos` and `Math.sin` can return. */
  predicate ValidDraw(d: Draw) {
    && 0.0 <= d.radiusDraw < 1.0
    && 0.0 <= d.scaleDraw < 1.0
    && d.angleCos * d.angleCos + d.angleSin * d.angleSin == 1.0
  }

  /** `THREE.MathUtils.randFloat(low, high)` for the draw `u`. */
  function RandFloat(low: real, high: real, u: real): (r: real)
    requires low <= high && 0.0 <= u < 1.0
    ensures low <= r <= high
    ensures low < high ==> r < high
  {
    var w := high - low;
    var p := u * w;
    Between(u, w, p);
    low + p
  }

  lemma Between(u: real, w: real, p: real)
    requires 0.0 <= u < 1.0 && 0.0 <= w && p == u * w
    ensures 0.0 <= p <= w
    ensures 0.0 < w ==> p < w
  {
    ShrinkingFactor(u, w);
    if 0.0 < w {
      StrictScale(w, u, 1.0);
    }
  }

  /**
    The number of passes of `for (let i = 0; i < n / 12; i++)`: `i` runs
    over the naturals with `12 * i < n`, so the count is `n / 12` rounded up.
   */
  function CloneCount(n: nat): (c: nat)
    ensures n <= 12 * c
    ensures c == 0 || 12 * (c - 1) < n
  {
    (n + 11) / 12
  }

  /** The two belts of the scene: 1000 and 3000 asteroids requested. */
  lemma BeltCounts()
    ensures CloneCount(1000) == 84
    ensures CloneCount(3000) == 250
  {
  }

  /** The clone made for one draw: on the plane y = 0, at the drawn radius and angle. */
  function CloneOf(mesh: PackMesh, d: Draw, minRadius: real, maxRadius: real): (a: Asteroid)
    requires minRadius <= maxRadius && ValidDraw(d)
    ensures a.position.y == 0.0
    ensures a.spin == mesh.spin && a.visible == mesh.visible
    ensures 0.8 <= a.scale <= 1.2
  {
    var r := RandFloat(minRadius, maxRadius, d.radiusDraw);
    Asteroid(Vec3(r * d.angleCos, 0.0, r * d.angleSin), mesh.spin, RandFloat(0.8, 1.2, d.scaleDraw), mesh.visible)
  }

  /** A clone lies at its drawn orbit radius, inside the belt. */
  lemma CloneOnBelt(mesh: PackMesh, d: Draw, minRadius: real, maxRadius: real)
    requires minRadius <= maxRadius && ValidDraw(d)
    ensures var a := CloneOf(mesh, d, minRadius, maxRadius);
      var r := RandFloat(minRadius, maxRadius, d.radiusDraw);
      && minRadius <= r <= maxRadius
      && NormSq(a.position) == r * r
  {
    var r := RandFloat(minRadius, maxRadius, d.radiusDraw);
    var c, s := d.angleCos, d.angleSin;
    assert (r * c) * (r * c) + 0.0 * 0.0 + (r * s) * (r * s) == (r * r) * (c * c + s * s);
  }

  predicate ValidDraws(draws: seq<Draw>) {
    forall i :: 0 <= i < |draws| ==> ValidDraw(draws[i])
  }

  /** The clones one pack mesh contributes, in loop order. */
  function MeshClones(mesh: PackMesh, draws: seq<Draw>, minRadius: real, maxRadius: real): (cs: seq<Asteroid>)
    requires minRadius <= maxRadius && ValidDraws(draws)
    ensures |cs| == |draws|
    ensures forall i :: 0 <= i < |draws| ==> cs[i] == CloneOf(mesh, draws[i], minRadius, maxRadius)
  {
    seq(|draws|, i requires 0 <= i < |draws| => CloneOf(mesh, draws[i], minRadius, maxRadius))
  }

  /** One draw sequence per pack mesh, each as long as the loop runs. */
  predicate DrawsFit(meshes: seq<PackMesh>, draws: seq<seq<Draw>>, n: nat) {
    && |draws| == |meshes|
    && forall j :: 0 <= j < |draws| ==> |draws[j]| == CloneCount(n) && ValidDraws(draws[j])
  }

  /**
    What one `loadAsteroids` call appends to `asteroids`: the clones of
    every mesh of the pack, in traversal order.
   */
  function PackClones(meshes: seq<PackMesh>, draws: seq<seq<Draw>>, n: nat, minRadius: real, maxRadius: real): seq<Asteroid>
    requires minRadius <= maxRadius && DrawsFit(meshes, draws, n)
    decreases |meshes|
  {
    if |meshes| == 0 then []
    else
      var k := |meshes| - 1;
      PackClones(meshes[..k], draws[..k], n, minRadius, maxRadius) + MeshClones(meshes[k], draws[k], minRadius, maxRadius)
  }

  /** Every pack mesh adds exactly `CloneCount(n)` clones. */
  lemma {:induction false} PackClonesLength(meshes: seq<PackMesh>, draws: seq<seq<Draw>>, n: nat, minRadius: real, maxRadius: real)
    requires minRadius <= maxRadius && DrawsFit(meshes, draws, n)
    ensures |PackClones(meshes, draws, n, minRadius, maxRadius)| == |meshes| * CloneCount(n)
    decreases |meshes|
  {
    if |meshes| > 0 {
      var k := |meshes| - 1;
      PackClonesLength(meshes[..k], draws[..k], n, minRadius, maxRadius);
      assert |meshes| * CloneCount(n) == k * CloneCount(n) + CloneCount(n);
    }
  }

  /**
    Together with `PackClonesLength`, the whole of what one pack appends:
    the clones come in blocks of `CloneCount(n)`, one block per mesh, and
    clone `i` of the block of mesh `j` is made from that mesh and its own
    `i`-th draw.
   */
  lemma {:induction false} PackClonesAt(meshes: seq<PackMesh>, draws: seq<seq<Draw>>, n: nat, minRadius: real, maxRadius: real, j: nat, i: nat)
    requires minRadius <= maxRadius && DrawsFit(meshes, draws, n)
    requires j < |meshes| && i < CloneCount(n)
    ensures j * CloneCount(n) + i < |PackClones(meshes, draws, n, minRadius, maxRadius)|
    ensures PackClones(meshes, draws, n, minRadius, maxRadius)[j * CloneCount(n) + i]
      == CloneOf(meshes[j], draws[j][i], minRadius, maxRadius)
    decreases |meshes|
  {
    var k := |meshes| - 1;
    var c := CloneCount(n);
    PackClonesLength(meshes, draws, n, minRadius, maxRadius);
    PackClonesLength(meshes[..k], draws[..k], n, minRadius, maxRadius);
    RowBound(j, i, c, |meshes|);
    if j < k {
      PackClonesAt(meshes[..k], draws[..k], n, minRadius, maxRadius, j, i);
    } else {
      assert j * c == k * c;
    }
  }

  lemma RowBound(j: nat, i: nat, c: nat, k: nat)
    requires j < k && i < c
    ensures j * c + i < k * c
  {
    assert (j + 1) * c <= k * c;
  }

  /** Every clone of a belt sits on the plane y = 0 and has a scale in [0.8, 1.2]. */
  lemma {:induction false} PackClonesFlat(meshes: seq<PackMesh>, draws: seq<seq<Draw>>, n: nat, minRadius: real, maxRadius: real)
    requires minRadius <= maxRadius && DrawsFit(meshes, draws, n)
    ensures forall a :: a in PackClones(meshes, draws, n, minRadius, maxRadius) ==>
      a.position.y == 0.0 && 0.8 <= a.scale <= 1.2
    decreases |meshes|
  {
    if |meshes| > 0 {
      var k := |meshes| - 1;
      PackClonesFlat(meshes[..k], draws[..k], n, minRadius, maxRadius);
    }
  }

  /**
    The x/z update of one asteroid in a frame, for `c` and `s` the cosine
    and sine of `0.0001 * accelerationOrbit * timeMultiplier`.  The new z
    is computed from the already updated x.
   */
  function Advance(a: Asteroid, timeMultiplier: real, c: real, s: real): (b: Asteroid)
    ensures b.position.y == a.position.y && b.scale == a.scale && b.visible == a.visible
    ensures b.spin == a.spin + 0.0001 * timeMultiplier
  {
    var x := a.position.x * c + a.position.z * s;
    var z := a.position.z * c - x * s;
    a.(position := Vec3(x, a.position.y, z), spin := a.spin + 0.0001 * timeMultiplier)
  }

  /** With no orbital speed the angle is 0, so cos = 1, sin = 0 and the asteroid stays where it is. */
  lemma AdvanceAtRest(a: Asteroid, timeMultiplier: real)
    ensures Advance(a, timeMultiplier, 1.0, 0.0).position == a.position
  {
  }

  /**
    Because z uses the updated x, the update is not a rotation: for the
    angle with cos 0.6 and sin 0.8 the point (1, 0, 0) moves to
    (0.6, 0, -0.48), off the unit circle.
   */
  lemma AdvanceIsNotARotation()
    ensures var a := Asteroid(Vec3(1.0, 0.0, 0.0), 0.0, 1.0, true);
      var b := Advance(a, 1.0, 0.6, 0.8);
      && b.position == Vec3(0.6, 0.0, -0.48)
      && NormSq(b.position) != NormSq(a.position)
  {
    var a := Asteroid(Vec3(1.0, 0.0, 0.0), 0.0, 1.0, true);
    var b := Advance(a, 1.0, 0.6, 0.8);
    assert b.position == Vec3(0.6, 0.0, -0.48);
    assert NormSq(b.position) == 0.36 + 0.0 + 0.2304;
    assert NormSq(a.position) == 1.0;
  }

  /** `asteroids.forEach(...)` of one frame. */
  function AdvanceAll(asteroids: seq<Asteroid>, timeMultiplier: real, c: real, s: real): (bs: seq<Asteroid>)
    ensures |bs| == |asteroids|
    ensures forall i :: 0 <= i < |asteroids| ==> bs[i] == Advance(asteroids[i], timeMultiplier, c, s)
  {
    seq(|asteroids|, i requires 0 <= i < |asteroids| => Advance(asteroids[i], timeMultiplier, c, s))
  }

  /** The `showAsteroids` toggle: every current asteroid gets the value, nothing else changes. */
  function SetVisible(asteroids: seq<Asteroid>, v: bool): (bs: seq<Asteroid>)
    ensures |bs| == |asteroids|
    ensures forall i :: 0 <= i < |asteroids| ==> bs[i] == asteroids[i].(visible := v)
  {
    seq(|asteroids|, i requires 0 <= i < |asteroids| => asteroids[i].(visible := v))
  }
}
