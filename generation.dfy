/**
 * Procedural generation of the two particle systems: the star field
 * (`createStars`) and the energy streams (`createEnergyStreams` /
 * `createEnergyStream`). Each Math.random() value the source draws is an
 * explicit `Unit` input; the buffers the source fills are arrays.
 */
module Generation {
  import opened Numbers
  import opened ZenElements

  // ---------------------------------------------------------------------
  // Star field
  // ---------------------------------------------------------------------

  /** The four star colours. */
  const StarPalette: seq<int> := [0xffffff, 0xeeeeff, 0xffffee, 0xeeffff]

  /** The six Math.random() values one star consumes, in the order they are drawn. */
  datatype StarDraw = StarDraw(radius: Unit, theta: Unit, phi: Unit, size: Unit, color: Unit, opacity: Unit)

  /** Distance of a star from the shell centre: `50 + random * 30`. */
  function StarRadius(u: Unit): (r: real)
    ensures 50.0 <= r < 80.0
  {
    50.0 + u * 30.0
  }

  /** `0.1 + random * 0.9`. */
  function StarSize(u: Unit): (s: real)
    ensures 0.1 <= s < 1.0
  {
    0.1 + u * 0.9
  }

  /** `0.2 + random * 0.8`. */
  function StarOpacity(u: Unit): (o: real)
    ensures 0.2 <= o < 1.0
  {
    0.2 + u * 0.8
  }

  /**
   * The per-star loop of `createStars`: one size, palette index and opacity
   * per draw, each within its range. (The x, y, z buffer, built
   * from sin/cos/acos of the angle draws, is not modelled.)
   */
  method CreateStars(draws: seq<StarDraw>) returns (sizes: array<real>, colorIndices: array<int>, opacities: array<real>)
    ensures fresh(sizes) && fresh(colorIndices) && fresh(opacities)
    ensures sizes.Length == |draws| && colorIndices.Length == |draws| && opacities.Length == |draws|
    ensures forall i :: 0 <= i < |draws| ==>
              && sizes[i] == StarSize(draws[i].size)
              && colorIndices[i] == PaletteIndex(draws[i].color, |StarPalette|)
              && opacities[i] == StarOpacity(draws[i].opacity)
    ensures forall i :: 0 <= i < |draws| ==>
              0.1 <= sizes[i] < 1.0 && 0 <= colorIndices[i] < |StarPalette| && 0.2 <= opacities[i] < 1.0
  {
    sizes := new real[|draws|];
    colorIndices := new int[|draws|];
    opacities := new real[|draws|];
    for i := 0 to |draws|
      invariant forall k :: 0 <= k < i ==>
                  && sizes[k] == StarSize(draws[k].size)
                  && colorIndices[k] == PaletteIndex(draws[k].color, |StarPalette|)
                  && opacities[k] == StarOpacity(draws[k].opacity)
    {
      sizes[i] := StarSize(draws[i].size);
      colorIndices[i] := PaletteIndex(draws[i].color, |StarPalette|);
      opacities[i] := StarOpacity(draws[i].opacity);
    }
  }

  // ---------------------------------------------------------------------
  // Energy streams
  // ---------------------------------------------------------------------

  /** Stream `index` takes energy colour `index % 5`: always a palette entry. */
  function StreamColorIndex(index: nat): (k: nat)
    ensures k < |EnergyPalette|
    ensures index < |EnergyPalette| ==> k == index
  {
    index % |EnergyPalette|
  }

  /** The Math.random() values one stream draws besides its particles: the curve jitter, drawn before the particles, and the speed, drawn after them. */
  datatype CurveDraws = CurveDraws(jx: Unit, jy: Unit, jz: Unit, speed: Unit)

  /** The Math.random() values one stream particle consumes, in the order they are drawn. */
  datatype StreamDraw = StreamDraw(progress: Unit, sx: Unit, sy: Unit, sz: Unit, random: Unit)

  /** The curve's control point: the midpoint, jittered by up to 10 in x and y and 2.5 in z. */
  function ControlPoint(start: Vec3, target: Vec3, d: CurveDraws): (c: Vec3)
    ensures Abs(c.x - (start.x + target.x) / 2.0) <= 10.0
    ensures Abs(c.y - (start.y + target.y) / 2.0) <= 10.0
    ensures Abs(c.z - (start.z + target.z) / 2.0) <= 2.5
  {
    Vec3((start.x + target.x) / 2.0 + (d.jx - 0.5) * 20.0,
         (start.y + target.y) / 2.0 + (d.jy - 0.5) * 20.0,
         (start.z + target.z) / 2.0 + (d.jz - 0.5) * 5.0)
  }

  function Min3(a: real, b: real, c: real): real
  {
    if a <= b && a <= c then a else if b <= c then b else c
  }

  function Max3(a: real, b: real, c: real): real
  {
    if a >= b && a >= c then a else if b >= c then b else c
  }

  /**
   * One coordinate of the quadratic Bézier `(1-t)^2 p0 + 2(1-t)t p1 + t^2 p2`:
   * it starts at `p0`, ends at `p2`, and for `t` in [0, 1] never leaves the
   * range spanned by the three control values.
   */
  function BezierCoord(p0: real, p1: real, p2: real, t: real): (r: real)
    ensures t == 0.0 ==> r == p0
    ensures t == 1.0 ==> r == p2
    ensures 0.0 <= t <= 1.0 ==> Min3(p0, p1, p2) <= r <= Max3(p0, p1, p2)
  {
    if 0.0 <= t <= 1.0 then
      BezierHull(p0, p1, p2, t);
      (1.0 - t) * (1.0 - t) * p0 + 2.0 * (1.0 - t) * t * p1 + t * t * p2
    else
      (1.0 - t) * (1.0 - t) * p0 + 2.0 * (1.0 - t) * t * p1 + t * t * p2
  }

  /** The Bézier weights are non-negative and sum to one, so the point is a convex combination. */
  lemma BezierHull(p0: real, p1: real, p2: real, t: real)
    requires 0.0 <= t <= 1.0
    ensures var r := (1.0 - t) * (1.0 - t) * p0 + 2.0 * (1.0 - t) * t * p1 + t * t * p2;
            Min3(p0, p1, p2) <= r <= Max3(p0, p1, p2)
  {
    var s := 1.0 - t;
    var w0, w1, w2 := s * s, 2.0 * s * t, t * t;
    MulNonneg(s, s);
    MulNonneg(2.0 * s, t);
    MulNonneg(t, t);
    assert w0 + w1 + w2 == 1.0;
    ConvexAbove(w0, w1, w2, p0, p1, p2, Min3(p0, p1, p2));
    ConvexAbove(w0, w1, w2, -p0, -p1, -p2, -Max3(p0, p1, p2));
    assert w0 * -p0 + w1 * -p1 + w2 * -p2 == -(w0 * p0 + w1 * p1 + w2 * p2);
  }

  /** A convex combination of values at least `lo` is at least `lo`. */
  lemma ConvexAbove(w0: real, w1: real, w2: real, a: real, b: real, c: real, lo: real)
    requires 0.0 <= w0 && 0.0 <= w1 && 0.0 <= w2 && w0 + w1 + w2 == 1.0
    requires lo <= a && lo <= b && lo <= c
    ensures lo <= w0 * a + w1 * b + w2 * c
  {
    MulNonneg(w0, a - lo);
    MulNonneg(w1, b - lo);
    MulNonneg(w2, c - lo);
    assert w0 * a + w1 * b + w2 * c - lo == w0 * (a - lo) + w1 * (b - lo) + w2 * (c - lo);
  }

  function Bezier(p0: Vec3, p1: Vec3, p2: Vec3, t: real): (b: Vec3)
    ensures t == 0.0 ==> b == p0
    ensures t == 1.0 ==> b == p2
  {
    Vec3(BezierCoord(p0.x, p1.x, p2.x, t), BezierCoord(p0.y, p1.y, p2.y, t), BezierCoord(p0.z, p1.z, p2.z, t))
  }

  /** `2 * (1 - Math.pow(t, 0.5))`: wide at the start of the stream, narrowing towards its end. */
  function Spread(t: Unit, sqrt: real -> real): (s: real)
    requires IsSqrt(sqrt)
    ensures 0.0 < s <= 2.0
  {
    var root := sqrt(t);
    LessIffSquareLess(root, 1.0);
    2.0 * (1.0 - root)
  }

  /** The spread shrinks as the progress grows. */
  lemma SpreadShrinks(t1: Unit, t2: Unit, sqrt: real -> real)
    requires IsSqrt(sqrt) && t1 <= t2
    ensures Spread(t2, sqrt) <= Spread(t1, sqrt)
  {
    LessIffSquareLess(sqrt(t2), sqrt(t1));
  }

  /** `0.1 + Math.pow(t, 2) * 0.9`: from 0.1 at the start of the curve to 1.0 at its end. */
  function ParticleSize(t: real): (s: real)
    ensures 0.0 <= t <= 1.0 ==> 0.1 <= s <= 1.0
    ensures t == 0.0 ==> s == 0.1
    ensures t == 1.0 ==> s == 1.0
  {
    assert 0.0 <= t <= 1.0 ==> t * t <= 1.0 by {
      if 0.0 <= t <= 1.0 {
        MulNonneg(t, 1.0 - t);
      }
    }
    0.1 + Square(t) * 0.9
  }

  /** Particles grow as they progress along the stream. */
  lemma ParticleSizeGrows(t1: real, t2: real)
    requires 0.0 <= t1 <= t2
    ensures ParticleSize(t1) <= ParticleSize(t2)
  {
    LessIffSquareLess(t1, t2);
  }

  /** The `uSpeed` uniform: `0.2 + random * 0.1`. */
  function StreamSpeed(u: Unit): (v: real)
    ensures 0.2 <= v < 0.3
  {
    0.2 + u * 0.1
  }

  /** `(random - 0.5) * spread`: an offset within half the spread either way. */
  function Jitter(u: Unit, spread: real): (j: real)
    requires 0.0 <= spread
    ensures Abs(j) <= spread / 2.0
  {
    var v := u - 0.5;
    MulNonneg(0.5 - v, spread);
    MulNonneg(v + 0.5, spread);
    v * spread
  }

  /** A particle: the curve point at its progress, offset by at most half the spread on each axis. */
  function StreamParticle(start: Vec3, control: Vec3, target: Vec3, d: StreamDraw, sqrt: real -> real): (p: Vec3)
    requires IsSqrt(sqrt)
    ensures var b := Bezier(start, control, target, d.progress);
            var half := Spread(d.progress, sqrt) / 2.0;
            Abs(p.x - b.x) <= half && Abs(p.y - b.y) <= half && Abs(p.z - b.z) <= half
  {
    var b := Bezier(start, control, target, d.progress);
    var spread := Spread(d.progress, sqrt);
    Vec3(b.x + Jitter(d.sx, spread), b.y + Jitter(d.sy, spread), b.z + Jitter(d.sz, spread))
  }

  /** The position stored for particle `i` in a flat x, y, z buffer. */
  function StoredPosition(positions: array<real>, i: nat): Vec3
    reads positions
    requires 3 * i + 2 < positions.Length
  {
    Vec3(positions[3 * i], positions[3 * i + 1], positions[3 * i + 2])
  }

  /**
   * The per-particle loop of `createEnergyStream`: positions (three floats
   * per particle), sizes, progresses and random phases, plus the stream's
   * speed uniform.
   */
  method CreateEnergyStream(start: Vec3, target: Vec3, curve: CurveDraws, draws: seq<StreamDraw>, sqrt: real -> real)
    returns (positions: array<real>, sizes: array<real>, progresses: array<real>, randoms: array<real>, speed: real)
    requires IsSqrt(sqrt)
    ensures fresh(positions) && fresh(sizes) && fresh(progresses) && fresh(randoms)
    ensures positions.Length == 3 * |draws|
    ensures sizes.Length == |draws| && progresses.Length == |draws| && randoms.Length == |draws|
    ensures speed == StreamSpeed(curve.speed)
    ensures forall i :: 0 <= i < |draws| ==>
              StoredPosition(positions, i) == StreamParticle(start, ControlPoint(start, target, curve), target, draws[i], sqrt)
    ensures forall i :: 0 <= i < |draws| ==>
              && sizes[i] == ParticleSize(draws[i].progress)
              && progresses[i] == draws[i].progress
              && randoms[i] == draws[i].random
  {
    var n := |draws|;
    positions := new real[3 * n];
    sizes := new real[n];
    progresses := new real[n];
    randoms := new real[n];
    var control := ControlPoint(start, target, curve);
    speed := StreamSpeed(curve.speed);
    for i := 0 to n
      invariant forall k :: 0 <= k < i ==>
                  StoredPosition(positions, k) == StreamParticle(start, control, target, draws[k], sqrt)
      invariant forall k :: 0 <= k < i ==>
                  sizes[k] == ParticleSize(draws[k].progress) && progresses[k] == draws[k].progress && randoms[k] == draws[k].random
    {
      var t := draws[i].progress;
      progresses[i] := t;
      var p := StreamParticle(start, control, target, draws[i], sqrt);
      StorePosition(positions, i, p);
      sizes[i] := ParticleSize(t);
      randoms[i] := draws[i].random;
    }
  }

  /** Writes one particle's x, y and z into the flat buffer, leaving every other particle as it was. */
  method StorePosition(positions: array<real>, i: nat, p: Vec3)
    requires 3 * i + 2 < positions.Length
    modifies positions
    ensures StoredPosition(positions, i) == p
    ensures forall k: nat :: 3 * k + 2 < positions.Length && k != i ==> StoredPosition(positions, k) == old(StoredPosition(positions, k))
  {
    positions[3 * i] := p.x;
    positions[3 * i + 1] := p.y;
    positions[3 * i + 2] := p.z;
  }
}
