/**
 * The persistent zen elements of the WebGL scene: mandalas, energy centers
 * and the two sacred-geometry groups. Each element is a record of its mesh
 * transform and its per-instance animation parameters (the mesh's
 * `userData`). The record is created once, from random draws, and then
 * advanced by one step function per frame, as `updateZenElements` does.
 */
module ZenElements {
  import opened Numbers
  import opened Wrappers

  datatype Vec3 = Vec3(x: real, y: real, z: real)

  /** Math.PI as a double. */
  const Pi: real := 3.141592653589793

  /** The five energy colours (blue, orange, cyan, gold, purple). */
  const EnergyPalette: seq<int> := [0x88aaff, 0xffaa88, 0xaaddff, 0xffdd88, 0xaa88ff]

  /** The seven chakra colours, root to crown. */
  const ChakraPalette: seq<int> := [0xff0000, 0xff7f00, 0xffff00, 0x00ff00, 0x0000ff, 0x4b0082, 0x9400d3]

  /** Easing factor of the mandala float. */
  const MandalaEasing: real := 0.05

  // ---------------------------------------------------------------------
  // Floating and pulsing, shared by all families
  // ---------------------------------------------------------------------

  /** `Math.sin(elapsed * speed) * amplitude`: never further from 0 than the amplitude. */
  function FloatOffset(sin: real -> real, elapsed: real, speed: real, amplitude: real): (f: real)
    requires IsSine(sin)
    ensures Abs(f) <= Abs(amplitude)
  {
    var s := sin(elapsed * speed);
    ScaledWithin(s, amplitude);
    s * amplitude
  }

  /** The point-light intensity `0.5 + 0.3 * Math.sin(elapsed * pulseSpeed)`. */
  function LightPulse(sin: real -> real, elapsed: real, pulseSpeed: real): (p: real)
    requires IsSine(sin)
    ensures 0.2 <= p <= 0.8
  {
    0.5 + 0.3 * sin(elapsed * pulseSpeed)
  }

  /** One easing step `y + (target - y) * 0.05`: lands between `y` and `target`, 5% closer. */
  function Ease(y: real, target: real): (r: real)
    ensures y <= target ==> y <= r <= target
    ensures target <= y ==> target <= r <= y
    ensures Abs(r - target) == 0.95 * Abs(y - target)
  {
    y + (target - y) * MandalaEasing
  }

  // ---------------------------------------------------------------------
  // Mandalas
  // ---------------------------------------------------------------------

  const MandalaPositions: seq<Vec3> :=
    [Vec3(-30.0, 15.0, -15.0), Vec3(30.0, 20.0, -20.0), Vec3(5.0, -25.0, -10.0)]

  /** The Math.random() values one mandala consumes. */
  datatype MandalaDraws = MandalaDraws(
    radius: Unit, opacity: Unit, rotation: Unit,
    rotationSpeed: Unit, floatSpeed: Unit, floatAmplitude: Unit)

  datatype Mandala = Mandala(
    position: Vec3, rotationZ: real,
    radius: real, colorIndex: nat, opacity: real,
    rotationSpeed: real, floatSpeed: real, floatAmplitude: real)

  /** The mandala built by `createMandalas` for the given index and position. */
  function NewMandala(index: nat, position: Vec3, d: MandalaDraws): (m: Mandala)
    ensures m.position == position && m.colorIndex < |EnergyPalette|
    ensures m.colorIndex == index % |EnergyPalette|
    ensures 2.0 <= m.radius < 5.0 && 0.2 <= m.opacity < 0.5
    ensures 0.0 <= m.rotationZ < 2.0 * Pi
    ensures 0.01 <= m.rotationSpeed < 0.04
    ensures 0.2 <= m.floatSpeed < 0.5 && 0.2 <= m.floatAmplitude < 0.5
  {
    Mandala(
      position, d.rotation * Pi * 2.0,
      2.0 + d.radius * 3.0, index % |EnergyPalette|, 0.2 + d.opacity * 0.3,
      0.01 + d.rotationSpeed * 0.03, 0.2 + d.floatSpeed * 0.3, 0.2 + d.floatAmplitude * 0.3)
  }

  /** The float target of a mandala: an offset around 0, not around its position. */
  function MandalaTarget(m: Mandala, elapsed: real, sin: real -> real): real
    requires IsSine(sin)
  {
    FloatOffset(sin, elapsed, m.floatSpeed, m.floatAmplitude)
  }

  /** One frame of the mandala loop in `updateZenElements`. */
  function MandalaStep(m: Mandala, elapsed: real, delta: real, sin: real -> real): Mandala
    requires IsSine(sin)
  {
    m.(rotationZ := m.rotationZ + m.rotationSpeed * delta,
       position := m.position.(y := Ease(m.position.y, MandalaTarget(m, elapsed, sin))))
  }

  /**
   * `m` is the mandala `m0` after frames whose deltas sum to `total`:
   * its rotation has advanced by `rotationSpeed * total`, only its height
   * has otherwise moved, and every creation parameter is as it was.
   */
  ghost predicate MandalaAfter(m: Mandala, m0: Mandala, total: real)
  {
    m == m0.(rotationZ := m0.rotationZ + m0.rotationSpeed * total,
             position := m0.position.(y := m.position.y))
  }

  lemma MandalaStepAdvances(m: Mandala, m0: Mandala, total: real, elapsed: real, delta: real, sin: real -> real)
    requires IsSine(sin) && MandalaAfter(m, m0, total)
    ensures MandalaAfter(MandalaStep(m, elapsed, delta, sin), m0, total + delta)
  {
    assert m0.rotationSpeed * (total + delta) == m0.rotationSpeed * total + m0.rotationSpeed * delta;
  }

  /** Each frame closes 5% of the gap between the mandala's height and its float target. */
  lemma MandalaStepApproaches(m: Mandala, elapsed: real, delta: real, sin: real -> real)
    requires IsSine(sin)
    ensures var target := MandalaTarget(m, elapsed, sin);
            Abs(MandalaStep(m, elapsed, delta, sin).position.y - target) == 0.95 * Abs(m.position.y - target)
  {
  }

  /** Once a mandala's height lies within its float amplitude it stays there, whatever the frame. */
  lemma MandalaStepStaysInBand(m: Mandala, elapsed: real, delta: real, sin: real -> real)
    requires IsSine(sin)
    requires Abs(m.position.y) <= Abs(m.floatAmplitude)
    ensures Abs(MandalaStep(m, elapsed, delta, sin).position.y) <= Abs(m.floatAmplitude)
  {
    var target := MandalaTarget(m, elapsed, sin);
    assert Abs(target) <= Abs(m.floatAmplitude);
  }

  // ---------------------------------------------------------------------
  // Energy centers
  // ---------------------------------------------------------------------

  const EnergyCenterPositions: seq<Vec3> :=
    [Vec3(0.0, 0.0, 5.0), Vec3(-20.0, 10.0, -10.0), Vec3(20.0, 15.0, -15.0),
     Vec3(15.0, -15.0, -5.0), Vec3(-15.0, -20.0, -10.0)]

  /** The Math.random() values one energy center may consume (center 0 uses none). */
  datatype CenterDraws = CenterDraws(
    radius: Unit, intensity: Unit, pulseSpeed: Unit, floatSpeed: Unit, floatAmplitude: Unit)

  datatype PointLight = PointLight(position: Vec3, intensity: real, distance: real)

  datatype EnergyCenter = EnergyCenter(
    position: Vec3, origin: Vec3,
    radius: real, chakraIndex: nat, shaderIntensity: real,
    light: Option<PointLight>,
    pulseSpeed: real, floatSpeed: real, floatAmplitude: real)

  /** The energy center built by `createEnergyCenters`; only center 0 carries a light. */
  function NewEnergyCenter(index: nat, position: Vec3, d: CenterDraws): (c: EnergyCenter)
    ensures c.position == position && c.origin == position
    ensures c.chakraIndex < |ChakraPalette| && c.chakraIndex == index % |ChakraPalette|
    ensures c.light.Some? <==> index == 0
    ensures c.light.Some? ==> c.light.value == PointLight(position, 0.5, 30.0)
    ensures 0.5 <= c.radius <= 1.5 && 0.6 <= c.shaderIntensity <= 1.0
    ensures 0.3 <= c.pulseSpeed < 0.8 && 0.2 <= c.floatSpeed < 0.6 && 0.1 <= c.floatAmplitude < 0.6
  {
    if index == 0 then
      EnergyCenter(position, position, 1.5, 0, 1.0,
                   Some(PointLight(position, 0.5, 30.0)), 0.5, 0.3, 0.3)
    else
      EnergyCenter(position, position,
                   0.5 + d.radius * 0.5, index % |ChakraPalette|, 0.6 + d.intensity * 0.4,
                   None,
                   0.3 + d.pulseSpeed * 0.5, 0.2 + d.floatSpeed * 0.4, 0.1 + d.floatAmplitude * 0.5)
  }

  /** One frame of the energy-center loop in `updateZenElements`. */
  function CenterStep(c: EnergyCenter, elapsed: real, sin: real -> real): EnergyCenter
    requires IsSine(sin)
  {
    var pos := c.position.(y := c.origin.y + FloatOffset(sin, elapsed, c.floatSpeed, c.floatAmplitude));
    c.(position := pos,
       light := match c.light
                case None => None
                case Some(l) => Some(l.(position := pos, intensity := LightPulse(sin, elapsed, c.pulseSpeed))))
  }

  /**
   * What holds of every energy center at every frame: it floats vertically
   * around its origin within its amplitude, and its light (if any) sits on
   * it with an intensity in [0.2, 0.8].
   */
  ghost predicate CenterSettled(c: EnergyCenter)
  {
    && c.position.x == c.origin.x && c.position.z == c.origin.z
    && Abs(c.position.y - c.origin.y) <= Abs(c.floatAmplitude)
    && (c.light.Some? ==> c.light.value.position == c.position && 0.2 <= c.light.value.intensity <= 0.8)
  }

  /** `c` is `c0` with only its position and its light moved. */
  ghost predicate CenterAfter(c: EnergyCenter, c0: EnergyCenter)
  {
    && c == c0.(position := c.position, light := c.light)
    && c.light.Some? == c0.light.Some?
    && (c.light.Some? ==> c.light.value.distance == c0.light.value.distance)
  }

  lemma NewEnergyCenterSettled(index: nat, position: Vec3, d: CenterDraws)
    ensures CenterSettled(NewEnergyCenter(index, position, d))
  {
  }

  lemma CenterStepSettles(c: EnergyCenter, elapsed: real, sin: real -> real)
    requires IsSine(sin)
    requires c.position.x == c.origin.x && c.position.z == c.origin.z
    ensures CenterSettled(CenterStep(c, elapsed, sin))
    ensures CenterAfter(CenterStep(c, elapsed, sin), c)
  {
  }

  /**
   * The float is not integrative: the frame's result does not depend on the
   * height or light the center had before it, so replaying a frame at the
   * same elapsed time reproduces the same state.
   */
  lemma CenterStepForgetsHeight(c: EnergyCenter, y0: real, elapsed: real, sin: real -> real)
    requires IsSine(sin)
    ensures CenterStep(c.(position := c.position.(y := y0)), elapsed, sin) == CenterStep(c, elapsed, sin)
    ensures CenterStep(CenterStep(c, elapsed, sin), elapsed, sin) == CenterStep(c, elapsed, sin)
  {
  }

  // ---------------------------------------------------------------------
  // Sacred geometry
  // ---------------------------------------------------------------------

  datatype SacredKind = FlowerOfLife | MetatronCube

  datatype SacredShape = SacredShape(
    kind: SacredKind, position: Vec3, rotationY: real, rotationZ: real,
    rotationSpeed: real, floatSpeed: real, floatAmplitude: real, originalY: real)

  /** The Flower of Life group built by `createFlowerOfLife`. */
  function FlowerOfLifeShape(): (g: SacredShape)
    ensures g.position.y == g.originalY
    ensures g.rotationY == 0.0 && g.rotationZ == 0.0
    ensures SacredAfter(g, g, 0.0)
  {
    SacredShape(FlowerOfLife, Vec3(-25.0, -15.0, -10.0), 0.0, 0.0, 0.005, 0.15, 0.3, -15.0)
  }

  /** The Metatron's Cube group built by `createMetatronCube`. */
  function MetatronCubeShape(): (g: SacredShape)
    ensures g.position.y == g.originalY
    ensures g.rotationY == 0.0 && g.rotationZ == 0.0
    ensures SacredAfter(g, g, 0.0)
  {
    SacredShape(MetatronCube, Vec3(25.0, -10.0, -15.0), 0.0, 0.0, 0.01, 0.2, 0.2, -10.0)
  }

  /** One frame of the sacred-geometry loop in `updateZenElements`. */
  function SacredStep(g: SacredShape, elapsed: real, delta: real, sin: real -> real): SacredShape
    requires IsSine(sin)
  {
    g.(rotationZ := g.rotationZ + g.rotationSpeed * delta,
       rotationY := g.rotationY + g.rotationSpeed * 0.5 * delta,
       position := g.position.(y := g.originalY + FloatOffset(sin, elapsed, g.floatSpeed, g.floatAmplitude)))
  }

  /**
   * `g` is the group `g0` after frames whose deltas sum to `total`: it has
   * turned by `rotationSpeed * total` about z and by half that about y,
   * floats within its amplitude around its original height, and nothing
   * else has changed.
   */
  ghost predicate SacredAfter(g: SacredShape, g0: SacredShape, total: real)
  {
    && g == g0.(rotationZ := g0.rotationZ + g0.rotationSpeed * total,
                rotationY := g0.rotationY + g0.rotationSpeed * 0.5 * total,
                position := g0.position.(y := g.position.y))
    && Abs(g.position.y - g.originalY) <= Abs(g.floatAmplitude)
  }

  lemma SacredStepAdvances(g: SacredShape, g0: SacredShape, total: real, elapsed: real, delta: real, sin: real -> real)
    requires IsSine(sin) && SacredAfter(g, g0, total)
    ensures SacredAfter(SacredStep(g, elapsed, delta, sin), g0, total + delta)
  {
    assert g0.rotationSpeed * (total + delta) == g0.rotationSpeed * total + g0.rotationSpeed * delta;
    assert g0.rotationSpeed * 0.5 * (total + delta) == g0.rotationSpeed * 0.5 * total + g0.rotationSpeed * 0.5 * delta;
  }

  /** About y a sacred group turns at exactly half its rate about z. */
  lemma SacredHalfRate(g: SacredShape, elapsed: real, delta: real, sin: real -> real)
    requires IsSine(sin)
    ensures var g' := SacredStep(g, elapsed, delta, sin);
            2.0 * (g'.rotationY - g.rotationY) == g'.rotationZ - g.rotationZ
  {
  }

  /**
   * The float of a sacred group is not integrative: its height after a frame
   * depends only on the elapsed time, not on the height it had, so a second
   * frame at the same elapsed time leaves it where it is (only the rotations
   * advance).
   */
  lemma SacredStepForgetsHeight(g: SacredShape, y0: real, elapsed: real, delta: real, sin: real -> real)
    requires IsSine(sin)
    ensures SacredStep(g.(position := g.position.(y := y0)), elapsed, delta, sin).position
              == SacredStep(g, elapsed, delta, sin).position
    ensures SacredStep(SacredStep(g, elapsed, delta, sin), elapsed, delta, sin).position
              == SacredStep(g, elapsed, delta, sin).position
  {
  }
}
