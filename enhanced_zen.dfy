/**
 * The screen-space effects layered over the cosmic background: particle
 * emitters that stream towards the book, the keyframe schedule of one
 * particle's journey, and the energy connections drawn between nearby
 * energy centres. Layout reads (bounding boxes, viewport size) are inputs.
 */
module EnhancedZen {
  import opened Numbers
  import opened Wrappers

  datatype Point = Point(x: real, y: real)

  /** A bounding client rectangle. */
  datatype Rect = Rect(left: real, top: real, width: real, height: real)

  /** The centre of a rectangle: as far from each edge as from the opposite one. */
  function Center(r: Rect): (c: Point)
    ensures c.x - r.left == (r.left + r.width) - c.x
    ensures c.y - r.top == (r.top + r.height) - c.y
  {
    Point(r.left + r.width / 2.0, r.top + r.height / 2.0)
  }

  /** `Math.pow(dx, 2) + Math.pow(dy, 2)`. */
  function SquaredDistance(p: Point, q: Point): (d: real)
    ensures 0.0 <= d
  {
    Square(q.x - p.x) + Square(q.y - p.y)
  }

  // ---------------------------------------------------------------------
  // Energy connections
  // ---------------------------------------------------------------------

  /** The line `createEnergyConnection` places between centres `from` and `to`. */
  datatype Connection = Connection(from: nat, to: nat, left: real, top: real, width: real)

  /** A connection is as wide as the distance between its endpoints and is anchored at the first one. */
  function EnergyConnection(p1: Point, p2: Point, id1: nat, id2: nat, sqrt: real -> real): (c: Connection)
    requires IsSqrt(sqrt)
    ensures c.from == id1 && c.to == id2
    ensures c.left == p1.x && c.top == p1.y
    ensures 0.0 <= c.width && c.width * c.width == SquaredDistance(p1, p2)
  {
    var dx, dy := p2.x - p1.x, p2.y - p1.y;
    Connection(id1, id2, p1.x, p1.y, sqrt(dx * dx + dy * dy))
  }

  /** One third of the viewport diagonal. */
  function MaxDistance(width: real, height: real, sqrt: real -> real): (m: real)
    requires IsSqrt(sqrt)
    ensures 0.0 <= m && 9.0 * (m * m) == Square(width) + Square(height)
  {
    var diagonal := sqrt(Square(width) + Square(height));
    assert 9.0 * ((diagonal / 3.0) * (diagonal / 3.0)) == diagonal * diagonal;
    diagonal / 3.0
  }

  /** The test deciding whether two centres are connected. */
  predicate Near(p1: Point, p2: Point, width: real, height: real, sqrt: real -> real)
    requires IsSqrt(sqrt)
  {
    sqrt(SquaredDistance(p1, p2)) < MaxDistance(width, height, sqrt)
  }

  /**
   * Two centres are connected exactly when nine times their squared distance
   * is below the squared diagonal: the rule stated without square roots.
   */
  lemma NearIff(p1: Point, p2: Point, width: real, height: real, sqrt: real -> real)
    requires IsSqrt(sqrt)
    ensures Near(p1, p2, width, height, sqrt) <==> 9.0 * SquaredDistance(p1, p2) < Square(width) + Square(height)
  {
    var d := sqrt(SquaredDistance(p1, p2));
    var m := MaxDistance(width, height, sqrt);
    LessIffSquareLess(d, m);
  }

  function NearPair(rects: seq<Rect>, i: nat, j: nat, width: real, height: real, sqrt: real -> real): bool
    requires IsSqrt(sqrt) && i < |rects| && j < |rects|
  {
    Near(Center(rects[i]), Center(rects[j]), width, height, sqrt)
  }

  /** Some connection joins centre `i` to centre `j`. */
  ghost predicate Connected(conns: seq<Connection>, i: nat, j: nat)
  {
    exists k :: 0 <= k < |conns| && conns[k].from == i && conns[k].to == j
  }

  /** Pair `(a, b)` is examined before pair `(i, j)` by the nested loops. */
  predicate PairBefore(a: nat, b: nat, i: nat, j: nat)
  {
    a < i || (a == i && b < j)
  }

  /** The number of pairs the nested loops examine in their first `i` rows. */
  function RowsBefore(n: nat, i: nat): nat
    requires i <= n
  {
    if i == 0 then 0 else RowsBefore(n, i - 1) + (n - i)
  }

  /** In closed form: all `i < j < n` rows together hold `n (n - 1) / 2` pairs. */
  lemma {:induction false} RowsBeforeClosed(n: nat, i: nat)
    requires i <= n
    ensures 2 * RowsBefore(n, i) == i * (2 * n - i - 1)
  {
    if i > 0 {
      RowsBeforeClosed(n, i - 1);
      assert (i - 1) * (2 * n - (i - 1) - 1) + 2 * (n - i) == i * (2 * n - i - 1);
    }
  }

  /**
   * The nested pair loop of `createEnergyConnections`. With fewer than two
   * centres nothing is connected; otherwise only pairs `i < j` are examined,
   * in order, and a pair is connected exactly when its centres are nearer
   * than a third of the viewport diagonal. So there are no self-connections,
   * no duplicates, at most `n (n - 1) / 2` connections, and each one is the
   * line `createEnergyConnection` builds for its pair.
   */
  method CreateEnergyConnections(rects: seq<Rect>, width: real, height: real, sqrt: real -> real)
    returns (conns: seq<Connection>)
    requires IsSqrt(sqrt)
    ensures |rects| < 2 ==> conns == []
    ensures forall k :: 0 <= k < |conns| ==>
              && conns[k].from < conns[k].to < |rects|
              && conns[k] == EnergyConnection(Center(rects[conns[k].from]), Center(rects[conns[k].to]),
                                              conns[k].from, conns[k].to, sqrt)
    ensures forall i, j :: 0 <= i < j < |rects| ==>
              (Connected(conns, i, j) <==> NearPair(rects, i, j, width, height, sqrt))
    ensures forall k1, k2 :: 0 <= k1 < k2 < |conns| ==>
              PairBefore(conns[k1].from, conns[k1].to, conns[k2].from, conns[k2].to)
    ensures 2 * |conns| <= |rects| * (|rects| - 1)
  {
    conns := [];
    var n := |rects|;
    if n > 1 {
      ghost var examined := 0;
      var i := 0;
      while i < n
        invariant 0 <= i <= n
        invariant ConnectionsSoFar(rects, conns, width, height, sqrt, i, i + 1)
        invariant examined == RowsBefore(n, i) && |conns| <= examined
      {
        var j := i + 1;
        while j < n
          invariant i + 1 <= j <= n
          invariant ConnectionsSoFar(rects, conns, width, height, sqrt, i, j)
          invariant examined == RowsBefore(n, i) + (j - i - 1) && |conns| <= examined
        {
          var c1, c2 := Center(rects[i]), Center(rects[j]);
          var distance := sqrt(SquaredDistance(c1, c2));
          var maxDistance := MaxDistance(width, height, sqrt);
          if distance < maxDistance {
            AppendConnection(rects, conns, width, height, sqrt, i, j);
            conns := conns + [EnergyConnection(c1, c2, i, j, sqrt)];
          } else {
            SkipPair(rects, conns, width, height, sqrt, i, j);
          }
          examined := examined + 1;
          j := j + 1;
        }
        NextRow(rects, conns, width, height, sqrt, i);
        i := i + 1;
      }
      RowsBeforeClosed(n, n);
    }
    AllExamined(rects, conns, width, height, sqrt);
  }

  /** The loop invariant: the connections built for the pairs examined before `(i, j)`. */
  ghost predicate ConnectionsSoFar(rects: seq<Rect>, conns: seq<Connection>, width: real, height: real,
                                   sqrt: real -> real, i: nat, j: nat)
    requires IsSqrt(sqrt)
  {
    && (forall k :: 0 <= k < |conns| ==>
          && conns[k].from < conns[k].to < |rects|
          && PairBefore(conns[k].from, conns[k].to, i, j)
          && NearPair(rects, conns[k].from, conns[k].to, width, height, sqrt)
          && conns[k] == EnergyConnection(Center(rects[conns[k].from]), Center(rects[conns[k].to]),
                                          conns[k].from, conns[k].to, sqrt))
    && (forall k1, k2 :: 0 <= k1 < k2 < |conns| ==>
          PairBefore(conns[k1].from, conns[k1].to, conns[k2].from, conns[k2].to))
    && (forall a, b ::
          (0 <= a < b < |rects| && PairBefore(a, b, i, j) && NearPair(rects, a, b, width, height, sqrt))
          ==> Connected(conns, a, b))
  }

  lemma AppendConnection(rects: seq<Rect>, conns: seq<Connection>, width: real, height: real,
                         sqrt: real -> real, i: nat, j: nat)
    requires IsSqrt(sqrt) && i < j < |rects|
    requires ConnectionsSoFar(rects, conns, width, height, sqrt, i, j)
    requires NearPair(rects, i, j, width, height, sqrt)
    ensures ConnectionsSoFar(rects, conns + [EnergyConnection(Center(rects[i]), Center(rects[j]), i, j, sqrt)],
                             width, height, sqrt, i, j + 1)
  {
    var c := EnergyConnection(Center(rects[i]), Center(rects[j]), i, j, sqrt);
    var conns' := conns + [c];
    assert conns'[|conns|] == c;
    forall a, b | 0 <= a < b < |rects| && PairBefore(a, b, i, j + 1) && NearPair(rects, a, b, width, height, sqrt)
      ensures Connected(conns', a, b)
    {
      if PairBefore(a, b, i, j) {
        var k :| 0 <= k < |conns| && conns[k].from == a && conns[k].to == b;
        assert conns'[k] == conns[k];
      } else {
        assert conns'[|conns|].from == a && conns'[|conns|].to == b;
      }
    }
  }

  lemma SkipPair(rects: seq<Rect>, conns: seq<Connection>, width: real, height: real,
                 sqrt: real -> real, i: nat, j: nat)
    requires IsSqrt(sqrt) && i < j < |rects|
    requires ConnectionsSoFar(rects, conns, width, height, sqrt, i, j)
    requires !NearPair(rects, i, j, width, height, sqrt)
    ensures ConnectionsSoFar(rects, conns, width, height, sqrt, i, j + 1)
  {
  }

  lemma NextRow(rects: seq<Rect>, conns: seq<Connection>, width: real, height: real,
                sqrt: real -> real, i: nat)
    requires IsSqrt(sqrt) && i < |rects|
    requires ConnectionsSoFar(rects, conns, width, height, sqrt, i, |rects|)
    ensures ConnectionsSoFar(rects, conns, width, height, sqrt, i + 1, i + 2)
  {
  }

  /** Once the loops are done (or skipped), the invariant gives the method's contract. */
  lemma AllExamined(rects: seq<Rect>, conns: seq<Connection>, width: real, height: real, sqrt: real -> real)
    requires IsSqrt(sqrt)
    requires |rects| < 2 ==> conns == []
    requires 2 <= |rects| ==> ConnectionsSoFar(rects, conns, width, height, sqrt, |rects|, |rects| + 1)
    ensures forall i, j :: 0 <= i < j < |rects| ==>
              (Connected(conns, i, j) <==> NearPair(rects, i, j, width, height, sqrt))
  {
    forall i, j | 0 <= i < j < |rects| && Connected(conns, i, j)
      ensures NearPair(rects, i, j, width, height, sqrt)
    {
      var k :| 0 <= k < |conns| && conns[k].from == i && conns[k].to == j;
    }
  }

  // ---------------------------------------------------------------------
  // Particle trail keyframes
  // ---------------------------------------------------------------------

  /** Intermediate keyframes between the first and the last. */
  const TrailSteps: nat := 5

  /** A keyframe: its percentage, the translation, the scale and the opacity. */
  datatype Keyframe = Keyframe(percent: real, dx: real, dy: real, scale: real, opacity: real)

  /** `i / (trailSteps + 1)`. */
  function TrailStep(i: nat): (step: real)
    ensures 1 <= i <= TrailSteps ==> 0.0 < step < 1.0
  {
    i as real / (TrailSteps + 1) as real
  }

  /** The steps increase strictly with the keyframe number. */
  lemma TrailStepIncreasing(i: nat, j: nat)
    requires i < j
    ensures TrailStep(i) < TrailStep(j)
  {
  }

  /** The two Math.random() values one intermediate keyframe consumes. */
  datatype WaveDraw = WaveDraw(wx: Unit, wy: Unit)

  /** `(random - 0.5) * 50 * (1 - step)`: waviness that shrinks towards the target. */
  function Wave(u: Unit, step: real): (w: real)
    requires 0.0 <= step <= 1.0
    ensures Abs(w) <= 25.0 * (1.0 - step)
  {
    var v := u - 0.5;
    var f := 50.0 * (1.0 - step);
    MulNonneg(0.5 - v, f);
    MulNonneg(v + 0.5, f);
    v * 50.0 * (1.0 - step)
  }

  /**
   * Intermediate keyframe `i` on the way to offset `(dx, dy)`: the straight-line
   * point plus bounded waviness, shrunk and faded by `0.3 * step`.
   */
  function TrailFrame(i: nat, dx: real, dy: real, opacity: real, d: WaveDraw): (k: Keyframe)
    requires 1 <= i <= TrailSteps
    ensures k.percent == 100.0 * TrailStep(i)
    ensures Abs(k.dx - dx * TrailStep(i)) <= 25.0 * (1.0 - TrailStep(i))
    ensures Abs(k.dy - dy * TrailStep(i)) <= 25.0 * (1.0 - TrailStep(i))
    ensures 0.7 < k.scale < 1.0
  {
    var step := TrailStep(i);
    var wx, wy := Wave(d.wx, step), Wave(d.wy, step);
    var scale := 1.0 - 0.3 * step;
    Keyframe(step * 100.0, dx * step + wx, dy * step + wy, scale, opacity * scale)
  }

  /** The opening keyframe: in place, full size, at the particle's own opacity. */
  function FirstFrame(opacity: real): Keyframe
  {
    Keyframe(0.0, 0.0, 0.0, 1.0, opacity)
  }

  /** The closing keyframe: the full offset, a fifth of the size, invisible. */
  function LastFrame(dx: real, dy: real): Keyframe
  {
    Keyframe(100.0, dx, dy, 0.2, 0.0)
  }

  /**
   * The keyframe accumulation of `animateParticle`, from the particle's
   * rectangle corner `start` to `target`: the opening frame, the five
   * intermediate frames and the closing frame, with percentages strictly
   * increasing and the scale strictly decreasing; for a visible particle the
   * opacity strictly decreases too.
   */
  method TrailKeyframes(start: Point, target: Point, opacity: real, waves: seq<WaveDraw>)
    returns (frames: seq<Keyframe>)
    requires |waves| == TrailSteps
    ensures |frames| == TrailSteps + 2
    ensures frames[0] == FirstFrame(opacity)
    ensures frames[TrailSteps + 1] == LastFrame(target.x - start.x, target.y - start.y)
    ensures forall i :: 1 <= i <= TrailSteps ==>
              frames[i] == TrailFrame(i, target.x - start.x, target.y - start.y, opacity, waves[i - 1])
    ensures forall a, b :: 0 <= a < b < |frames| ==> frames[a].percent < frames[b].percent
    ensures forall a, b :: 0 <= a < b < |frames| ==> frames[b].scale < frames[a].scale
    ensures 0.0 < opacity ==> forall a, b :: 0 <= a < b < |frames| ==> frames[b].opacity < frames[a].opacity
  {
    var dx, dy := target.x - start.x, target.y - start.y;
    frames := [FirstFrame(opacity)];
    for i := 1 to TrailSteps + 1
      invariant |frames| == i
      invariant frames[0] == FirstFrame(opacity)
      invariant forall k :: 1 <= k < i ==> frames[k] == TrailFrame(k, dx, dy, opacity, waves[k - 1])
    {
      frames := frames + [TrailFrame(i, dx, dy, opacity, waves[i - 1])];
    }
    frames := frames + [LastFrame(dx, dy)];
    TrailOrdered(frames, dx, dy, opacity, waves);
  }

  /** Keyframe `i` of the schedule, `0 <= i <= TrailSteps + 1`. */
  function FrameAt(i: nat, dx: real, dy: real, opacity: real, waves: seq<WaveDraw>): Keyframe
    requires |waves| == TrailSteps
  {
    if i == 0 then FirstFrame(opacity)
    else if i <= TrailSteps then TrailFrame(i, dx, dy, opacity, waves[i - 1])
    else LastFrame(dx, dy)
  }

  /** Any two keyframes of the schedule, in order: later ones sit further on, smaller, and fainter. */
  lemma FramePairOrdered(a: nat, b: nat, dx: real, dy: real, opacity: real, waves: seq<WaveDraw>)
    requires |waves| == TrailSteps && a < b <= TrailSteps + 1
    ensures FrameAt(a, dx, dy, opacity, waves).percent < FrameAt(b, dx, dy, opacity, waves).percent
    ensures FrameAt(b, dx, dy, opacity, waves).scale < FrameAt(a, dx, dy, opacity, waves).scale
    ensures 0.0 < opacity ==> FrameAt(b, dx, dy, opacity, waves).opacity < FrameAt(a, dx, dy, opacity, waves).opacity
  {
    TrailStepIncreasing(a, b);
    if 0.0 < opacity {
      if a == 0 && b <= TrailSteps {
        var sb := TrailStep(b);
        assert opacity - opacity * (1.0 - 0.3 * sb) == 0.3 * (opacity * sb);
        MulPositiveBoth(opacity, sb);
      } else if 1 <= a && b <= TrailSteps {
        var sa, sb := TrailStep(a), TrailStep(b);
        assert opacity * (1.0 - 0.3 * sa) - opacity * (1.0 - 0.3 * sb) == 0.3 * (opacity * (sb - sa));
        MulPositiveBoth(opacity, sb - sa);
      } else if 1 <= a {
        var sa := TrailStep(a);
        MulPositiveBoth(opacity, 1.0 - 0.3 * sa);
      }
    }
  }

  /** The schedule's orderings, one pair of keyframes at a time. */
  lemma TrailOrdered(frames: seq<Keyframe>, dx: real, dy: real, opacity: real, waves: seq<WaveDraw>)
    requires |waves| == TrailSteps && |frames| == TrailSteps + 2
    requires frames[0] == FirstFrame(opacity) && frames[TrailSteps + 1] == LastFrame(dx, dy)
    requires forall i :: 1 <= i <= TrailSteps ==> frames[i] == TrailFrame(i, dx, dy, opacity, waves[i - 1])
    ensures forall a, b :: 0 <= a < b < |frames| ==> frames[a].percent < frames[b].percent
    ensures forall a, b :: 0 <= a < b < |frames| ==> frames[b].scale < frames[a].scale
    ensures 0.0 < opacity ==> forall a, b :: 0 <= a < b < |frames| ==> frames[b].opacity < frames[a].opacity
  {
    forall a, b | 0 <= a < b < |frames|
      ensures frames[a].percent < frames[b].percent
      ensures frames[b].scale < frames[a].scale
      ensures 0.0 < opacity ==> frames[b].opacity < frames[a].opacity
    {
      assert frames[a] == FrameAt(a, dx, dy, opacity, waves);
      assert frames[b] == FrameAt(b, dx, dy, opacity, waves);
      FramePairOrdered(a, b, dx, dy, opacity, waves);
    }
  }

  lemma MulPositiveBoth(x: real, y: real)
    requires 0.0 < x && 0.0 < y
    ensures 0.0 < x * y
  {
  }

  // ---------------------------------------------------------------------
  // Particle emitters
  // ---------------------------------------------------------------------

  /** Emitter positions as percentages of the viewport. */
  const EmitterPercents: seq<Point> := [Point(10.0, 20.0), Point(85.0, 15.0), Point(75.0, 85.0), Point(15.0, 80.0)]

  /** `parseFloat(pct) / 100 * size`: a percentage of the viewport in pixels. */
  function PercentToPixels(pct: real, size: real): (px: real)
    ensures pct == 0.0 ==> px == 0.0
    ensures pct == 100.0 ==> px == size
    ensures 0.0 <= pct <= 100.0 && 0.0 <= size ==> 0.0 <= px <= size
  {
    var f := pct / 100.0;
    assert 0.0 <= pct <= 100.0 && 0.0 <= size ==> 0.0 <= f * size <= size by {
      if 0.0 <= pct <= 100.0 && 0.0 <= size {
        MulNonneg(1.0 - f, size);
        MulNonneg(f, size);
        assert size - f * size == (1.0 - f) * size;
      }
    }
    f * size
  }

  /**
   * Where the particles head: the book's centre, or the viewport's centre
   * when there is no book. The point is as far from the left edge as from
   * the right and as far from the top as from the bottom of that rectangle
   * (the viewport being the rectangle at the origin), and lies inside it
   * when its sizes are non-negative.
   */
  function BookCenter(book: Option<Rect>, width: real, height: real): (c: Point)
    ensures var r := if book.Some? then book.value else Rect(0.0, 0.0, width, height);
            && c.x - r.left == (r.left + r.width) - c.x
            && c.y - r.top == (r.top + r.height) - c.y
            && (0.0 <= r.width && 0.0 <= r.height ==>
                  r.left <= c.x <= r.left + r.width && r.top <= c.y <= r.top + r.height)
  {
    if book.Some? then Center(book.value) else Point(width / 2.0, height / 2.0)
  }

  datatype Emitter = Emitter(x: real, y: real, target: Point, particleCount: nat, id: nat)

  /**
   * The four emitters of `createParticleStreams`: emitter `k` sits at its
   * percentage position converted to pixels, aims at the book centre, emits
   * `10 + 2k` particles and has id `k + 1`.
   */
  function ParticleStreams(book: Option<Rect>, width: real, height: real): (es: seq<Emitter>)
    ensures |es| == |EmitterPercents|
    ensures forall k :: 0 <= k < |es| ==>
              && es[k].x == PercentToPixels(EmitterPercents[k].x, width)
              && es[k].y == PercentToPixels(EmitterPercents[k].y, height)
              && es[k].target == BookCenter(book, width, height)
              && es[k].particleCount == 10 + 2 * k
              && es[k].id == k + 1
  {
    seq(|EmitterPercents|, k requires 0 <= k < |EmitterPercents| =>
      Emitter(PercentToPixels(EmitterPercents[k].x, width), PercentToPixels(EmitterPercents[k].y, height),
              BookCenter(book, width, height), 10 + 2 * k, k + 1))
  }

  function TotalParticles(es: seq<Emitter>): nat
  {
    if es == [] then 0 else es[0].particleCount + TotalParticles(es[1..])
  }

  /** The streams hold 10 + 12 + 14 + 16 = 52 particles, whatever the layout. */
  lemma ParticleStreamsTotal(book: Option<Rect>, width: real, height: real)
    ensures TotalParticles(ParticleStreams(book, width, height)) == 52
  {
    var es := ParticleStreams(book, width, height);
    assert es[0].particleCount == 10 && es[1].particleCount == 12;
    assert es[2].particleCount == 14 && es[3].particleCount == 16;
    assert es[1..][0] == es[1] && es[1..][1..][0] == es[2] && es[1..][1..][1..][0] == es[3];
    var e1, e2, e3 := es[1..], es[1..][1..], es[1..][1..][1..];
    assert e3[1..] == [];
    assert TotalParticles(e3) == 16;
    assert TotalParticles(e2) == 14 + 16;
    assert TotalParticles(e1) == 12 + 14 + 16;
  }

  /** The six Math.random() values one particle consumes, in the order they are drawn. */
  datatype ParticleDraw = ParticleDraw(ox: Unit, oy: Unit, size: Unit, opacity: Unit, color: Unit, speed: Unit)

  /** The particle colours: white, pale blue, pale gold, pale purple. */
  const ParticleColors: seq<string> :=
    ["rgba(255, 255, 255, 0.8)", "rgba(200, 200, 255, 0.8)", "rgba(255, 240, 220, 0.8)", "rgba(230, 210, 255, 0.8)"]

  /** A particle element: its id `particle-<emitterId>-<delay>`, placement and style. */
  datatype Particle = Particle(emitterId: nat, delay: nat, left: real, top: real, size: real,
                               opacity: real, colorIndex: int, speed: real)

  /** `(random - 0.5) * 50`: a start offset of at most 25 pixels either way. */
  function StartOffset(u: Unit): (o: real)
    ensures Abs(o) <= 25.0
  {
    (u - 0.5) * 50.0
  }

  /** `createParticle`: offset start, size in [1, 3), opacity in [0.3, 0.8), a palette colour, 10 to 20 seconds of travel. */
  function NewParticle(e: Emitter, delay: nat, d: ParticleDraw): (p: Particle)
    ensures p.emitterId == e.id && p.delay == delay
    ensures Abs(p.left - e.x) <= 25.0 && Abs(p.top - e.y) <= 25.0
    ensures 1.0 <= p.size < 3.0 && 0.3 <= p.opacity < 0.8
    ensures 0 <= p.colorIndex < |ParticleColors|
    ensures 10.0 <= p.speed < 20.0
  {
    Particle(e.id, delay, e.x + StartOffset(d.ox), e.y + StartOffset(d.oy), 1.0 + d.size * 2.0,
             0.3 + d.opacity * 0.5, PaletteIndex(d.color, |ParticleColors|), 10.0 + d.speed * 10.0)
  }

  /** The loop of `createParticleEmitter`: particle `i` starts after `i` seconds. */
  method CreateParticleEmitter(e: Emitter, draws: seq<ParticleDraw>) returns (ps: seq<Particle>)
    requires |draws| == e.particleCount
    ensures |ps| == e.particleCount
    ensures forall i :: 0 <= i < |ps| ==> ps[i] == NewParticle(e, i, draws[i])
    ensures forall i, j :: 0 <= i < j < |ps| ==> (ps[i].emitterId, ps[i].delay) != (ps[j].emitterId, ps[j].delay)
  {
    ps := [];
    for i := 0 to e.particleCount
      invariant |ps| == i
      invariant forall k :: 0 <= k < i ==> ps[k] == NewParticle(e, k, draws[k])
    {
      ps := ps + [NewParticle(e, i, draws[i])];
    }
  }

  /** Particles of different emitters of the same streams have different ids. */
  lemma ParticleIdsDistinct(book: Option<Rect>, width: real, height: real, k1: nat, k2: nat,
                            d1: ParticleDraw, d2: ParticleDraw, delay1: nat, delay2: nat)
    requires k1 < k2 < |EmitterPercents|
    ensures var es := ParticleStreams(book, width, height);
            NewParticle(es[k1], delay1, d1).emitterId != NewParticle(es[k2], delay2, d2).emitterId
  {
  }
}
