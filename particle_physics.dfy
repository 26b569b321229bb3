/**
 * The arithmetic of one particle of the animated background field
 * (js/modern.js, `initParticles`): the pointer's repulsion, the spring back
 * to the home position, the home position's drift and edge wrap, how many
 * particles a canvas gets, and the opacity of a connecting line.
 *
 * Coordinates are exact reals. `Math.sqrt` is not modelled: a distance is
 * handed in together with the fact that it measures what it should
 * (`Measures`), or computed by a distance function the caller supplies
 * (`IsDistance`).
 */
module ParticlePhysics {
  import opened Wrappers

  /** `mouse.radius`: the reach of the pointer's repulsion. */
  const InteractionRadius: real := 150.0
  /** Fraction of the gap to the home position closed on every frame. */
  const SpringRate: real := 0.03
  /** Distance under which two particles are joined by a line. */
  const LinkDistance: real := 120.0
  /** Opacity of a line between two particles at the same spot. */
  const LinkOpacity: real := 0.3
  /** Canvas area (in square pixels) that earns one particle. */
  const AreaPerParticle: real := 12000.0
  /** No canvas gets more particles than this. */
  const MaxParticles: nat := 150

  datatype Point = Point(x: real, y: real)

  /** The part of a particle that `update` changes: its rendered position and its home. */
  datatype Pose = Pose(x: real, y: real, baseX: real, baseY: real)

  /** The palette a particle's colour is picked from. */
  const Palette: seq<string> := [
    "rgba(0, 212, 170, 0.6)",
    "rgba(124, 58, 237, 0.6)",
    "rgba(255, 255, 255, 0.4)",
    "rgba(0, 212, 170, 0.3)",
    "rgba(124, 58, 237, 0.3)"
  ]

  /** A value `Math.random()` can return. */
  predicate IsUnit(r: real) {
    0.0 <= r < 1.0
  }

  /** The seven `Math.random()` draws that constructing one particle consumes, in source order. */
  datatype Draw = Draw(x: real, y: real, size: real, density: real, speedX: real, speedY: real, color: real)

  predicate ValidDraw(d: Draw) {
    IsUnit(d.x) && IsUnit(d.y) && IsUnit(d.size) && IsUnit(d.density) &&
    IsUnit(d.speedX) && IsUnit(d.speedY) && IsUnit(d.color)
  }

  /** `Math.random() * extent` lies on the segment [0, extent]. */
  lemma ScaledUnit(r: real, extent: nat, v: real)
    requires IsUnit(r) && v == r * extent as real
    ensures 0.0 <= v <= extent as real
  {
    assert r * extent as real <= 1.0 * extent as real;
  }

  /** The attribute ranges the constructor's formulas give for draws in [0, 1). */
  lemma DrawRanges(d: Draw)
    requires ValidDraw(d)
    ensures 1.0 <= d.size * 3.0 + 1.0 < 4.0
    ensures 1.0 <= d.density * 30.0 + 1.0 < 31.0
    ensures -0.25 <= (d.speedX - 0.5) * 0.5 < 0.25
    ensures -0.25 <= (d.speedY - 0.5) * 0.5 < 0.25
  {
  }

  /** `Math.floor(r * colors.length)`: the palette entry a draw selects. */
  function PaletteIndex(r: real): (i: nat)
    requires IsUnit(r)
    ensures i < |Palette|
    ensures i as real <= r * |Palette| as real < i as real + 1.0
  {
    (r * |Palette| as real).Floor
  }

  /** `d` is the Euclidean distance from `m` to `(x, y)`. */
  ghost predicate Measures(m: Point, x: real, y: real, d: real) {
    0.0 <= d && d * d == (m.x - x) * (m.x - x) + (m.y - y) * (m.y - y)
  }

  /**
   * `dist` is `Math.sqrt(dx * dx + dy * dy)` on the coordinate differences:
   * it returns the Euclidean distance between any two points.
   */
  ghost predicate IsDistance(dist: (Point, Point) -> real) {
    forall p: Point, q: Point :: Measures(p, q.x, q.y, dist(p, q))
  }

  /** Scaling both legs of a right triangle by `s` scales its hypotenuse by `s`. */
  lemma ScaledSquares(dx: real, dy: real, d: real, s: real)
    requires d * d == dx * dx + dy * dy
    ensures (dx * s) * (dx * s) + (dy * s) * (dy * s) == (d * s) * (d * s)
  {
    assert (dx * s) * (dx * s) == (dx * dx) * (s * s);
    assert (dy * s) * (dy * s) == (dy * dy) * (s * s);
    assert (dx * dx) * (s * s) + (dy * dy) * (s * s) == (dx * dx + dy * dy) * (s * s);
    assert (d * s) * (d * s) == (d * d) * (s * s);
  }

  /** The falloff `(maxDistance - distance) / maxDistance` of the pointer's force inside its reach. */
  function Falloff(d: real): (f: real)
    requires 0.0 <= d < InteractionRadius
    ensures 0.0 < f <= 1.0
    ensures f == 1.0 <==> d == 0.0
  {
    (InteractionRadius - d) / InteractionRadius
  }

  /**
   * How far the pointer pushes a particle of the given density that is `d`
   * away: at most half the density, and exactly that with the pointer on top.
   */
  function Push(d: real, density: real): (k: real)
    requires 0.0 <= d < InteractionRadius
    ensures 0.0 < density ==> 0.0 < k
    ensures 0.0 <= density ==> k <= density * 0.5
    ensures d == 0.0 ==> k == density * 0.5
  {
    Falloff(d) * density * 0.5
  }

  /**
   * The position after the pointer's repulsion. With the pointer at `m`,
   * `dx, dy` point from the particle to the pointer, and the particle is
   * moved against them. `d` is the pointer's distance; the source divides by
   * it, so it must not be zero when the pointer is within reach.
   */
  function Repel(x: real, y: real, density: real, mouse: Option<Point>, d: real): (q: Point)
    requires mouse.Some? ==> 0.0 < d
    // Without a pointer, or with the pointer out of reach, the position is left alone.
    ensures mouse.None? || InteractionRadius <= d ==> q == Point(x, y)
    // Within reach, the particle moves along the offset from the pointer, scaled by `Push(d, density) / d`.
    ensures mouse.Some? && d < InteractionRadius ==>
              && q.x - x == (x - mouse.value.x) * (Push(d, density) / d)
              && q.y - y == (y - mouse.value.y) * (Push(d, density) / d)
  {
    match mouse
    case None => Point(x, y)
    case Some(m) =>
      if d < InteractionRadius then
        var dx := m.x - x;
        var dy := m.y - y;
        var force := Falloff(d);
        ShiftAlong(x, m.x, d, force * density * 0.5);
        ShiftAlong(y, m.y, d, force * density * 0.5);
        Point(x - dx / d * force * density * 0.5, y - dy / d * force * density * 0.5)
      else
        Point(x, y)
  }

  /** `v -= (c - v) / d * k` moves `v` by `(v - c) * (k / d)`. */
  lemma ShiftAlong(v: real, c: real, d: real, k: real)
    requires 0.0 < d
    ensures (v - (c - v) / d * k) - v == (v - c) * (k / d)
  {
    assert (c - v) / d * k == (c - v) * (k / d);
  }

  /** One axis of the spring: `v += (home - v) * 0.03`. The gap to home shrinks by the factor 0.97. */
  function Spring(v: real, home: real): (r: real)
    ensures r - home == (1.0 - SpringRate) * (v - home)
  {
    v + (home - v) * SpringRate
  }

  /**
   * The edge wrap of one home coordinate: a value below 0 jumps to the far
   * edge, then a value beyond the edge jumps to 0. The result always lies in
   * the closed interval [0, edge].
   */
  function Wrap(v: real, edge: real): (r: real)
    requires 0.0 <= edge
    ensures 0.0 <= r <= edge
    ensures 0.0 <= v <= edge ==> r == v
    ensures v < 0.0 ==> r == edge
    ensures edge < v ==> r == 0.0
  {
    var w := if v < 0.0 then edge else v;
    if w > edge then 0.0 else w
  }

  /** The home lies on the canvas, its edges included. */
  predicate HomeOnCanvas(p: Pose, width: nat, height: nat) {
    0.0 <= p.baseX <= width as real && 0.0 <= p.baseY <= height as real
  }

  /**
   * One call of `Particle.update`: repulsion, spring towards the home the
   * particle had at the start of the frame, drift of the home, edge wrap.
   */
  function Advance(p: Pose, density: real, speedX: real, speedY: real,
                   width: nat, height: nat, mouse: Option<Point>, d: real): (r: Pose)
    requires mouse.Some? ==> 0.0 < d
    ensures HomeOnCanvas(r, width, height)
  {
    var q := Repel(p.x, p.y, density, mouse, d);
    Pose(Spring(q.x, p.baseX), Spring(q.y, p.baseY),
         Wrap(p.baseX + speedX, width as real), Wrap(p.baseY + speedY, height as real))
  }

  /**
   * Within reach, repulsion moves the particle straight away from the
   * pointer by exactly `Push(d, density)`, so its distance to the pointer
   * grows by that amount.
   */
  lemma {:induction false} RepelMovesAway(x: real, y: real, density: real, m: Point, d: real)
    requires Measures(m, x, y, d) && 0.0 < d < InteractionRadius && 0.0 < density
    ensures var q := Repel(x, y, density, Some(m), d);
            var k := Push(d, density);
            && (q.x - x) * (q.x - x) + (q.y - y) * (q.y - y) == k * k
            && Measures(m, q.x, q.y, d + k)
  {
    var q := Repel(x, y, density, Some(m), d);
    var k := Push(d, density);
    var dx, dy := m.x - x, m.y - y;
    var s := k / d;
    assert 0.0 < k;
    assert d * s == k;
    assert q.x - x == (-dx) * s;
    assert q.y - y == (-dy) * s;
    assert d * d == (-dx) * (-dx) + (-dy) * (-dy);
    ScaledSquares(-dx, -dy, d, s);
    assert m.x - q.x == dx * (1.0 + s);
    assert m.y - q.y == dy * (1.0 + s);
    ScaledSquares(dx, dy, d, 1.0 + s);
    assert d * (1.0 + s) == d + k;
  }

  /** The closer the pointer, the harder the push (for a fixed density). */
  lemma {:induction false} PushMonotone(d1: real, d2: real, density: real)
    requires 0.0 <= d1 < d2 < InteractionRadius && 0.0 < density
    ensures Push(d2, density) < Push(d1, density)
  {
    var f1, f2 := Falloff(d1), Falloff(d2);
    var g := f1 - f2;
    assert 0.0 < g * density;
    var p1, p2 := f1 * density, f2 * density;
    assert p1 - p2 == g * density;
    assert Push(d1, density) == p1 * 0.5;
    assert Push(d2, density) == p2 * 0.5;
  }

  /**
   * With no pointer, or the pointer out of reach, only the spring acts: the
   * gap between position and the old home shrinks to 97 percent, and the home
   * drifts by the particle's speed (up to the wrap).
   */
  lemma {:induction false} AdvanceSpringOnly(p: Pose, density: real, speedX: real, speedY: real,
                                             width: nat, height: nat, mouse: Option<Point>, d: real)
    requires mouse.Some? ==> InteractionRadius <= d
    ensures var r := Advance(p, density, speedX, speedY, width, height, mouse, d);
            && r.x - p.baseX == 0.97 * (p.x - p.baseX)
            && r.y - p.baseY == 0.97 * (p.y - p.baseY)
            && (0.0 <= p.baseX + speedX <= width as real ==> r.baseX == p.baseX + speedX)
            && (0.0 <= p.baseY + speedY <= height as real ==> r.baseY == p.baseY + speedY)
  {
  }

  /**
   * Within reach, the spring acts on the repelled position: the gap between
   * the new position and the old home is 97 percent of the gap the push left.
   */
  lemma {:induction false} AdvanceAfterPush(p: Pose, density: real, speedX: real, speedY: real,
                                            width: nat, height: nat, m: Point, d: real)
    requires Measures(m, p.x, p.y, d) && 0.0 < d < InteractionRadius && 0.0 < density
    ensures var r := Advance(p, density, speedX, speedY, width, height, Some(m), d);
            var k := Push(d, density);
            && r.x - p.baseX == 0.97 * (p.x + (p.x - m.x) * (k / d) - p.baseX)
            && r.y - p.baseY == 0.97 * (p.y + (p.y - m.y) * (k / d) - p.baseY)
  {
    RepelMovesAway(p.x, p.y, density, m, d);
  }

  function Min(a: real, b: real): real {
    if a < b then a else b
  }

  /** The smallest integer not below `b`. */
  function Ceiling(b: real): (n: int)
    ensures n as real - 1.0 < b <= n as real
  {
    -((-b).Floor)
  }

  /** `numberOfParticles`: the canvas area over 12000, capped at 150 (a real, not rounded). */
  function ParticleBound(width: nat, height: nat): (b: real)
    ensures 0.0 <= b <= MaxParticles as real
    ensures b == (width * height) as real / AreaPerParticle || b == MaxParticles as real
    ensures b <= (width * height) as real / AreaPerParticle
  {
    Min((width * height) as real / AreaPerParticle, MaxParticles as real)
  }

  /**
   * How many times `for (i = 0; i < numberOfParticles; i++)` runs: the
   * ceiling of the bound, never more than 150.
   */
  function ParticleCount(width: nat, height: nat): (n: nat)
    ensures n <= MaxParticles
    ensures n as real - 1.0 < ParticleBound(width, height) <= n as real
    // Below 1800000 square pixels the cap does not bite: the count is the ceiling of the area over 12000.
    ensures width * height <= 1800000 ==> n as real - 1.0 < (width * height) as real / AreaPerParticle <= n as real
    // From 1800000 square pixels on, the count is the cap.
    ensures 1800000 <= width * height ==> n == MaxParticles
  {
    Ceiling(ParticleBound(width, height))
  }

  lemma ParticleCountExamples()
    ensures ParticleCount(1200, 800) == 80
    ensures ParticleCount(4000, 3000) == 150
    ensures ParticleCount(1000, 700) == 59
    ensures ParticleCount(0, 900) == 0
  {
    assert ParticleBound(1200, 800) == 80.0;
    assert ParticleBound(4000, 3000) == 150.0;
    assert ParticleBound(1000, 700) == 700000.0 / 12000.0;
  }

  /** Opacity of a line between particles `d` apart, for `d` under the link distance. */
  function Opacity(d: real): (o: real)
    requires d < LinkDistance
    ensures 0.0 < o
    ensures 0.0 <= d ==> o <= LinkOpacity
    ensures o == LinkOpacity <==> d == 0.0
  {
    (LinkDistance - d) / LinkDistance * LinkOpacity
  }

  /** Lines fade linearly: particles further apart get a fainter line. */
  lemma {:induction false} OpacityMonotone(d1: real, d2: real)
    requires d1 < d2 < LinkDistance
    ensures Opacity(d2) < Opacity(d1)
  {
  }
}
