/**
 * The particle field engine of js/modern.js (`initParticles`): the
 * `Particle` objects whose `update` changes their position and home in
 * place, and the field that owns the canvas size, the pointer and the
 * particle array, rebuilds the array in `init`, and runs one animation
 * frame (update every particle, then connect close pairs).
 */
module ParticleField {
  import opened Wrappers
  import opened ParticlePhysics
  import opened Links

  class Particle {
    var x: real
    var y: real
    var baseX: real
    var baseY: real
    const size: real
    const density: real
    const speedX: real
    const speedY: real
    const color: string

    /** The part of the particle `update` may change. */
    function Snapshot(): Pose
      reads this
    {
      Pose(x, y, baseX, baseY)
    }

    function Position(): Point
      reads this
    {
      Point(x, y)
    }

    /** The ranges the constructor's draws put the fixed attributes in. */
    ghost predicate Attributes() {
      && 1.0 <= size < 4.0
      && 1.0 <= density < 31.0
      && -0.25 <= speedX < 0.25
      && -0.25 <= speedY < 0.25
      && color in Palette
    }

    /** The particle is the one the constructor builds from `draw` on a `width` by `height` canvas. */
    ghost predicate BuiltFrom(draw: Draw, width: nat, height: nat)
      reads this
      requires ValidDraw(draw)
    {
      && x == draw.x * width as real
      && y == draw.y * height as real
      && baseX == x && baseY == y
      && size == draw.size * 3.0 + 1.0
      && density == draw.density * 30.0 + 1.0
      && speedX == (draw.speedX - 0.5) * 0.5
      && speedY == (draw.speedY - 0.5) * 0.5
      && color == Palette[PaletteIndex(draw.color)]
    }

    constructor (draw: Draw, width: nat, height: nat)
      requires ValidDraw(draw)
      ensures BuiltFrom(draw, width, height)
      ensures Attributes()
      ensures HomeOnCanvas(Snapshot(), width, height)
    {
      var px := draw.x * width as real;
      var py := draw.y * height as real;
      ScaledUnit(draw.x, width, px);
      ScaledUnit(draw.y, height, py);
      DrawRanges(draw);
      x := px;
      y := py;
      size := draw.size * 3.0 + 1.0;
      baseX := px;
      baseY := py;
      density := draw.density * 30.0 + 1.0;
      speedX := (draw.speedX - 0.5) * 0.5;
      speedY := (draw.speedY - 0.5) * 0.5;
      color := Palette[PaletteIndex(draw.color)];
    }

    /**
     * `update`: with the pointer at distance `d`, push, spring, drift and
     * wrap. Only `x`, `y`, `baseX`, `baseY` change (the other fields are
     * constants).
     */
    method Update(width: nat, height: nat, mouse: Option<Point>, d: real)
      requires mouse.Some? ==> Measures(mouse.value, x, y, d) && 0.0 < d
      modifies this
      ensures Snapshot() == Advance(old(Snapshot()), density, speedX, speedY, width, height, mouse, d)
    {
      ghost var before := Snapshot();
      if mouse.Some? {
        var distance := d;
        if distance < InteractionRadius {
          var dx := mouse.value.x - x;
          var dy := mouse.value.y - y;
          var forceDirectionX := dx / distance;
          var forceDirectionY := dy / distance;
          var force := (InteractionRadius - distance) / InteractionRadius;
          assert force == Falloff(d);
          var directionX := forceDirectionX * force * density * 0.5;
          var directionY := forceDirectionY * force * density * 0.5;
          x := x - directionX;
          y := y - directionY;
        }
      }
      ghost var pushed := Repel(before.x, before.y, density, mouse, d);
      assert Position() == pushed;

      var dx := baseX - x;
      var dy := baseY - y;
      x := x + dx * SpringRate;
      y := y + dy * SpringRate;
      assert x == Spring(pushed.x, before.baseX) && y == Spring(pushed.y, before.baseY);

      baseX := baseX + speedX;
      baseY := baseY + speedY;

      if baseX < 0.0 { baseX := width as real; }
      if baseX > width as real { baseX := 0.0; }
      if baseY < 0.0 { baseY := height as real; }
      if baseY > height as real { baseY := 0.0; }
      assert baseX == Wrap(before.baseX + speedX, width as real);
      assert baseY == Wrap(before.baseY + speedY, height as real);
    }
  }

  /** The pointer's distance to a particle at `p` (0 when the pointer is unknown, where it is not used). */
  function PointerDistance(dist: (Point, Point) -> real, mouse: Option<Point>, p: Point): real {
    match mouse
    case None => 0.0
    case Some(m) => dist(m, p)
  }

  /** The pointer is unknown, or it is not on top of any of these particle positions. */
  predicate PointerClear(dist: (Point, Point) -> real, mouse: Option<Point>, pos: seq<Point>) {
    mouse.Some? ==> forall k :: 0 <= k < |pos| ==> 0.0 < dist(mouse.value, pos[k])
  }

  class Field {
    var width: nat
    var height: nat
    var mouse: Option<Point>
    var particles: seq<Particle>

    /** As many particles as the canvas area calls for. */
    ghost predicate Populated()
      reads this
    {
      |particles| == ParticleCount(width, height)
    }

    /**
     * The particles are distinct objects, each with its fixed attributes
     * in range and its home on the canvas.
     */
    ghost predicate WellFormed()
      reads this, particles
    {
      && (forall i, j :: 0 <= i < j < |particles| ==> particles[i] != particles[j])
      && (forall k :: 0 <= k < |particles| ==> particles[k].Attributes())
      && (forall k :: 0 <= k < |particles| ==> HomeOnCanvas(particles[k].Snapshot(), width, height))
    }

    /** The field's invariant: populated for the canvas size, and well formed. */
    ghost predicate Valid()
      reads this, particles
    {
      Populated() && WellFormed()
    }

    /** Where the particles currently are, in array order. */
    function Positions(): (pos: seq<Point>)
      reads this, particles
      ensures |pos| == |particles|
      ensures forall k :: 0 <= k < |pos| ==> pos[k] == particles[k].Position()
    {
      seq(|particles|, k reads this, particles requires 0 <= k < |particles| => particles[k].Position())
    }

    /** The particles' changing parts, in array order. */
    function Snapshots(): (s: seq<Pose>)
      reads this, particles
      ensures |s| == |particles|
      ensures forall k :: 0 <= k < |s| ==> s[k] == particles[k].Snapshot()
    {
      seq(|particles|, k reads this, particles requires 0 <= k < |particles| => particles[k].Snapshot())
    }

    /**
     * Every particle has made one `update` from `before`: the pointer was
     * not on top of it, and its new state is `Advance` of its old one with
     * the pointer's distance to its old position.
     */
    ghost predicate AdvancedFrom(before: seq<Pose>, dist: (Point, Point) -> real)
      reads this, particles
    {
      && |before| == |particles|
      && forall k :: 0 <= k < |particles| ==>
           var d := PointerDistance(dist, mouse, Point(before[k].x, before[k].y));
           && (mouse.Some? ==> 0.0 < d)
           && particles[k].Snapshot()
              == Advance(before[k], particles[k].density, particles[k].speedX, particles[k].speedY, width, height, mouse, d)
    }

    /** Start-up: size the canvas, forget the pointer, build the particles. */
    constructor (width: nat, height: nat, draws: seq<Draw>)
      requires forall k :: 0 <= k < |draws| ==> ValidDraw(draws[k])
      requires ParticleCount(width, height) <= |draws|
      ensures Valid()
      ensures this.width == width && this.height == height && mouse == None
      ensures forall k :: 0 <= k < |particles| ==> fresh(particles[k]) && particles[k].BuiltFrom(draws[k], width, height)
    {
      this.width := width;
      this.height := height;
      mouse := None;
      particles := [];
      new;
      Init(draws);
    }

    /** `init`: throw the particles away and build `ParticleCount(width, height)` new ones. */
    method Init(draws: seq<Draw>)
      requires forall k :: 0 <= k < |draws| ==> ValidDraw(draws[k])
      requires ParticleCount(width, height) <= |draws|
      modifies this
      ensures Valid()
      ensures width == old(width) && height == old(height) && mouse == old(mouse)
      ensures forall k :: 0 <= k < |particles| ==> fresh(particles[k]) && particles[k].BuiltFrom(draws[k], width, height)
    {
      particles := [];
      var numberOfParticles := ParticleBound(width, height);
      var i := 0;
      while (i as real) < numberOfParticles
        invariant width == old(width) && height == old(height) && mouse == old(mouse)
        invariant 0 <= i <= ParticleCount(width, height)
        invariant |particles| == i
        invariant forall k :: 0 <= k < i ==> fresh(particles[k]) && particles[k].BuiltFrom(draws[k], width, height)
        invariant forall k :: 0 <= k < i ==> particles[k].Attributes() && HomeOnCanvas(particles[k].Snapshot(), width, height)
        invariant forall j, k :: 0 <= j < k < i ==> particles[j] != particles[k]
        decreases MaxParticles - i
      {
        var p := new Particle(draws[i], width, height);
        particles := particles + [p];
        i := i + 1;
      }
    }

    /** A resize: take the new canvas size, then rebuild the particles for it. */
    method Resize(newWidth: nat, newHeight: nat, draws: seq<Draw>)
      requires forall k :: 0 <= k < |draws| ==> ValidDraw(draws[k])
      requires ParticleCount(newWidth, newHeight) <= |draws|
      modifies this
      ensures Valid()
      ensures width == newWidth && height == newHeight && mouse == old(mouse)
      ensures forall k :: 0 <= k < |particles| ==> fresh(particles[k]) && particles[k].BuiltFrom(draws[k], width, height)
    {
      width, height := newWidth, newHeight;
      Init(draws);
    }

    /** `mousemove`: remember the pointer position. */
    method PointerMove(px: real, py: real)
      requires Valid()
      modifies this`mouse
      ensures Valid()
      ensures mouse == Some(Point(px, py))
    {
      mouse := Some(Point(px, py));
    }

    /** `mouseout`: the pointer position becomes unknown, which switches repulsion off. */
    method PointerOut()
      requires Valid()
      modifies this`mouse
      ensures Valid()
      ensures mouse == None
    {
      mouse := None;
    }

    /** `particles.forEach(particle => particle.update())`. */
    method UpdateAll(dist: (Point, Point) -> real)
      requires WellFormed() && IsDistance(dist)
      requires PointerClear(dist, mouse, Positions())
      modifies particles
      ensures WellFormed()
      ensures AdvancedFrom(old(Snapshots()), dist)
    {
      ghost var before := Snapshots();
      var i := 0;
      while i < |particles|
        invariant 0 <= i <= |particles|
        invariant forall k :: 0 <= k < i ==>
                    var d := PointerDistance(dist, mouse, Point(before[k].x, before[k].y));
                    && (mouse.Some? ==> 0.0 < d)
                    && particles[k].Snapshot()
                       == Advance(before[k], particles[k].density, particles[k].speedX, particles[k].speedY, width, height, mouse, d)
        invariant forall k :: i <= k < |particles| ==> particles[k].Snapshot() == before[k]
        invariant forall k :: 0 <= k < |particles| ==> HomeOnCanvas(particles[k].Snapshot(), width, height)
      {
        var p := particles[i];
        var d := 0.0;
        if mouse.Some? {
          d := dist(mouse.value, p.Position());
          assert old(Positions())[i] == Point(before[i].x, before[i].y);
        }
        p.Update(width, height, mouse, d);
        i := i + 1;
      }
    }

    /**
     * The inner loop of `connectParticles` for outer index `a`: visit every
     * `b` above `a` and collect the lines of the close pairs, in order.
     */
    method ConnectRow(dist: (Point, Point) -> real, a: nat, ghost pos: seq<Point>) returns (row: seq<Line>, ghost visited: seq<(nat, nat)>)
      requires a < |particles| && pos == Positions()
      ensures row == RowLines(pos, dist, a, |particles|)
      ensures visited == Row(a, |particles|)
    {
      var n := |particles|;
      row, visited := [], [];
      var b := a + 1;
      while b < n
        invariant a + 1 <= b <= n
        invariant row == RowLines(pos, dist, a, b)
        invariant visited == Row(a, b)
      {
        var from, to := particles[a].Position(), particles[b].Position();
        var distance := dist(from, to);
        LineForAt(pos, dist, a, b, distance);
        if distance < LinkDistance {
          var opacity := (LinkDistance - distance) / LinkDistance * LinkOpacity;
          row := row + [Line(a, b, from, to, opacity)];
        }
        var pair: (nat, nat) := (a, b);
        visited := visited + [pair];
        b := b + 1;
      }
    }

    /**
     * `connectParticles`: visit every pair `a < b` and draw a line for the
     * close ones; `visited` records the pairs in the order they are visited.
     */
    method ConnectParticles(dist: (Point, Point) -> real) returns (lines: seq<Line>, ghost visited: seq<(nat, nat)>)
      ensures lines == Connections(Positions(), dist)
      ensures visited == Pairs(|particles|)
    {
      var n := |particles|;
      ghost var pos := Positions();
      lines, visited := [], [];
      var a := 0;
      while a < n
        invariant 0 <= a <= n
        invariant lines == LinesBelow(pos, dist, a, n)
        invariant visited == PairsBelow(a, n)
        invariant pos == Positions()
      {
        var row, rowPairs := ConnectRow(dist, a, pos);
        LinesBelowNext(pos, dist, a, n);
        PairsBelowNext(a, n);
        lines, visited := lines + row, visited + rowPairs;
        a := a + 1;
      }
    }

    /** One animation frame: update every particle, then connect the close pairs at their new positions. */
    method Animate(dist: (Point, Point) -> real) returns (lines: seq<Line>)
      requires WellFormed() && IsDistance(dist)
      requires PointerClear(dist, mouse, Positions())
      modifies particles
      ensures WellFormed()
      ensures AdvancedFrom(old(Snapshots()), dist)
      ensures lines == Connections(Positions(), dist)
    {
      UpdateAll(dist);
      ghost var visited: seq<(nat, nat)>;
      lines, visited := ConnectParticles(dist);
    }
  }
}
