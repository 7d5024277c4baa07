/** The scroll-driven particle system of custom-particles.js: particles are
    spawned at random positions, one per opaque sampled pixel of an image,
    and every frame each one is placed on the straight line from its base to
    its target by the scroll progress, plus a sinusoidal wobble and a push
    toward the cursor. */
module CustomParticles {
  import opened ParticleMath
  import opened ScrollTracker
  import opened ImageScan
  import opened Lists

  /** Drawn size of every particle. */
  const ParticleSize: real := 5.0

  /** The three `Math.random()` draws of the constructor, in order. */
  datatype AttrDraws = AttrDraws(density: real, angle: real, speed: real)

  /** The two draws for the start position, then the constructor's draws. */
  datatype SpawnDraw = SpawnDraw(x: real, y: real, attrs: AttrDraws)

  /** What one `update` call reads from the host: the distance to the cursor
      (`Math.sqrt(dx * dx + dy * dy)`) and the sine and cosine of the
      advanced wobble angle. */
  datatype Sample = Sample(distance: real, sin: real, cos: real)

  /** One coordinate after `update`: interpolated by progress, plus the
      wobble, plus the cursor push computed from the position before the
      call. */
  function Position(base: real, target: real, progress: real, wobble: real,
                    delta: real, distance: real, density: real): real
    requires distance != 0.0
  {
    base + wobble * 2.0 + CursorOffset(delta, distance, density, 0.6) + (target - base) * progress
  }

  /** Without wobble and with the cursor out of range, a particle sits on its
      base at progress 0 and on its target at progress 1. */
  lemma PositionEndpoints(base: real, target: real, delta: real, distance: real, density: real)
    requires distance >= 100.0
    ensures Position(base, target, 0.0, 0.0, delta, distance, density) == base
    ensures Position(base, target, 1.0, 0.0, delta, distance, density) == target
  {
    assert CursorForce(distance) == 0.0;
  }

  /** A particle never strays from its interpolated point by more than the
      wobble amplitude plus density * 0.6. */
  lemma PositionNearPath(base: real, target: real, progress: real, wobble: real,
                         dx: real, dy: real, distance: real, density: real)
    requires distance > 0.0 && distance * distance == dx * dx + dy * dy
    requires density >= 0.0 && -1.0 <= wobble <= 1.0
    ensures Abs(Position(base, target, progress, wobble, dx, distance, density) - Lerp(base, target, progress))
              <= 2.0 + density * 0.6
  {
    CursorOffsetBound(dx, dy, distance, density, 0.6);
  }

  class Particle {
    var x: real
    var y: real
    var targetX: real
    var targetY: real
    var size: real
    var baseX: real
    var baseY: real
    var density: real
    var angle: real
    var speed: real

    /** The state `new Particle(x, y, targetX, targetY)` leaves. */
    predicate Born(x0: real, y0: real, tx: real, ty: real, d: AttrDraws)
      reads this
    {
      x == x0 && y == y0 && targetX == tx && targetY == ty && size == ParticleSize &&
      baseX == x0 && baseY == y0 &&
      density == Density(d.density) && angle == Angle(d.angle) && speed == Speed(d.speed)
    }

    constructor (x0: real, y0: real, tx: real, ty: real, d: AttrDraws)
      ensures Born(x0, y0, tx, ty, d)
    {
      x, y := x0, y0;
      targetX, targetY := tx, ty;
      size := ParticleSize;
      baseX, baseY := x0, y0;
      density := Density(d.density);
      angle := Angle(d.angle);
      speed := Speed(d.speed);
    }

    /** The sample really is the distance from this particle to the cursor. */
    predicate SampleFits(s: Sample, mouseX: real, mouseY: real)
      reads this
    {
      s.distance > 0.0 && s.distance * s.distance == Sq(mouseX - x) + Sq(mouseY - y)
    }

    /** What one `update(progress, mouseX, mouseY)` does to a particle. */
    twostate predicate Stepped(progress: real, mouseX: real, mouseY: real, s: Sample)
      reads this
    {
      s.distance != 0.0 &&
      angle == old(angle) + speed && speed == old(speed) &&
      x == Position(baseX, targetX, progress, s.sin, mouseX - old(x), s.distance, density) &&
      y == Position(baseY, targetY, progress, s.cos, mouseY - old(y), s.distance, density) &&
      baseX == old(baseX) && baseY == old(baseY) && targetX == old(targetX) && targetY == old(targetY) &&
      density == old(density) && size == old(size)
    }

    method Update(progress: real, mouseX: real, mouseY: real, s: Sample)
      requires SampleFits(s, mouseX, mouseY)
      modifies this`x, this`y, this`angle
      ensures Stepped(progress, mouseX, mouseY, s)
    {
      var dx := mouseX - x;
      var dy := mouseY - y;
      var directionX := CursorOffset(dx, s.distance, density, 0.6);
      var directionY := CursorOffset(dy, s.distance, density, 0.6);
      angle := angle + speed;
      var wobbleX := s.sin * 2.0;
      var wobbleY := s.cos * 2.0;
      var nx := baseX + wobbleX + directionX + (targetX - baseX) * progress;
      var ny := baseY + wobbleY + directionY + (targetY - baseY) * progress;
      assert nx == Position(baseX, targetX, progress, s.sin, dx, s.distance, density);
      assert ny == Position(baseY, targetY, progress, s.cos, dy, s.distance, density);
      x, y := nx, ny;
    }
  }

  /** A particle spawned by the scan from draw d for the pixel c of a canvas
      of the given size. */
  predicate Spawned(p: Particle, d: SpawnDraw, c: Cell, width: nat, height: nat)
    reads p
  {
    p.Born(RandomCoord(d.x, width as real), RandomCoord(d.y, height as real), c.x as real, c.y as real, d.attrs)
  }

  /** From index o on, ps holds the particles spawned, in order, for the
      cells, from the draws starting at index k0. */
  predicate SpawnedRun(ps: seq<Particle>, o: nat, draws: seq<SpawnDraw>, k0: nat, cells: seq<Cell>,
                       width: nat, height: nat)
    reads set p | p in ps
  {
    o + |cells| <= |ps| && k0 + |cells| <= |draws| &&
    forall j :: 0 <= j < |cells| ==> Spawned(ps[o + j], draws[k0 + j], cells[j], width, height)
  }

  /** Pushing a particle spawned for c from the next draw extends a run. */
  lemma RunPush(ps: seq<Particle>, p: Particle, o: nat, draws: seq<SpawnDraw>, k0: nat,
                cells: seq<Cell>, c: Cell, width: nat, height: nat)
    requires SpawnedRun(ps, o, draws, k0, cells, width, height) && |ps| == o + |cells|
    requires k0 + |cells| < |draws| && Spawned(p, draws[k0 + |cells|], c, width, height)
    ensures SpawnedRun(ps + [p], o, draws, k0, cells + [c], width, height)
  {
    var qs, cs := ps + [p], cells + [c];
    forall j | 0 <= j < |cs|
      ensures Spawned(qs[o + j], draws[k0 + j], cs[j], width, height)
    {
      if j < |cells| {
        assert qs[o + j] == ps[o + j] && cs[j] == cells[j];
      }
    }
  }

  class ParticleSystem {
    var particles: seq<Particle>
    var isSetup: bool
    var mouseX: real
    var mouseY: real

    predicate Valid()
      reads this
    {
      Distinct(particles)
    }

    constructor ()
      ensures Valid() && particles == [] && !isSetup && mouseX == 0.0 && mouseY == 0.0
    {
      particles := [];
      isSetup := false;
      mouseX, mouseY := 0.0, 0.0;
    }

    /** The `mousemove` listener. */
    method MouseMove(ex: real, ey: real)
      modifies this`mouseX, this`mouseY
      ensures mouseX == ex && mouseY == ey
    {
      mouseX, mouseY := ex, ey;
    }

    /** The body of the scan for an opaque pixel c: construct a particle at
        a random position targeting c, rebase it in the second pass, push it.
        The particles from index o on were spawned for `cells` from the
        draws starting at k0, and k is the next draw. */
    method Spawn(draws: seq<SpawnDraw>, k0: nat, k: nat, c: Cell, width: nat, height: nat, rebase: bool,
                 ghost o: nat, ghost cells: seq<Cell>)
      requires Valid() && o <= |particles|
      requires SpawnedRun(particles, o, draws, k0, cells, width, height) && |particles| == o + |cells|
      requires k == k0 + |cells| && k < |draws|
      modifies this`particles
      ensures Valid()
      ensures |particles| == |old(particles)| + 1 && old(particles) <= particles
      ensures SpawnedRun(particles, o, draws, k0, cells + [c], width, height)
    {
      var d := draws[k];
      var p := new Particle(RandomCoord(d.x, width as real), RandomCoord(d.y, height as real),
                            c.x as real, c.y as real, d.attrs);
      assert p !in particles;
      DistinctPush(particles, p);
      if rebase {
        p.baseX := p.x;
        p.baseY := p.y;
      }
      assert SpawnedRun(particles, o, draws, k0, cells, width, height);
      RunPush(particles, p, o, draws, k0, cells, c, width, height);
      particles := particles + [p];
    }

    /** The inner loop of one pass: row y, columns 0, 5, ... below width.
        The particles from index o on were spawned by the rows before y from
        the draws starting at k0; `next` is the draw this row starts at. */
    method ScanRow(data: seq<Byte>, width: nat, height: nat, y: nat,
                   draws: seq<SpawnDraw>, k0: nat, next: nat, rebase: bool,
                   ghost o: nat, ghost done: seq<Cell>)
      requires Valid() && y % 5 == 0
      requires SpawnedRun(particles, o, draws, k0, done, width, height) && |particles| == o + |done|
      requires next == k0 + |done|
      requires next + |RowPrefix(data, width, y, GridEnd(width))| <= |draws|
      modifies this`particles
      ensures Valid()
      ensures old(particles) <= particles
      ensures SpawnedRun(particles, o, draws, k0, done + RowPrefix(data, width, y, GridEnd(width)), width, height)
      ensures |particles| == o + |done + RowPrefix(data, width, y, GridEnd(width))|
    {
      ghost var acc: seq<Cell> := [];
      GridEndFacts(width);
      var x: nat := 0;
      var k: nat := next;
      while x < width
        invariant x % 5 == 0 && x <= GridEnd(width)
        invariant acc == RowPrefix(data, width, y, x) && k == next + |acc|
        invariant old(particles) <= particles
        invariant SpawnedRun(particles, o, draws, k0, done + acc, width, height) && |particles| == o + |done + acc|
        invariant Valid()
        decreases GridEnd(width) - x
      {
        RowStep(data, width, y, x);
        if Opaque(data, width, x, y) {
          ghost var before := particles;
          Spawn(draws, k0, k, Cell(x, y), width, height, rebase, o, done + acc);
          PrefixTrans(old(particles), before, particles);
          AppendAssoc(done, acc, [Cell(x, y)]);
          acc := acc + [Cell(x, y)];
          k := k + 1;
        }
        x := x + 5;
      }
      GridEndExit(width, x);
    }

    /** One pass of the double loop of `setupParticles` (rows outer, columns
        inner, both by 5), consuming draws from k0 on; `rebase` adds the
        second pass's `baseX = x; baseY = y`. */
    method ScanPass(data: seq<Byte>, width: nat, height: nat,
                    draws: seq<SpawnDraw>, k0: nat, rebase: bool, ghost o: nat)
      requires Valid() && o == |particles|
      requires k0 + |GridHits(data, width, height)| <= |draws|
      modifies this`particles
      ensures Valid()
      ensures old(particles) <= particles
      ensures SpawnedRun(particles, o, draws, k0, GridHits(data, width, height), width, height)
      ensures |particles| == o + |GridHits(data, width, height)|
    {
      ghost var acc: seq<Cell> := [];
      GridEndFacts(width);
      GridEndFacts(height);
      var y: nat := 0;
      var k: nat := k0;
      while y < height
        invariant y % 5 == 0 && y <= GridEnd(height)
        invariant acc == RowsBefore(data, width, y) && k == k0 + |acc|
        invariant acc <= GridHits(data, width, height)
        invariant old(particles) <= particles
        invariant SpawnedRun(particles, o, draws, k0, acc, width, height) && |particles| == o + |acc|
        invariant Valid()
        decreases GridEnd(height) - y
      {
        NextMultiple(y, GridEnd(height));
        RowsBeforeNext(data, width, y);
        RowsBeforeInPass(data, width, height, y);
        ghost var row := RowPrefix(data, width, y, GridEnd(width));
        var n0 := |particles|;
        ghost var before := particles;
        ScanRow(data, width, height, y, draws, k0, k, rebase, o, acc);
        PrefixTrans(old(particles), before, particles);
        acc := acc + row;
        k := k + (|particles| - n0);
        y := y + 5;
      }
      GridEndExit(height, y);
    }

    /** `setupParticles` on the buffer `data` of a width x height canvas: the
        scan runs twice and the list is never cleared, so it grows by twice
        the hits of one pass, the second half repeating the first's targets. */
    method SetupParticles(data: seq<Byte>, width: nat, height: nat, draws: seq<SpawnDraw>)
      requires Valid()
      requires 2 * |GridHits(data, width, height)| <= |draws|
      modifies this`particles, this`isSetup
      ensures Valid() && isSetup
      ensures var hits := GridHits(data, width, height);
              var o := |old(particles)|;
              |particles| == o + 2 * |hits| && old(particles) <= particles &&
              SpawnedRun(particles, o, draws, 0, hits, width, height) &&
              SpawnedRun(particles, o + |hits|, draws, |hits|, hits, width, height)
    {
      ghost var o := |particles|;
      var n := |GridHits(data, width, height)|;
      ScanPass(data, width, height, draws, 0, false, o);
      ghost var first := particles;
      isSetup := true;
      ScanPass(data, width, height, draws, n, true, o + n);
      PrefixTrans(old(particles), first, particles);
      assert particles[..o + n] == first;
    }

    /** `update(progress)`: nothing before setup, else every particle steps
        once with the current cursor. */
    method Update(progress: real, samples: seq<Sample>)
      requires Valid() && |samples| == |particles|
      requires isSetup ==> forall i :: 0 <= i < |particles| ==> particles[i].SampleFits(samples[i], mouseX, mouseY)
      modifies set i | 0 <= i < |particles| :: particles[i]
      ensures Valid()
      ensures !isSetup ==> forall i :: 0 <= i < |particles| ==> unchanged(particles[i])
      ensures isSetup ==> forall i :: 0 <= i < |particles| ==> particles[i].Stepped(progress, mouseX, mouseY, samples[i])
    {
      if !isSetup {
        return;
      }
      var i := 0;
      while i < |particles|
        invariant 0 <= i <= |particles|
        invariant forall j :: 0 <= j < i ==> particles[j].Stepped(progress, mouseX, mouseY, samples[j])
        invariant forall j :: i <= j < |particles| ==> unchanged(particles[j])
      {
        forall j | 0 <= j < |particles| && j != i
          ensures particles[j] != particles[i]
        {
          DistinctAt(particles, i, j);
        }
        particles[i].Update(progress, mouseX, mouseY, samples[i]);
        i := i + 1;
      }
    }

    /** `animate()`: the page's clamped scroll progress drives `update`. */
    method Animate(scrollY: real, scrollHeight: real, innerHeight: real, samples: seq<Sample>)
      requires scrollHeight - innerHeight != 0.0
      requires Valid() && |samples| == |particles|
      requires isSetup ==> forall i :: 0 <= i < |particles| ==> particles[i].SampleFits(samples[i], mouseX, mouseY)
      modifies set i | 0 <= i < |particles| :: particles[i]
      ensures Valid()
      ensures !isSetup ==> forall i :: 0 <= i < |particles| ==> unchanged(particles[i])
      ensures isSetup ==> forall i :: 0 <= i < |particles| ==>
                particles[i].Stepped(ScrollProgress(scrollY, scrollHeight, innerHeight), mouseX, mouseY, samples[i])
    {
      var progress := ScrollProgress(scrollY, scrollHeight, innerHeight);
      Update(progress, samples);
    }
  }
}
