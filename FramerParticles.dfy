/** The React/Framer variant of tst_forFramer.tsx: 500 particles with random
    starts and targets, a velocity that is damped every frame although the
    position is then overwritten by the plain interpolation, a pool of
    particles for reuse, a smoothed scroll progress, and a throttled frame
    loop that can be started and stopped. The closure state of
    `ParticleSystem(canvas)` is the state of the class of the same name. */
module FramerParticles {
  import opened ParticleMath
  import opened ScrollTracker
  import opened FrameLoop
  import opened Lists

  /** Particles `setupParticles` creates per call. */
  const ParticleCount: nat := 500

  /** The colour `generateColor` picks; its rendering as an `hsl(...)`
      string is not modelled. */
  datatype Hsl = Hsl(hue: real, saturation: real, lightness: real)

  /** The seven `Math.random()` draws of the constructor, in order: size,
      density, angle, speed, then hue, saturation and lightness. */
  datatype Draws = Draws(size: real, density: real, angle: real, speed: real,
                         hue: real, saturation: real, lightness: real)

  /** The four draws of one `setupParticles` iteration (start, then target),
      then the constructor's. */
  datatype SetupDraw = SetupDraw(x: real, y: real, targetX: real, targetY: real, attrs: Draws)

  /** What one particle `update` reads from the host: the `Math.random()`
      that picks the 10% cursor branch, and the distance to the cursor. */
  datatype Sample = Sample(roll: real, distance: real)

  /** `Math.random() * 1.5 + 0.5`. */
  function Size(draw: real): (s: real)
    ensures IsDraw(draw) ==> 0.5 <= s < 2.0
  {
    draw * 1.5 + 0.5
  }

  /** `generateColor`: hue `170 + r * 40 - 20`, saturation `70 + r * 70`,
      lightness `50 + r * 70`. */
  function Color(hue: real, saturation: real, lightness: real): (c: Hsl)
    ensures IsDraw(hue) ==> 150.0 <= c.hue < 190.0
    ensures IsDraw(saturation) ==> 70.0 <= c.saturation < 140.0
    ensures IsDraw(lightness) ==> 50.0 <= c.lightness < 120.0
  {
    Hsl(170.0 + hue * 40.0 - 20.0, 70.0 + saturation * 70.0, 50.0 + lightness * 70.0)
  }

  /** The damped velocity step `v += (goal - pos) * 0.05; v *= 0.95`, from
      the position before the step toward the interpolated point. */
  function VelocityStep(v: real, pos: real, goal: real): (r: real)
    ensures r == 0.95 * v + 0.0475 * (goal - pos)
    ensures pos == goal ==> r == 0.95 * v
    ensures v == 0.0 ==> (r > 0.0 <==> goal > pos) && (r < 0.0 <==> goal < pos)
  {
    (v + (goal - pos) * 0.05) * 0.95
  }

  /** Once a particle sits on its interpolated point, as every `update`
      leaves it, each further `update` at the same progress only damps its
      velocity: after n of them it is 0.95^n of what it was. */
  lemma {:induction false} SettledVelocity(v: real, goal: real, n: nat)
    ensures Settle(v, goal, n) == Damping(n) * v
    decreases n
  {
    if n > 0 {
      SettledVelocity(v, goal, n - 1);
      assert 0.95 * (Damping(n - 1) * v) == (0.95 * Damping(n - 1)) * v;
    }
  }

  /** The velocity after n updates that each start on the interpolated point. */
  function Settle(v: real, goal: real, n: nat): real
    decreases n
  {
    if n == 0 then v else VelocityStep(Settle(v, goal, n - 1), goal, goal)
  }

  /** 0.95 to the n-th power. */
  function Damping(n: nat): (d: real)
    ensures 0.0 < d <= 1.0
  {
    if n == 0 then 1.0 else 0.95 * Damping(n - 1)
  }

  class Particle {
    var vx: real
    var vy: real
    var x: real
    var y: real
    var targetX: real
    var targetY: real
    var size: real
    var baseX: real
    var baseY: real
    var density: real
    var angle: real
    var speed: real
    var color: Hsl
    var opacity: real

    /** The state `new Particle(x, y, targetX, targetY)` leaves. */
    predicate Born(x0: real, y0: real, tx: real, ty: real, d: Draws)
      reads this
    {
      vx == 0.0 && vy == 0.0 && x == x0 && y == y0 && targetX == tx && targetY == ty &&
      size == Size(d.size) && baseX == x0 && baseY == y0 &&
      density == Density(d.density) && angle == Angle(d.angle) && speed == Speed(d.speed) &&
      color == Color(d.hue, d.saturation, d.lightness) && opacity == 1.0
    }

    constructor (x0: real, y0: real, tx: real, ty: real, d: Draws)
      ensures Born(x0, y0, tx, ty, d)
    {
      vx, vy := 0.0, 0.0;
      x, y := x0, y0;
      targetX, targetY := tx, ty;
      size := Size(d.size);
      baseX, baseY := x0, y0;
      density := Density(d.density);
      angle := Angle(d.angle);
      speed := Speed(d.speed);
      color := Color(d.hue, d.saturation, d.lightness);
      opacity := 1.0;
    }

    /** What one `update(progress, mouseX, mouseY)` does: the velocity takes
        one damped step from the old position, and the position ends on the
        interpolated point whatever the cursor, the velocity and the random
        branch; nothing else changes. */
    twostate predicate Stepped(progress: real)
      reads this
    {
      vx == VelocityStep(old(vx), old(x), Lerp(baseX, targetX, progress)) &&
      vy == VelocityStep(old(vy), old(y), Lerp(baseY, targetY, progress)) &&
      x == Lerp(baseX, targetX, progress) && y == Lerp(baseY, targetY, progress) &&
      baseX == old(baseX) && baseY == old(baseY) && targetX == old(targetX) && targetY == old(targetY) &&
      size == old(size) && density == old(density) && angle == old(angle) && speed == old(speed) &&
      color == old(color) && opacity == old(opacity)
    }

    method Update(progress: real, mouseX: real, mouseY: real, s: Sample)
      modifies this`vx, this`vy, this`x, this`y
      ensures Stepped(progress)
    {
      var goalX := Lerp(baseX, targetX, progress);
      var goalY := Lerp(baseY, targetY, progress);
      var nvx := (vx + (goalX - x) * 0.05) * 0.95;
      var nvy := (vy + (goalY - y) * 0.05) * 0.95;
      var nx := x + nvx;
      var ny := y + nvy;
      if s.roll < 0.1 {
        var dx := mouseX - nx;
        var dy := mouseY - ny;
        // At distance 0 the original divides by zero; the NaN it gets is
        // overwritten below like every other value of this branch.
        if s.distance != 0.0 {
          nx := nx + CursorOffset(dx, s.distance, density, 0.3);
          ny := ny + CursorOffset(dy, s.distance, density, 0.3);
        }
      }
      vx, vy := nvx, nvy;
      x, y := nx, ny;
      x, y := Lerp(baseX, targetX, progress), Lerp(baseY, targetY, progress);
    }

    /** What `reset(x, y, targetX, targetY)` does: the position and target
        are replaced and every other field keeps its value. */
    twostate predicate ResetTo(x0: real, y0: real, tx: real, ty: real)
      reads this
    {
      x == x0 && y == y0 && targetX == tx && targetY == ty &&
      vx == old(vx) && vy == old(vy) && baseX == old(baseX) && baseY == old(baseY) &&
      size == old(size) && density == old(density) && angle == old(angle) && speed == old(speed) &&
      color == old(color) && opacity == old(opacity)
    }

    method Reset(x0: real, y0: real, tx: real, ty: real)
      modifies this`x, this`y, this`targetX, this`targetY
      ensures ResetTo(x0, y0, tx, ty)
    {
      x, y := x0, y0;
      targetX, targetY := tx, ty;
    }
  }

  /** A particle built by `setupParticles` from draw d on a width x height
      canvas. */
  predicate Made(p: Particle, d: SetupDraw, width: nat, height: nat)
    reads p
  {
    p.Born(RandomCoord(d.x, width as real), RandomCoord(d.y, height as real),
           RandomCoord(d.targetX, width as real), RandomCoord(d.targetY, height as real), d.attrs)
  }

  /** From index o on, ps holds the particles made, in order, from the
      first n draws. */
  predicate MadeRun(ps: seq<Particle>, o: nat, draws: seq<SetupDraw>, n: nat, width: nat, height: nat)
    reads set p | p in ps
  {
    o + n <= |ps| && n <= |draws| &&
    forall j :: 0 <= j < n ==> Made(ps[o + j], draws[j], width, height)
  }

  lemma MadeRunPush(ps: seq<Particle>, p: Particle, o: nat, draws: seq<SetupDraw>, n: nat,
                    width: nat, height: nat)
    requires MadeRun(ps, o, draws, n, width, height) && |ps| == o + n
    requires n < |draws| && Made(p, draws[n], width, height)
    ensures MadeRun(ps + [p], o, draws, n + 1, width, height)
  {
    var qs := ps + [p];
    forall j | 0 <= j < n + 1
      ensures Made(qs[o + j], draws[j], width, height)
    {
      if j < n {
        assert qs[o + j] == ps[o + j];
      }
    }
  }

  /** With draws in [0, 1), a particle of `setupParticles` starts and aims
      inside the canvas. */
  lemma MadeInCanvas(p: Particle, d: SetupDraw, width: nat, height: nat)
    requires Made(p, d, width, height) && width > 0 && height > 0
    requires IsDraw(d.x) && IsDraw(d.y) && IsDraw(d.targetX) && IsDraw(d.targetY)
    ensures 0.0 <= p.x < width as real && 0.0 <= p.y < height as real
    ensures 0.0 <= p.targetX < width as real && 0.0 <= p.targetY < height as real
  {
    var w, h := width as real, height as real;
    assert p.x == RandomCoord(d.x, w) && p.targetX == RandomCoord(d.targetX, w);
    assert p.y == RandomCoord(d.y, h) && p.targetY == RandomCoord(d.targetY, h);
  }

  class ParticleSystem {
    var particles: seq<Particle>
    var pool: seq<Particle>
    var isSetup: bool
    var mouseX: real
    var mouseY: real
    var lastTime: real
    /** `animationFrameId` (as `frames.held`) and the requests the host will fire. */
    var frames: Loop
    var targetScrollProgress: real
    var currentScrollProgress: real

    predicate Valid()
      reads this
    {
      Distinct(particles) &&
      0.0 <= targetScrollProgress <= 1.0 && 0.0 <= currentScrollProgress <= 1.0
    }

    /** `ParticleSystem(canvas)` on a width x height window: the closure
        state starts empty, then `setup(); start();` run. */
    constructor (width: nat, height: nat, draws: seq<SetupDraw>, untracked: nat, started: nat)
      requires |draws| >= ParticleCount && untracked != started
      ensures Valid() && isSetup && |particles| == ParticleCount && pool == []
      ensures MadeRun(particles, 0, draws, ParticleCount, width, height)
      ensures frames == Loop(Some(started), {untracked, started})
      ensures lastTime == 0.0 && currentScrollProgress == 0.0 && targetScrollProgress == 0.0
    {
      particles, pool := [], [];
      isSetup := false;
      mouseX, mouseY := 0.0, 0.0;
      lastTime := 0.0;
      frames := Loop(None, {});
      targetScrollProgress, currentScrollProgress := 0.0, 0.0;
      new;
      Setup(width, height, draws, untracked);
      Start(started);
    }

    /** The `mousemove` listener `setup` installs. */
    method MouseMove(ex: real, ey: real)
      modifies this`mouseX, this`mouseY
      ensures mouseX == ex && mouseY == ey
    {
      mouseX, mouseY := ex, ey;
    }

    /** The `scroll` listener: the target progress is the clamped ratio. */
    method OnScroll(scrollY: real, scrollHeight: real, innerHeight: real)
      requires Valid() && scrollHeight - innerHeight != 0.0
      modifies this`targetScrollProgress
      ensures Valid()
      ensures targetScrollProgress == ScrollProgress(scrollY, scrollHeight, innerHeight)
    {
      targetScrollProgress := ScrollProgress(scrollY, scrollHeight, innerHeight);
    }

    /** `smoothScroll()`: one smoothing step toward the target progress. */
    method SmoothScroll()
      requires Valid()
      modifies this`currentScrollProgress
      ensures Valid()
      ensures currentScrollProgress == SmoothStep(old(currentScrollProgress), targetScrollProgress)
    {
      currentScrollProgress := currentScrollProgress + (targetScrollProgress - currentScrollProgress) * 0.1;
    }

    /** `getParticle(x, y, targetX, targetY)`: reuse the last pooled particle
        after a reset, or build a new one when the pool is empty. */
    method GetParticle(x0: real, y0: real, tx: real, ty: real, d: Draws) returns (p: Particle)
      modifies this`pool, if |pool| > 0 then {pool[|pool| - 1]} else {}
      ensures old(|pool|) > 0 ==>
                p == old(pool[|pool| - 1]) && pool == old(pool[..|pool| - 1]) && p.ResetTo(x0, y0, tx, ty)
      ensures old(|pool|) == 0 ==> pool == [] && fresh(p) && p.Born(x0, y0, tx, ty, d)
    {
      if |pool| > 0 {
        p := pool[|pool| - 1];
        pool := pool[..|pool| - 1];
        p.Reset(x0, y0, tx, ty);
        return;
      }
      p := new Particle(x0, y0, tx, ty, d);
    }

    /** `setupParticles()`: append 500 new particles, never clearing the list. */
    method SetupParticles(width: nat, height: nat, draws: seq<SetupDraw>)
      requires Valid() && |draws| >= ParticleCount
      modifies this`particles
      ensures Valid()
      ensures |particles| == |old(particles)| + ParticleCount && old(particles) <= particles
      ensures MadeRun(particles, |old(particles)|, draws, ParticleCount, width, height)
    {
      ghost var o := |particles|;
      var i := 0;
      while i < ParticleCount
        invariant 0 <= i <= ParticleCount
        invariant |particles| == o + i && old(particles) <= particles
        invariant MadeRun(particles, o, draws, i, width, height)
        invariant Valid()
      {
        var d := draws[i];
        var x := RandomCoord(d.x, width as real);
        var y := RandomCoord(d.y, height as real);
        var tx := RandomCoord(d.targetX, width as real);
        var ty := RandomCoord(d.targetY, height as real);
        var p := new Particle(x, y, tx, ty, d.attrs);
        assert p !in particles;
        DistinctPush(particles, p);
        MadeRunPush(particles, p, o, draws, i, width, height);
        PrefixPush(old(particles), particles, p);
        particles := particles + [p];
        i := i + 1;
      }
    }

    /** `update(progress)`: nothing before setup, else every particle steps
        once. */
    method Update(progress: real, samples: seq<Sample>)
      requires Valid() && |samples| == |particles|
      modifies set i | 0 <= i < |particles| :: particles[i]
      ensures !isSetup ==> forall i :: 0 <= i < |particles| ==> unchanged(particles[i])
      ensures isSetup ==> forall i :: 0 <= i < |particles| ==> particles[i].Stepped(progress)
    {
      if !isSetup {
        return;
      }
      var i := 0;
      while i < |particles|
        invariant 0 <= i <= |particles|
        invariant forall j :: 0 <= j < i ==> particles[j].Stepped(progress)
        invariant forall j :: i <= j < |particles| ==> unchanged(particles[j])
      {
        forall j | 0 <= j < |particles| && j != i
          ensures particles[j] != particles[i]
        {
          DistinctAt(particles, i, j);
        }
        particles[i].Update(progress, mouseX, mouseY, samples[i]);
        i := i + 1;
      }
    }

    /** `animate(timestamp)`, run when the host fires request `fired`: the
        smoothing and the update run only when the throttle lets the frame
        through, and the next frame, `next`, is always requested. */
    method Animate(timestamp: real, fired: nat, next: nat, samples: seq<Sample>)
      requires Valid() && |samples| == |particles|
      requires fired in frames.pending && next !in frames.pending
      modifies this`lastTime, this`currentScrollProgress, this`frames
      modifies set i | 0 <= i < |particles| :: particles[i]
      ensures Valid()
      ensures lastTime == Throttle(old(lastTime), timestamp).lastTime
      ensures frames == FireStep(old(frames), fired, next)
      ensures Throttle(old(lastTime), timestamp).work ==>
                currentScrollProgress == SmoothStep(old(currentScrollProgress), targetScrollProgress)
      ensures !Throttle(old(lastTime), timestamp).work ==> currentScrollProgress == old(currentScrollProgress)
      ensures Throttle(old(lastTime), timestamp).work && isSetup ==>
                forall i :: 0 <= i < |particles| ==> particles[i].Stepped(currentScrollProgress)
      ensures !(Throttle(old(lastTime), timestamp).work && isSetup) ==>
                forall i :: 0 <= i < |particles| ==> unchanged(particles[i])
    {
      if lastTime == 0.0 {
        lastTime := timestamp;
      }
      var delta := timestamp - lastTime;
      if delta > FrameInterval {
        SmoothScroll();
        Update(currentScrollProgress, samples);
        lastTime := timestamp;
      }
      frames := Loop(Some(next), frames.pending - {fired} + {next});
    }

    /** `start()`: request a frame only when no handle is held. */
    method Start(handle: nat)
      requires handle !in frames.pending
      modifies this`frames
      ensures frames == StartStep(old(frames), handle)
    {
      if frames.held.None? {
        frames := Loop(Some(handle), frames.pending + {handle});
      }
    }

    /** `stop()`: cancel the held request, if any, and forget its handle. */
    method Stop()
      modifies this`frames
      ensures frames == StopStep(old(frames))
    {
      if frames.held.Some? {
        frames := Loop(None, frames.pending - {frames.held.value});
      }
    }

    /** `setup()` on a width x height window: set up the particles, mark the
        system ready and request a first frame whose handle is not kept. */
    method Setup(width: nat, height: nat, draws: seq<SetupDraw>, handle: nat)
      requires Valid() && |draws| >= ParticleCount && handle !in frames.pending
      modifies this`particles, this`isSetup, this`frames
      ensures Valid() && isSetup
      ensures |particles| == |old(particles)| + ParticleCount && old(particles) <= particles
      ensures MadeRun(particles, |old(particles)|, draws, ParticleCount, width, height)
      ensures frames == UntrackedRequest(old(frames), handle)
    {
      SetupParticles(width, height, draws);
      isSetup := true;
      frames := Loop(frames.held, frames.pending + {handle});
    }
  }
}
