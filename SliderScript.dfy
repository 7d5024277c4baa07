/** The glue script.js adds to a ParticleSlider: it stores every particle's
    position, scatters the particles at random over the canvas, and on each
    scroll pulls every particle toward its stored position by the scroll
    progress. The slider itself comes from a library; only the particle list,
    the canvas size and the stored positions it is given are modelled. */
module SliderScript {
  import opened ParticleMath
  import opened Lists

  datatype Point = Point(x: real, y: real)

  /** A slider particle; only its position is used here. */
  class Ptl {
    var x: real
    var y: real

    constructor (x0: real, y0: real)
      ensures x == x0 && y == y0
    {
      x, y := x0, y0;
    }
  }

  function PointOf(p: Ptl): Point
    reads p
  {
    Point(p.x, p.y)
  }

  /** `ptls.map(ptl => ({x: ptl.x, y: ptl.y}))`. */
  function PointsOf(ps: seq<Ptl>): (r: seq<Point>)
    reads set p | p in ps
    ensures |r| == |ps|
    ensures forall i :: 0 <= i < |ps| ==> r[i] == PointOf(ps[i])
    decreases |ps|
  {
    if ps == [] then [] else PointsOf(ps[..|ps| - 1]) + [PointOf(ps[|ps| - 1])]
  }

  /** `a + (b - a) * t` in both coordinates. */
  function PullToward(a: Point, b: Point, t: real): Point
  {
    Point(Lerp(a.x, b.x, t), Lerp(a.y, b.y, t))
  }

  /** Every position pulled toward the stored position of the same index. */
  function Pulled(cur: seq<Point>, orig: seq<Point>, t: real): (r: seq<Point>)
    requires |cur| <= |orig|
    ensures |r| == |cur|
    ensures forall i :: 0 <= i < |cur| ==> r[i] == PullToward(cur[i], orig[i], t)
    decreases |cur|
  {
    if cur == [] then []
    else Pulled(cur[..|cur| - 1], orig, t) + [PullToward(cur[|cur| - 1], orig[|cur| - 1], t)]
  }

  /** Progress 0 leaves every position where it is. */
  lemma PulledAtZero(cur: seq<Point>, orig: seq<Point>)
    requires |cur| <= |orig|
    ensures Pulled(cur, orig, 0.0) == cur
  {
    var r := Pulled(cur, orig, 0.0);
    forall i | 0 <= i < |cur|
      ensures r[i] == cur[i]
    {
      assert r[i] == PullToward(cur[i], orig[i], 0.0);
    }
  }

  /** Progress 1 puts every particle exactly on its stored position. */
  lemma PulledAtOne(cur: seq<Point>, orig: seq<Point>)
    requires |cur| == |orig|
    ensures Pulled(cur, orig, 1.0) == orig
  {
    var r := Pulled(cur, orig, 1.0);
    forall i | 0 <= i < |cur|
      ensures r[i] == orig[i]
    {
      assert r[i] == PullToward(cur[i], orig[i], 1.0);
    }
  }

  /** For progress in [0, 1] each coordinate ends between where it was and
      where it is stored. */
  lemma PulledBetween(cur: seq<Point>, orig: seq<Point>, t: real, i: nat)
    requires |cur| <= |orig| && 0.0 <= t <= 1.0 && i < |cur|
    ensures Min(cur[i].x, orig[i].x) <= Pulled(cur, orig, t)[i].x <= Max(cur[i].x, orig[i].x)
    ensures Min(cur[i].y, orig[i].y) <= Pulled(cur, orig, t)[i].y <= Max(cur[i].y, orig[i].y)
  {
    assert Pulled(cur, orig, t)[i] == PullToward(cur[i], orig[i], t);
  }

  /** A list of positions that agrees with Pulled index by index is it. */
  lemma PulledExactly(after: seq<Point>, cur: seq<Point>, orig: seq<Point>, t: real)
    requires |after| == |cur| <= |orig|
    requires forall i :: 0 <= i < |cur| ==> after[i] == PullToward(cur[i], orig[i], t)
    ensures after == Pulled(cur, orig, t)
  {
  }

  /** The slider object `ps` as the script sees it. */
  class Slider {
    var ptls: seq<Ptl>
    var originalPositions: seq<Point>
    var cw: nat
    var ch: nat

    predicate Valid()
      reads this
    {
      Distinct(ptls)
    }

    /** A slider whose library has built the particles `ps` on a cw x ch
        canvas; no positions are stored yet. */
    constructor (ps: seq<Ptl>, w: nat, h: nat)
      requires Distinct(ps)
      ensures Valid() && ptls == ps && cw == w && ch == h && originalPositions == []
    {
      ptls, cw, ch := ps, w, h;
      originalPositions := [];
    }

    /** `ps.originalPositions = ps.ptls.map(...)`. */
    method Snapshot()
      modifies this`originalPositions
      ensures originalPositions == PointsOf(ptls)
    {
      originalPositions := PointsOf(ptls);
    }

    /** `disperseParticles(ps)`: each particle moves to a random point of the
        canvas, from its own pair of draws. */
    method DisperseParticles(draws: seq<Point>)
      requires Valid() && |draws| == |ptls|
      modifies set i | 0 <= i < |ptls| :: ptls[i]
      ensures forall i :: 0 <= i < |ptls| ==>
                ptls[i].x == RandomCoord(draws[i].x, cw as real) && ptls[i].y == RandomCoord(draws[i].y, ch as real)
      ensures forall i :: 0 <= i < |ptls| && IsDraw(draws[i].x) && IsDraw(draws[i].y) && cw > 0 && ch > 0 ==>
                0.0 <= ptls[i].x < cw as real && 0.0 <= ptls[i].y < ch as real
      ensures ptls == old(ptls) && originalPositions == old(originalPositions)
    {
      var i := 0;
      while i < |ptls|
        invariant 0 <= i <= |ptls|
        invariant forall j :: 0 <= j < i ==>
                    ptls[j].x == RandomCoord(draws[j].x, cw as real) && ptls[j].y == RandomCoord(draws[j].y, ch as real)
      {
        forall j | 0 <= j < |ptls| && j != i
          ensures ptls[j] != ptls[i]
        {
          DistinctAt(ptls, i, j);
        }
        ptls[i].x := RandomCoord(draws[i].x, cw as real);
        ptls[i].y := RandomCoord(draws[i].y, ch as real);
        i := i + 1;
      }
    }

    /** `updateParticlesPosition(ps, progress)`. Particle i is pulled toward
        `originalPositions[i]`; a particle without a stored position makes
        `originalPos.x` throw, which ends the loop there, so `ok` is false and
        that particle and all after it keep their positions. */
    method UpdateParticlesPosition(progress: real) returns (ok: bool)
      requires Valid()
      modifies set i | 0 <= i < |ptls| :: ptls[i]
      ensures ok <==> |ptls| <= |originalPositions|
      ensures forall i :: 0 <= i < |ptls| ==>
                PointOf(ptls[i]) == if i < |originalPositions|
                                    then PullToward(old(PointOf(ptls[i])), originalPositions[i], progress)
                                    else old(PointOf(ptls[i]))
      ensures ok ==> PointsOf(ptls) == Pulled(old(PointsOf(ptls)), originalPositions, progress)
      ensures ptls == old(ptls) && originalPositions == old(originalPositions)
    {
      ghost var before := PointsOf(ptls);
      var i := 0;
      while i < |ptls|
        invariant 0 <= i <= |ptls| && i <= |originalPositions|
        invariant forall j :: 0 <= j < i ==>
                    PointOf(ptls[j]) == PullToward(before[j], originalPositions[j], progress)
        invariant forall j :: i <= j < |ptls| ==> PointOf(ptls[j]) == before[j]
      {
        if i >= |originalPositions| {
          return false;
        }
        var originalPos := originalPositions[i];
        var ptl := ptls[i];
        forall j | 0 <= j < |ptls| && j != i
          ensures ptls[j] != ptl
        {
          DistinctAt(ptls, i, j);
        }
        var nx := ptl.x + (originalPos.x - ptl.x) * progress;
        var ny := ptl.y + (originalPos.y - ptl.y) * progress;
        assert Point(nx, ny) == PullToward(before[i], originalPos, progress);
        ptl.x, ptl.y := nx, ny;
        i := i + 1;
      }
      ok := true;
      PulledExactly(PointsOf(ptls), before, originalPositions, progress);
    }

    /** Lines 24-27 of `init`: store the positions, then scatter. Afterwards
        progress 1 brings every particle back to where the library put it. */
    method StoreAndDisperse(draws: seq<Point>)
      requires Valid() && |draws| == |ptls|
      modifies this`originalPositions, set i | 0 <= i < |ptls| :: ptls[i]
      ensures originalPositions == old(PointsOf(ptls)) && |originalPositions| == |ptls|
      ensures forall i :: 0 <= i < |ptls| ==>
                ptls[i].x == RandomCoord(draws[i].x, cw as real) && ptls[i].y == RandomCoord(draws[i].y, ch as real)
    {
      Snapshot();
      DisperseParticles(draws);
    }
  }
}
