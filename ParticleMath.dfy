/** Arithmetic shared by the three particle animations: linear interpolation
    toward a target, the cursor force field, and the maps from a random draw
    in [0, 1) to a particle attribute. Coordinates are exact reals; the
    square root, sine and cosine of the original are supplied by the caller. */
module ParticleMath {

  datatype Option<T> = None | Some(value: T)

  function Min(a: real, b: real): real { if a <= b then a else b }
  function Max(a: real, b: real): real { if a <= b then b else a }
  function Abs(a: real): real { if a < 0.0 then -a else a }
  function Sq(a: real): real { a * a }

  /** A value `Math.random()` can return. */
  predicate IsDraw(r: real) { 0.0 <= r < 1.0 }

  /** `a + (b - a) * t`, the interpolation every variant uses: toward a
      target by scroll progress, toward the scroll target by the smoothing
      factor, toward the stored original position. */
  function Lerp(a: real, b: real, t: real): (r: real)
    ensures t == 0.0 ==> r == a
    ensures t == 1.0 ==> r == b
    ensures 0.0 <= t <= 1.0 ==> Min(a, b) <= r <= Max(a, b)
    ensures r - b == (1.0 - t) * (a - b)
  {
    var r := a + (b - a) * t;
    BetweenWhenUnit(a, b, t);
    r
  }

  lemma BetweenWhenUnit(a: real, b: real, t: real)
    ensures 0.0 <= t <= 1.0 ==> Min(a, b) <= a + (b - a) * t <= Max(a, b)
  {
    if 0.0 <= t <= 1.0 {
      var d := b - a;
      assert d - d * t == d * (1.0 - t);
      if a <= b {
        MulNonneg(d, t);
        MulNonneg(d, 1.0 - t);
      } else {
        MulNonneg(-d, t);
        MulNonneg(-d, 1.0 - t);
      }
    }
  }

  lemma MulNonneg(x: real, y: real)
    requires x >= 0.0 && y >= 0.0
    ensures x * y >= 0.0
  {
  }

  lemma MulPos(x: real, y: real)
    requires x > 0.0 && y > 0.0
    ensures x * y > 0.0
  {
  }

  /** The cursor force magnitude `max(0, (100 - d) / 100)` at distance d;
      100 is the radius beyond which the cursor has no effect. Constants of
      the model are written as literals so that products with them stay
      linear for the verifier. */
  function CursorForce(distance: real): (f: real)
    ensures 0.0 <= f
    ensures 0.0 <= distance ==> f <= 1.0
    ensures f == 0.0 <==> distance >= 100.0
  {
    var force := (100.0 - distance) / 100.0;
    if force < 0.0 then 0.0 else force
  }

  lemma CursorForceMonotone(d1: real, d2: real)
    requires d1 <= d2
    ensures CursorForce(d2) <= CursorForce(d1)
  {
  }

  /** One component of the cursor displacement: the unit direction toward
      the cursor (`delta / distance`) times the force, the particle's density
      and the variant's scale (0.6 or 0.3). */
  function CursorOffset(delta: real, distance: real, density: real, scale: real): real
    requires distance != 0.0
  {
    delta / distance * CursorForce(distance) * density * scale
  }

  /** A component of a vector is no longer than the vector. */
  lemma ComponentBound(dx: real, dy: real, distance: real)
    requires distance > 0.0 && distance * distance == dx * dx + dy * dy
    ensures -distance <= dx <= distance
  {
    assert dy * dy >= 0.0;
  }

  lemma UnitDirection(dx: real, distance: real)
    requires distance > 0.0 && -distance <= dx <= distance
    ensures -1.0 <= dx / distance <= 1.0
  {
    assert dx / distance * distance == dx;
  }

  lemma ScaledByUnit(u: real, f: real)
    requires -1.0 <= u <= 1.0 && 0.0 <= f <= 1.0
    ensures -1.0 <= u * f <= 1.0
  {
    assert u - u * f == u * (1.0 - f);
    if u >= 0.0 {
      MulNonneg(u, f);
      MulNonneg(u, 1.0 - f);
    } else {
      MulNonneg(-u, f);
      MulNonneg(-u, 1.0 - f);
      assert (-u) * (1.0 - f) == -(u * (1.0 - f));
    }
  }

  /** The displacement is bounded by density * scale, vanishes outside the
      radius, and points toward the cursor inside it. */
  lemma CursorOffsetBound(dx: real, dy: real, distance: real, density: real, scale: real)
    requires distance > 0.0 && distance * distance == dx * dx + dy * dy
    requires density >= 0.0 && scale >= 0.0
    ensures Abs(CursorOffset(dx, distance, density, scale)) <= density * scale
    ensures distance >= 100.0 ==> CursorOffset(dx, distance, density, scale) == 0.0
    ensures distance < 100.0 && density > 0.0 && scale > 0.0 ==>
              (dx > 0.0 ==> CursorOffset(dx, distance, density, scale) > 0.0) &&
              (dx < 0.0 ==> CursorOffset(dx, distance, density, scale) < 0.0)
  {
    ComponentBound(dx, dy, distance);
    var u := dx / distance;
    var f := CursorForce(distance);
    assert u * distance == dx;
    UnitDirection(dx, distance);
    assert 0.0 <= f <= 1.0;
    var uf := u * f;
    ScaledByUnit(u, f);
    var ds := density * scale;
    MulNonneg(density, scale);
    assert CursorOffset(dx, distance, density, scale) == uf * ds;
    assert ds - uf * ds == (1.0 - uf) * ds;
    assert ds + uf * ds == (1.0 + uf) * ds;
    MulNonneg(1.0 - uf, ds);
    MulNonneg(1.0 + uf, ds);
    if distance < 100.0 && density > 0.0 && scale > 0.0 {
      MulPos(density, scale);
      if dx > 0.0 {
        assert u > 0.0 by { if u <= 0.0 { MulNonneg(-u, distance); } }
        MulPos(u, f); MulPos(uf, ds);
      }
      if dx < 0.0 {
        assert u < 0.0 by { if u >= 0.0 { MulNonneg(u, distance); } }
        MulPos(-u, f); MulPos(-uf, ds);
      }
    }
  }

  /** `Math.random() * extent`: a coordinate drawn across a canvas side. */
  function RandomCoord(draw: real, extent: real): (c: real)
    ensures IsDraw(draw) && extent > 0.0 ==> 0.0 <= c < extent
    ensures IsDraw(draw) && extent >= 0.0 ==> 0.0 <= c <= extent
  {
    var c := draw * extent;
    assert IsDraw(draw) && extent > 0.0 ==> c < 1.0 * extent;
    c
  }

  /** `Math.random() * 30 + 1`: the cursor sensitivity of a particle. */
  function Density(draw: real): (d: real)
    ensures IsDraw(draw) ==> 1.0 <= d < 31.0
  {
    draw * 30.0 + 1.0
  }

  /** `Math.random() * 360`: the initial wobble phase. */
  function Angle(draw: real): (a: real)
    ensures IsDraw(draw) ==> 0.0 <= a < 360.0
  {
    draw * 360.0
  }

  /** `0.02 + Math.random() * 0.04`: the wobble phase advance per update. */
  function Speed(draw: real): (s: real)
    ensures IsDraw(draw) ==> 0.02 <= s < 0.06
  {
    0.02 + draw * 0.04
  }
}
