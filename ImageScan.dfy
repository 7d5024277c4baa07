/** The target field built from an image: the offscreen RGBA buffer
    (`getImageData(...).data`, four bytes per pixel, row-major) is sampled
    every 5th pixel in both directions, rows outer and columns inner, and a
    sampled pixel whose alpha byte exceeds 128 becomes one target. The spec
    functions below enumerate the hits in the order the scan emits them. */
module ImageScan {

  type Byte = b: int | 0 <= b < 256

  /** A sampled pixel position (x, y). */
  datatype Cell = Cell(x: nat, y: nat)

  // The scan visits every 5th pixel in both directions; the step is written
  // as the literal 5 throughout so that the arithmetic on it stays linear.
  const AlphaThreshold: int := 128

  /** Number of sampled coordinates 0, 5, 10, ... below n: ceil(n / 5). */
  function Samples(n: nat): nat { (n + 4) / 5 }

  /** The first multiple of 5 not below n: where a `+= 5` loop bounded by n stops. */
  function GridEnd(n: nat): nat { Samples(n) * 5 }

  /** `(y * width + x) * 4 + 3`, the alpha byte of pixel (x, y). */
  function AlphaIndex(width: nat, x: nat, y: nat): nat { (y * width + x) * 4 + 3 }

  predicate WellSized(data: seq<Byte>, width: nat, height: nat) { |data| == width * height * 4 }

  lemma AlphaIndexInBounds(width: nat, height: nat, x: nat, y: nat)
    requires x < width && y < height
    ensures AlphaIndex(width, x, y) < width * height * 4
    ensures AlphaIndex(width, x, y) % 4 == 3
  {
    var row := y * width;
    assert (y + 1) * width == row + width;
    MulMonotone(y + 1, height, width);
    assert height * width == width * height;
    assert row + x + 1 <= width * height;
  }

  lemma MulMonotone(a: nat, b: nat, c: nat)
    requires a <= b
    ensures a * c <= b * c
  {
    assert b * c - a * c == (b - a) * c;
  }

  /** `data[i + 3] > 128` for the pixel at (x, y). An index past the end of
      the buffer reads `undefined`, which compares false; AlphaIndexInBounds
      shows that a well-sized buffer never meets that case. */
  predicate Opaque(data: seq<Byte>, width: nat, x: nat, y: nat)
  {
    AlphaIndex(width, x, y) < |data| && data[AlphaIndex(width, x, y)] > AlphaThreshold
  }

  /** What the scan promises about a cell it emits. */
  predicate Sampled(data: seq<Byte>, width: nat, height: nat, c: Cell)
  {
    c.x % 5 == 0 && c.y % 5 == 0 && c.x < width && c.y < height &&
    Opaque(data, width, c.x, c.y)
  }

  /** Hits of row y among the columns 0, 5, ..., below x. */
  function RowPrefix(data: seq<Byte>, width: nat, y: nat, x: nat): seq<Cell>
    requires x % 5 == 0
    decreases x
  {
    if x == 0 then []
    else
      RowPrefix(data, width, y, x - 5) +
      (if Opaque(data, width, x - 5, y) then [Cell(x - 5, y)] else [])
  }

  /** Hits of the rows 0, 5, ..., below y. */
  function RowsBefore(data: seq<Byte>, width: nat, y: nat): seq<Cell>
    requires y % 5 == 0
    decreases y
  {
    if y == 0 then []
    else RowsBefore(data, width, y - 5) + RowPrefix(data, width, y - 5, GridEnd(width))
  }

  /** The targets one full pass of the scan emits, in emission order. */
  function GridHits(data: seq<Byte>, width: nat, height: nat): seq<Cell>
  {
    RowsBefore(data, width, GridEnd(height))
  }

  // ---------------------------------------------------------------------
  // Membership: exactly the opaque cells on the grid.

  lemma {:induction false} RowPrefixMembers(data: seq<Byte>, width: nat, height: nat, y: nat, x: nat, c: Cell)
    requires y < height && y % 5 == 0
    requires x % 5 == 0 && x <= GridEnd(width)
    ensures c in RowPrefix(data, width, y, x) <==> c.y == y && c.x < x && Sampled(data, width, height, c)
    decreases x
  {
    if x > 0 {
      RowPrefixMembers(data, width, height, y, x - 5, c);
      StrideDown(c.x, x);
      GridEndBound(width, x);
    }
  }

  /** The grid coordinates below x are those below x - 5 and x - 5 itself. */
  lemma StrideDown(cx: nat, x: nat)
    requires x % 5 == 0 && x > 0
    ensures (cx < x && cx % 5 == 0) <==> ((cx < x - 5 && cx % 5 == 0) || cx == x - 5)
  {
  }

  lemma GridEndFacts(n: nat)
    ensures GridEnd(n) % 5 == 0 && n <= GridEnd(n) < n + 5
  {
  }

  /** The columns a `+= 5` loop bounded by n visits lie below n. */
  lemma GridEndBound(n: nat, x: nat)
    requires x % 5 == 0 && 0 < x <= GridEnd(n)
    ensures x - 5 < n
  {
  }

  lemma {:induction false} RowsBeforeMembers(data: seq<Byte>, width: nat, height: nat, y: nat, c: Cell)
    requires y % 5 == 0 && y <= GridEnd(height)
    ensures c in RowsBefore(data, width, y) <==> c.y < y && Sampled(data, width, height, c)
    decreases y
  {
    if y > 0 {
      GridEndFacts(width);
      GridEndBound(height, y);
      RowsBeforeMembers(data, width, height, y - 5, c);
      RowPrefixMembers(data, width, height, y - 5, GridEnd(width), c);
      StrideDown(c.y, y);
    }
  }

  /** A pass emits a target at (x, y) iff x and y are multiples of 5 inside
      the buffer and the alpha byte of that pixel exceeds 128. */
  lemma GridHitsMembers(data: seq<Byte>, width: nat, height: nat, c: Cell)
    ensures c in GridHits(data, width, height) <==> Sampled(data, width, height, c)
  {
    RowsBeforeMembers(data, width, height, GridEnd(height), c);
  }

  /** A fully transparent buffer (every alpha byte at most 128) yields no target. */
  lemma TransparentHasNoHits(data: seq<Byte>, width: nat, height: nat)
    requires WellSized(data, width, height)
    requires forall i :: 0 <= i < |data| && i % 4 == 3 ==> data[i] <= AlphaThreshold
    ensures GridHits(data, width, height) == []
  {
    var hits := GridHits(data, width, height);
    if hits != [] {
      var c := hits[0];
      GridHitsMembers(data, width, height, c);
      AlphaIndexInBounds(width, height, c.x, c.y);
    }
  }

  // ---------------------------------------------------------------------
  // Order: rows ascending, and within a row columns ascending.

  predicate Before(a: Cell, b: Cell) { a.y < b.y || (a.y == b.y && a.x < b.x) }

  predicate RowMajor(s: seq<Cell>) { forall i, j :: 0 <= i < j < |s| ==> Before(s[i], s[j]) }

  lemma {:induction false} RowPrefixRowMajor(data: seq<Byte>, width: nat, height: nat, y: nat, x: nat)
    requires y < height && y % 5 == 0
    requires x % 5 == 0 && x <= GridEnd(width)
    ensures RowMajor(RowPrefix(data, width, y, x))
    decreases x
  {
    if x > 0 {
      var front := RowPrefix(data, width, y, x - 5);
      RowPrefixRowMajor(data, width, height, y, x - 5);
      forall i | 0 <= i < |front|
        ensures front[i].y == y && front[i].x < x - 5
      {
        RowPrefixMembers(data, width, height, y, x - 5, front[i]);
      }
    }
  }

  lemma {:induction false} RowsBeforeRowMajor(data: seq<Byte>, width: nat, height: nat, y: nat)
    requires y % 5 == 0 && y <= GridEnd(height)
    ensures RowMajor(RowsBefore(data, width, y))
    decreases y
  {
    if y > 0 {
      GridEndFacts(width);
      GridEndBound(height, y);
      var front := RowsBefore(data, width, y - 5);
      var row := RowPrefix(data, width, y - 5, GridEnd(width));
      RowsBeforeRowMajor(data, width, height, y - 5);
      RowPrefixRowMajor(data, width, height, y - 5, GridEnd(width));
      forall i | 0 <= i < |front|
        ensures front[i].y < y - 5
      {
        RowsBeforeMembers(data, width, height, y - 5, front[i]);
      }
      forall j | 0 <= j < |row|
        ensures row[j].y == y - 5
      {
        RowPrefixMembers(data, width, height, y - 5, GridEnd(width), row[j]);
      }
    }
  }

  /** A pass emits its targets in row-major order (y outer, x inner), each once. */
  lemma GridHitsRowMajor(data: seq<Byte>, width: nat, height: nat)
    ensures RowMajor(GridHits(data, width, height))
  {
    GridEndFacts(height);
    RowsBeforeRowMajor(data, width, height, GridEnd(height));
  }

  // ---------------------------------------------------------------------
  // Count: at most one target per grid cell.

  lemma {:induction false} RowPrefixLength(data: seq<Byte>, width: nat, y: nat, x: nat)
    requires x % 5 == 0
    ensures |RowPrefix(data, width, y, x)| <= x / 5
    decreases x
  {
    if x > 0 {
      RowPrefixLength(data, width, y, x - 5);
    }
  }

  lemma {:induction false} RowsBeforeLength(data: seq<Byte>, width: nat, y: nat)
    requires y % 5 == 0
    ensures |RowsBefore(data, width, y)| <= (y / 5) * Samples(width)
    decreases y
  {
    if y > 0 {
      GridEndFacts(width);
      RowsBeforeLength(data, width, y - 5);
      RowPrefixLength(data, width, y - 5, GridEnd(width));
      var k := (y - 5) / 5;
      assert GridEnd(width) / 5 == Samples(width);
      assert y / 5 == k + 1;
      MulSucc(k, Samples(width));
    }
  }

  lemma NextMultiple(y: nat, e: nat)
    requires y % 5 == 0 && e % 5 == 0 && y < e
    ensures y + 5 <= e
  {
    assert y == (y / 5) * 5 && e == (e / 5) * 5;
    MulSucc(y / 5, 5);
  }

  /** A `+= 5` loop from 0 bounded by n leaves its counter at GridEnd(n). */
  lemma GridEndExit(n: nat, x: nat)
    requires x % 5 == 0 && n <= x <= GridEnd(n)
    ensures x == GridEnd(n)
  {
    GridEndFacts(n);
    if x < GridEnd(n) {
      NextMultiple(x, GridEnd(n));
    }
  }

  lemma MulSucc(k: nat, s: nat)
    ensures (k + 1) * s == k * s + s
  {
  }

  /** One pass adds at most ceil(width / 5) * ceil(height / 5) targets. */
  lemma GridHitsLength(data: seq<Byte>, width: nat, height: nat)
    ensures |GridHits(data, width, height)| <= Samples(width) * Samples(height)
  {
    GridEndFacts(height);
    RowsBeforeLength(data, width, GridEnd(height));
    assert GridEnd(height) / 5 == Samples(height);
  }

  // ---------------------------------------------------------------------
  // Prefixes: what the scan has emitted part-way through a pass.

  lemma {:induction false} RowPrefixGrows(data: seq<Byte>, width: nat, y: nat, x: nat, x': nat)
    requires x % 5 == 0 && x' % 5 == 0 && x <= x'
    ensures RowPrefix(data, width, y, x) <= RowPrefix(data, width, y, x')
    decreases x'
  {
    if x < x' {
      RowPrefixGrows(data, width, y, x, x' - 5);
    }
  }

  lemma {:induction false} RowsBeforeGrows(data: seq<Byte>, width: nat, y: nat, y': nat)
    requires y % 5 == 0 && y' % 5 == 0 && y <= y'
    ensures RowsBefore(data, width, y) <= RowsBefore(data, width, y')
    decreases y'
  {
    if y < y' {
      RowsBeforeGrows(data, width, y, y' - 5);
    }
  }

  /** One column step of the inner loop: column x is still inside the row's
      range and the hits so far grow by x's hit, if any. */
  lemma RowStep(data: seq<Byte>, width: nat, y: nat, x: nat)
    requires x % 5 == 0 && x < width
    ensures x + 5 <= GridEnd(width)
    ensures RowPrefix(data, width, y, x + 5)
            == RowPrefix(data, width, y, x) + (if Opaque(data, width, x, y) then [Cell(x, y)] else [])
    ensures RowPrefix(data, width, y, x + 5) <= RowPrefix(data, width, y, GridEnd(width))
  {
    GridEndFacts(width);
    NextMultiple(x, GridEnd(width));
    RowPrefixGrows(data, width, y, x + 5, GridEnd(width));
  }

  lemma RowsBeforeNext(data: seq<Byte>, width: nat, y: nat)
    requires y % 5 == 0
    ensures RowsBefore(data, width, y + 5)
            == RowsBefore(data, width, y) + RowPrefix(data, width, y, GridEnd(width))
  {
  }

  /** Every full row the scan has finished makes a prefix of the pass. */
  lemma RowsBeforeInPass(data: seq<Byte>, width: nat, height: nat, y: nat)
    requires y % 5 == 0 && y < height
    ensures RowsBefore(data, width, y + 5) <= GridHits(data, width, height)
  {
    GridEndFacts(height);
    NextMultiple(y, GridEnd(height));
    RowsBeforeGrows(data, width, y + 5, GridEnd(height));
  }
}
