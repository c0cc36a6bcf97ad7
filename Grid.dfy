/** The dense voxel buffer of a world and its linear index projection
    (src/world/index.ts, getBlock and setBlock). The buffer is a `Uint8Array`
    of `width * height * width` cells; cell (x, y, z) lives at
    `x + y*width + z*width*height`. Nothing here checks a coordinate against
    its own extent: only the linear index is compared with the buffer length. */
module Grid {
  import opened Wrappers

  /** One element of a `Uint8Array`. */
  newtype uint8 = x: int | 0 <= x < 256

  /** The conversion a `Uint8Array` applies to an integer it stores (ToUint8:
      the value modulo 2^8, always non-negative). */
  function ToUint8(id: int): (b: uint8)
    ensures b as int % 256 == id % 256
    ensures 0 <= id < 256 ==> b as int == id
  {
    (id % 256) as uint8
  }

  /** The linear index of (x, y, z), computed as the source computes it. */
  function Index(width: int, height: int, x: int, y: int, z: int): int {
    x + y * width + z * width * height
  }

  datatype Coord = Coord(x: int, y: int, z: int)

  predicate InBounds(width: int, height: int, c: Coord) {
    0 <= c.x < width && 0 <= c.y < height && 0 <= c.z < width
  }

  /** The coordinates stored at linear index i (the inverse of Index). */
  function Decompose(width: int, height: int, i: int): Coord
    requires 0 < width && 0 < height && 0 <= i
  {
    Coord(i % width, (i / width) % height, (i / width) / height)
  }

  // ---- arithmetic helpers ----------------------------------------------

  lemma MulLe(a: int, b: int, d: int)
    requires a <= b && 0 <= d
    ensures a * d <= b * d
  {
    assert b * d - a * d == (b - a) * d;
  }

  /** Euclidean division is determined by quotient and remainder. */
  lemma DivModUnique(i: int, d: int, q: int, r: int)
    requires 0 < d && 0 <= r < d && i == q * d + r
    ensures i / d == q && i % d == r
  {
    var q', r' := i / d, i % d;
    assert i == q' * d + r';
    if q' < q {
      MulLe(q' + 1, q, d);
      assert false;
    } else if q < q' {
      MulLe(q + 1, q', d);
      assert false;
    }
  }

  lemma DivBelow(i: int, d: int, n: int)
    requires 0 < d && 0 <= i < n * d
    ensures 0 <= i / d < n
  {
    var q := i / d;
    assert i == q * d + i % d;
    if q >= n {
      MulLe(n, q, d);
      assert false;
    }
    if q < 0 {
      MulLe(q, -1, d);
      assert false;
    }
  }

  // ---- the index projection ----------------------------------------------

  /** An in-bounds coordinate lands inside a buffer of width*height*width cells. */
  lemma IndexInRange(width: int, height: int, x: int, y: int, z: int)
    requires InBounds(width, height, Coord(x, y, z))
    ensures 0 <= Index(width, height, x, y, z) < width * height * width
  {
    var row := x + y * width;
    MulLe(y, height - 1, width);
    assert (height - 1) * width == height * width - width;
    assert 0 <= row < width * height;
    MulLe(z, width - 1, width * height);
    assert (width - 1) * (width * height) == width * height * width - width * height;
    assert z * width * height == z * (width * height);
    assert 0 <= y * width;
    assert 0 <= z * (width * height);
  }

  /** Decompose undoes Index on in-bounds coordinates. */
  lemma DecomposeIndex(width: int, height: int, c: Coord)
    requires InBounds(width, height, c)
    ensures 0 <= Index(width, height, c.x, c.y, c.z)
    ensures Decompose(width, height, Index(width, height, c.x, c.y, c.z)) == c
  {
    IndexInRange(width, height, c.x, c.y, c.z);
    var i := Index(width, height, c.x, c.y, c.z);
    var q := c.y + c.z * height;
    assert i == q * width + c.x by {
      assert q * width == c.y * width + c.z * height * width;
      assert c.z * width * height == c.z * height * width;
    }
    DivModUnique(i, width, q, c.x);
    DivModUnique(q, height, c.z, c.y);
  }

  /** Index undoes Decompose on the indices of the buffer: every cell of the
      buffer belongs to exactly one in-bounds coordinate. */
  lemma IndexDecompose(width: int, height: int, i: int)
    requires 0 < width && 0 < height && 0 <= i < width * height * width
    ensures InBounds(width, height, Decompose(width, height, i))
    ensures var c := Decompose(width, height, i); Index(width, height, c.x, c.y, c.z) == i
  {
    var c := Decompose(width, height, i);
    var q := i / width;
    assert i == q * width + c.x;
    assert i < (height * width) * width;
    DivBelow(i, width, height * width);
    DivBelow(q, height, width);
    assert q == c.z * height + c.y;
    assert q * width == c.y * width + c.z * height * width;
    assert c.z * width * height == c.z * height * width;
  }

  /** Distinct in-bounds coordinates occupy distinct cells. */
  lemma IndexInjective(width: int, height: int, a: Coord, b: Coord)
    requires InBounds(width, height, a) && InBounds(width, height, b)
    requires Index(width, height, a.x, a.y, a.z) == Index(width, height, b.x, b.y, b.z)
    ensures a == b
  {
    DecomposeIndex(width, height, a);
    DecomposeIndex(width, height, b);
  }

  // ---- getBlock and setBlock on the buffer's contents ---------------------

  /** `world[index]`: `None` (undefined) when the linear index falls outside
      the typed array. */
  function Lookup(cells: seq<uint8>, width: int, height: int, x: int, y: int, z: int): Option<uint8> {
    var i := Index(width, height, x, y, z);
    if 0 <= i < |cells| then Some(cells[i]) else None
  }

  /** `world[index] = id`: a silent no-op when the linear index falls outside
      the typed array. */
  function Store(cells: seq<uint8>, width: int, height: int, x: int, y: int, z: int, id: int): seq<uint8> {
    var i := Index(width, height, x, y, z);
    if 0 <= i < |cells| then cells[i := ToUint8(id)] else cells
  }

  /** Reading back what was just written yields it (as a byte). */
  lemma GetAfterSet(cells: seq<uint8>, width: int, height: int, x: int, y: int, z: int, id: int)
    requires |cells| == width * height * width
    requires InBounds(width, height, Coord(x, y, z))
    ensures |Store(cells, width, height, x, y, z, id)| == |cells|
    ensures Lookup(Store(cells, width, height, x, y, z, id), width, height, x, y, z) == Some(ToUint8(id))
    ensures 0 <= id < 256 ==> Lookup(Store(cells, width, height, x, y, z, id), width, height, x, y, z) == Some(id as uint8)
  {
    IndexInRange(width, height, x, y, z);
  }

  /** A write at one in-bounds coordinate leaves every other in-bounds
      coordinate as it was; in particular it never disturbs another column. */
  lemma SetLeavesOthers(cells: seq<uint8>, width: int, height: int, a: Coord, b: Coord, id: int)
    requires |cells| == width * height * width
    requires InBounds(width, height, a) && InBounds(width, height, b) && a != b
    ensures Lookup(Store(cells, width, height, a.x, a.y, a.z, id), width, height, b.x, b.y, b.z)
         == Lookup(cells, width, height, b.x, b.y, b.z)
  {
    if Index(width, height, a.x, a.y, a.z) == Index(width, height, b.x, b.y, b.z) {
      IndexInjective(width, height, a, b);
    }
  }

  /** A write whose linear index is outside the buffer changes nothing, and a
      read there gives undefined. */
  lemma OutOfRangeAccess(cells: seq<uint8>, width: int, height: int, x: int, y: int, z: int, id: int)
    requires !(0 <= Index(width, height, x, y, z) < |cells|)
    ensures Store(cells, width, height, x, y, z, id) == cells
    ensures Lookup(cells, width, height, x, y, z) == None
  {
  }

  /** Coordinates are not checked one by one: x == width addresses the
      first cell of the next row, (0, y+1, z), for reads and for writes. */
  lemma XOverflowAliasesNextRow(cells: seq<uint8>, width: int, height: int, y: int, z: int, id: int)
    ensures Index(width, height, width, y, z) == Index(width, height, 0, y + 1, z)
    ensures Lookup(cells, width, height, width, y, z) == Lookup(cells, width, height, 0, y + 1, z)
    ensures Store(cells, width, height, width, y, z, id) == Store(cells, width, height, 0, y + 1, z, id)
  {
    assert (y + 1) * width == y * width + width;
  }
}
