/** The value-level meaning of World.generate (src/world/index.ts): the
    generation options, the clamped column height, the block of each cell of a
    column, and the whole grid that generation produces as a function of
    (width, height, options, noise field). */
module Terrain {
  import opened Wrappers
  import opened Blocks
  import opened Grid

  /** A 2D coherent-noise field: `SimplexNoise.noise(x, z)` for one seeded
      noise object. Its numeric output is not modelled. */
  type NoiseField = (real, real) -> real

  /** The noise library: `new SimplexNoise(new RNG(seed))` as a function of
      the seed, so that the same seed always yields the same field. */
  type SeededNoise = int -> NoiseField

  /** `WorldOptions`. */
  datatype WorldOptions = WorldOptions(scale: real, magnitude: real, offset: real)

  /** `Partial<WorldOptions>`: each field may be absent. */
  datatype PartialOptions = PartialOptions(scale: Option<real>, magnitude: Option<real>, offset: Option<real>)

  const NoOptions := PartialOptions(None, None, None)

  /** The constructor's defaults. */
  const DefaultOptions := WorldOptions(30.0, 0.2, 0.5)

  /** `{ scale: 30, magnitude: 0.2, offset: 0.5, ...options }`: every field
      the caller supplies overrides the default, field by field. */
  function MergeOptions(partial: PartialOptions): (o: WorldOptions)
    ensures o.scale == if partial.scale.Some? then partial.scale.value else DefaultOptions.scale
    ensures o.magnitude == if partial.magnitude.Some? then partial.magnitude.value else DefaultOptions.magnitude
    ensures o.offset == if partial.offset.Some? then partial.offset.value else DefaultOptions.offset
  {
    WorldOptions(partial.scale.GetOr(DefaultOptions.scale),
                 partial.magnitude.GetOr(DefaultOptions.magnitude),
                 partial.offset.GetOr(DefaultOptions.offset))
  }

  lemma MergeNothingIsDefault()
    ensures MergeOptions(NoOptions) == DefaultOptions
  {
  }

  lemma MergeEverythingIsGiven(o: WorldOptions)
    ensures MergeOptions(PartialOptions(Some(o.scale), Some(o.magnitude), Some(o.offset))) == o
  {
  }

  function Min(a: real, b: real): real { if a <= b then a else b }

  function Max(a: real, b: real): real { if a >= b then a else b }

  /** `Math.floor(Math.max(0, Math.min(height * (offset + magnitude * n), height - 1)))`:
      the height of the grass cell of a column whose noise sample is n. */
  function ColumnHeight(height: int, opts: WorldOptions, n: real): (h: int)
    ensures 0 <= h
    ensures height >= 1 ==> h <= height - 1
  {
    Max(0.0, Min(height as real * (opts.offset + opts.magnitude * n), (height - 1) as real)).Floor
  }

  /** With a non-negative magnitude, a larger noise sample never gives a
      lower column. */
  lemma ColumnHeightMonotone(height: int, opts: WorldOptions, n1: real, n2: real)
    requires height >= 0 && opts.magnitude >= 0.0 && n1 <= n2
    ensures ColumnHeight(height, opts, n1) <= ColumnHeight(height, opts, n2)
  {
    var v1 := height as real * (opts.offset + opts.magnitude * n1);
    var v2 := height as real * (opts.offset + opts.magnitude * n2);
    assert opts.magnitude * n1 <= opts.magnitude * n2 by {
      assert opts.magnitude * n2 - opts.magnitude * n1 == opts.magnitude * (n2 - n1);
    }
    assert v1 <= v2 by {
      assert v2 - v1 == height as real * (opts.magnitude * n2 - opts.magnitude * n1);
    }
  }

  /** A flat field (noise 0) with offset 0.5 and height 4 gives column
      height 2: dirt at y = 0 and 1, grass at y = 2, air at y = 3. */
  lemma FlatFieldScenario(opts: WorldOptions)
    requires opts.offset == 0.5
    ensures ColumnHeight(4, opts, 0.0) == 2
    ensures ColumnBlock(0, 2) == Dirt && ColumnBlock(1, 2) == Dirt
    ensures ColumnBlock(2, 2) == Grass && ColumnBlock(3, 2) == Air
  {
  }

  /** The block generation leaves at height y of a column of height h: the
      loop `for (y = 0; y <= h; y++)` writes GRASS at h and DIRT below, and
      the cells above keep the AIR of the fresh grid. */
  function ColumnBlock(y: int, h: int): (b: Block)
    ensures b == Grass <==> y == h
    ensures b == Dirt <==> y < h
    ensures b == Air <==> y > h
  {
    if y > h then Air else if y == h then Grass else Dirt
  }

  /** Every column is DIRT* GRASS AIR*: the non-air cells form the single
      run [0, h], topped by exactly one grass cell, and h < height. */
  lemma ColumnIsHeightField(height: int, h: int)
    requires 0 <= h < height
    ensures forall y :: 0 <= y < height ==> (ColumnBlock(y, h) != Air <==> y <= h)
    ensures exists y :: 0 <= y < height && ColumnBlock(y, h) == Grass
    ensures forall y1, y2 :: 0 <= y1 < y2 < height && ColumnBlock(y1, h) == Air ==> ColumnBlock(y2, h) == Air
    ensures forall y1, y2 :: 0 <= y1 < y2 < height && ColumnBlock(y2, h) == Dirt ==> ColumnBlock(y1, h) == Dirt
  {
    assert ColumnBlock(h, h) == Grass;
  }

  /** `primaryNoise.noise(x / scale, z / scale)`. */
  function Sample(opts: WorldOptions, field: NoiseField, x: int, z: int): real
    requires opts.scale > 0.0
  {
    field(x as real / opts.scale, z as real / opts.scale)
  }

  /** The byte generation leaves in cell c. */
  function TargetCell(height: int, opts: WorldOptions, field: NoiseField, c: Coord): uint8
    requires opts.scale > 0.0
  {
    Id(ColumnBlock(c.y, ColumnHeight(height, opts, Sample(opts, field, c.x, c.z)))) as uint8
  }

  predicate Dimensions(width: int, height: int, opts: WorldOptions) {
    0 < width && 0 < height && opts.scale > 0.0
  }

  lemma GridSizeNonNegative(width: int, height: int)
    requires 0 < width && 0 < height
    ensures 0 < width * height * width
  {
    MulLe(1, height, width);
    MulLe(1, width, width * height);
  }

  /** The grid generate() produces, in buffer order. */
  function GeneratedGrid(width: int, height: int, opts: WorldOptions, field: NoiseField): (g: seq<uint8>)
    requires Dimensions(width, height, opts)
    ensures |g| == width * height * width
  {
    GridSizeNonNegative(width, height);
    seq(width * height * width, i requires 0 <= i < width * height * width =>
      TargetCell(height, opts, field, Decompose(width, height, i)))
  }

  /** After generation, column (x, z) holds DIRT below its clamped noise
      height h, GRASS at h and AIR above, with 0 <= h < height. */
  lemma GeneratedColumn(width: int, height: int, opts: WorldOptions, field: NoiseField, x: int, y: int, z: int)
    requires Dimensions(width, height, opts) && InBounds(width, height, Coord(x, y, z))
    ensures var h := ColumnHeight(height, opts, Sample(opts, field, x, z));
      && 0 <= h < height
      && Lookup(GeneratedGrid(width, height, opts, field), width, height, x, y, z)
         == Some(Id(ColumnBlock(y, h)) as uint8)
  {
    DecomposeIndex(width, height, Coord(x, y, z));
    IndexInRange(width, height, x, y, z);
  }

  /** Generation writes nothing but AIR, GRASS and DIRT ids. */
  lemma GeneratedCellsAreTerrain(width: int, height: int, opts: WorldOptions, field: NoiseField, i: int)
    requires Dimensions(width, height, opts) && 0 <= i < width * height * width
    ensures var b := FromId(GeneratedGrid(width, height, opts, field)[i] as int);
      b == Some(Air) || b == Some(Grass) || b == Some(Dirt)
  {
    var blk := ColumnBlock(Decompose(width, height, i).y,
      ColumnHeight(height, opts, Sample(opts, field, Decompose(width, height, i).x, Decompose(width, height, i).z)));
    IdRoundTrip(blk);
  }

  // ---- the state of the grid part-way through generate() ------------------

  /** Cell c has been visited when the loops are at column (x, z) with y
      next: x is the outer loop, z the middle one, y the inner one. */
  predicate Visited(c: Coord, x: int, z: int, y: int) {
    c.x < x || (c.x == x && (c.z < z || (c.z == z && c.y < y)))
  }

  /** Cell i of the grid while the loops stand at (x, z, y). */
  function Progress(width: int, height: int, opts: WorldOptions, field: NoiseField, x: int, z: int, y: int, i: int): uint8
    requires Dimensions(width, height, opts) && 0 <= i
  {
    var c := Decompose(width, height, i);
    if Visited(c, x, z, y) then TargetCell(height, opts, field, c) else Id(Air) as uint8
  }

  /** Before the loops start, the whole grid is AIR. */
  lemma ProgressStart(width: int, height: int, opts: WorldOptions, field: NoiseField, s: seq<uint8>)
    requires Dimensions(width, height, opts)
    requires forall i :: 0 <= i < |s| ==> s[i] == Id(Air) as uint8
    ensures forall i :: 0 <= i < |s| ==> s[i] == Progress(width, height, opts, field, 0, 0, 0, i)
  {
  }

  /** One `setBlock(x, y, z, y === h ? GRASS : DIRT)` advances the state by
      one cell. */
  lemma ProgressWrite(width: int, height: int, opts: WorldOptions, field: NoiseField, x: int, z: int, y: int, s: seq<uint8>)
    requires Dimensions(width, height, opts)
    requires 0 <= x < width && 0 <= z < width
    requires 0 <= y <= ColumnHeight(height, opts, Sample(opts, field, x, z))
    requires |s| == width * height * width
    requires forall i :: 0 <= i < |s| ==> s[i] == Progress(width, height, opts, field, x, z, y, i)
    ensures var h := ColumnHeight(height, opts, Sample(opts, field, x, z));
      var s' := Store(s, width, height, x, y, z, Id(if y == h then Grass else Dirt));
      |s'| == |s| && forall i :: 0 <= i < |s'| ==> s'[i] == Progress(width, height, opts, field, x, z, y + 1, i)
  {
    var h := ColumnHeight(height, opts, Sample(opts, field, x, z));
    var c := Coord(x, y, z);
    IndexInRange(width, height, x, y, z);
    DecomposeIndex(width, height, c);
    var k := Index(width, height, x, y, z);
    var s' := Store(s, width, height, x, y, z, Id(if y == h then Grass else Dirt));
    forall i | 0 <= i < |s'|
      ensures s'[i] == Progress(width, height, opts, field, x, z, y + 1, i)
    {
      if i != k {
        IndexDecompose(width, height, i);
      }
    }
  }

  /** Once y has passed h, column (x, z) is complete: the cells above h are
      AIR, which is their target. */
  lemma ProgressColumnDone(width: int, height: int, opts: WorldOptions, field: NoiseField, x: int, z: int, s: seq<uint8>)
    requires Dimensions(width, height, opts)
    requires forall i :: 0 <= i < |s| ==> s[i] == Progress(width, height, opts, field, x, z,
      ColumnHeight(height, opts, Sample(opts, field, x, z)) + 1, i)
    ensures forall i :: 0 <= i < |s| ==> s[i] == Progress(width, height, opts, field, x, z + 1, 0, i)
  {
  }

  /** Once z has reached width, the whole slab x is complete. */
  lemma ProgressRowDone(width: int, height: int, opts: WorldOptions, field: NoiseField, x: int, s: seq<uint8>)
    requires Dimensions(width, height, opts)
    requires |s| == width * height * width
    requires forall i :: 0 <= i < |s| ==> s[i] == Progress(width, height, opts, field, x, width, 0, i)
    ensures forall i :: 0 <= i < |s| ==> s[i] == Progress(width, height, opts, field, x + 1, 0, 0, i)
  {
    forall i | 0 <= i < |s|
      ensures s[i] == Progress(width, height, opts, field, x + 1, 0, 0, i)
    {
      IndexDecompose(width, height, i);
    }
  }

  /** Once x has reached width, the grid is the generated grid. */
  lemma ProgressDone(width: int, height: int, opts: WorldOptions, field: NoiseField, s: seq<uint8>)
    requires Dimensions(width, height, opts)
    requires |s| == width * height * width
    requires forall i :: 0 <= i < |s| ==> s[i] == Progress(width, height, opts, field, width, 0, 0, i)
    ensures s == GeneratedGrid(width, height, opts, field)
  {
    var g := GeneratedGrid(width, height, opts, field);
    forall i | 0 <= i < |s|
      ensures s[i] == g[i]
    {
      IndexDecompose(width, height, i);
    }
  }
}
