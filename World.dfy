/** The `World` class of src/world/index.ts: a seed, the dimensions, the
    generation options, the seeded noise object and the `Uint8Array` grid,
    all updated in place. */
module VoxelWorld {
  import opened Wrappers
  import opened Blocks
  import opened Grid
  import opened Terrain

  class World {
    var seed: int
    var width: int
    var height: int
    var options: WorldOptions

    /** The seeded `SimplexNoise` object. */
    var primaryNoise: NoiseField
    /** The voxel grid, `width * height * width` bytes after (re)initialisation. */
    var world: array<uint8>

    /** `new World(seed, width, height, options)`: stores the parameters,
        merges the options over the defaults and initialises an all-AIR grid.
        It does not generate terrain. */
    constructor (simplex: SeededNoise, seed: int := 0, width: int := 64, height: int := 32,
                 options: PartialOptions := NoOptions)
      requires width * height * width >= 0
      ensures this.seed == seed && this.width == width && this.height == height
      ensures this.options == MergeOptions(options)
      ensures primaryNoise == simplex(seed)
      ensures fresh(world) && world.Length == width * height * width
      ensures forall i :: 0 <= i < world.Length ==> world[i] == Id(Air) as uint8
    {
      this.seed := seed;
      this.width := width;
      this.height := height;
      this.options := MergeOptions(options);
      // The source first allocates a zeroed buffer and an unseeded noise
      // object; initialize() replaces both straight away.
      this.world := new uint8[width * height * width](_ => 0);
      this.primaryNoise := simplex(seed);
      new;
      Initialize(simplex);
    }

    /** `initialize()`: re-seeds the noise from `seed` and replaces the grid
        by a fresh one of `width * height * width` cells, all AIR. */
    method Initialize(simplex: SeededNoise)
      requires width * height * width >= 0
      modifies this`world, this`primaryNoise
      ensures primaryNoise == simplex(seed)
      ensures fresh(world) && world.Length == width * height * width
      ensures forall i :: 0 <= i < world.Length ==> world[i] == Id(Air) as uint8
    {
      primaryNoise := simplex(seed);
      world := new uint8[width * height * width](_ => Id(Air) as uint8);
    }

    /** `getBlock(x, y, z)`: the byte at the linear index, or undefined when
        that index falls outside the buffer. No coordinate is checked on its
        own. */
    method GetBlock(x: int, y: int, z: int) returns (r: Option<uint8>)
      ensures r == Lookup(world[..], width, height, x, y, z)
      ensures r.Some? <==> 0 <= Index(width, height, x, y, z) < world.Length
    {
      var index := x + y * width + z * width * height;
      if 0 <= index < world.Length {
        r := Some(world[index]);
      } else {
        r := None;
      }
    }

    /** `setBlock(x, y, z, id)`: stores `id` (as a byte) at the linear index,
        or does nothing when that index falls outside the buffer. */
    method SetBlock(x: int, y: int, z: int, id: int)
      modifies world
      ensures world[..] == Store(old(world[..]), width, height, x, y, z, id)
    {
      var index := x + y * width + z * width * height;
      if 0 <= index < world.Length {
        world[index] := ToUint8(id);
      }
    }

    /** `generate()`: re-initialises the grid and the noise, then for every
        column (x, z) samples the noise, clamps the column height h and
        writes DIRT below h and GRASS at h. The resulting grid depends only on
        (seed, width, height, options), and every write lands in the grid. */
    method Generate(simplex: SeededNoise)
      requires Dimensions(width, height, options)
      modifies this`world, this`primaryNoise
      ensures primaryNoise == simplex(seed)
      ensures fresh(world)
      ensures world[..] == GeneratedGrid(width, height, options, simplex(seed))
    {
      GridSizeNonNegative(width, height);
      Initialize(simplex);
      ghost var field := primaryNoise;
      ghost var grid := world;
      ProgressStart(width, height, options, field, world[..]);

      var x := 0;
      while x < width
        invariant 0 <= x <= width
        invariant world == grid && primaryNoise == field && fresh(world)
        invariant world.Length == width * height * width
        invariant forall i :: 0 <= i < world.Length ==> world[i] == Progress(width, height, options, field, x, 0, 0, i)
      {
        var z := 0;
        while z < width
          invariant 0 <= z <= width
          invariant world == grid && primaryNoise == field
          invariant forall i :: 0 <= i < world.Length ==> world[i] == Progress(width, height, options, field, x, z, 0, i)
        {
          var noiseValue := primaryNoise(x as real / options.scale, z as real / options.scale);
          var h := ColumnHeight(height, options, noiseValue);

          var y := 0;
          while y <= h
            invariant 0 <= y <= h + 1
            invariant world == grid && primaryNoise == field
            invariant forall i :: 0 <= i < world.Length ==> world[i] == Progress(width, height, options, field, x, z, y, i)
          {
            var block := if y == h then Grass else Dirt;
            // Every write of the loop lands inside the grid.
            assert 0 <= Index(width, height, x, y, z) < world.Length by {
              IndexInRange(width, height, x, y, z);
            }
            ProgressWrite(width, height, options, field, x, z, y, world[..]);
            SetBlock(x, y, z, Id(block));
            y := y + 1;
          }
          ProgressColumnDone(width, height, options, field, x, z, world[..]);
          z := z + 1;
        }
        ProgressRowDone(width, height, options, field, x, world[..]);
        x := x + 1;
      }
      ProgressDone(width, height, options, field, world[..]);
    }
  }

  /** Re-running generate() with unchanged parameters reproduces the grid. */
  method RegenerateIsIdempotent(w: World, simplex: SeededNoise) returns (first: seq<uint8>, second: seq<uint8>)
    requires Dimensions(w.width, w.height, w.options)
    modifies w
    ensures first == second
  {
    w.Generate(simplex);
    first := w.world[..];
    w.Generate(simplex);
    second := w.world[..];
  }

  /** Two worlds built independently from the same parameters generate
      identical grids. */
  method IndependentWorldsAgree(simplex: SeededNoise, seed: int, width: int, height: int, options: PartialOptions)
    returns (a: seq<uint8>, b: seq<uint8>)
    requires 0 < width && 0 < height && MergeOptions(options).scale > 0.0
    ensures a == b
  {
    GridSizeNonNegative(width, height);
    var w1 := new World(simplex, seed, width, height, options);
    var w2 := new World(simplex, seed, width, height, options);
    w1.Generate(simplex);
    w2.Generate(simplex);
    a := w1.world[..];
    b := w2.world[..];
  }
}
