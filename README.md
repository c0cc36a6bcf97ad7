# Voxel world generation: a Dafny model

This project models the core of a small voxel-terrain generator written in
TypeScript: the `World` class (`src/world/index.ts`) and the block-id table it
writes (`src/world/block.ts`).

A `World` owns a dense `Uint8Array` of `width * height * width` cells. Cell
(x, y, z) sits at linear index `x + y*width + z*width*height`. `initialize()`
re-seeds the noise and replaces the grid by an all-AIR one. `generate()`
re-initialises, then walks every column (x, z). For each column it samples 2D
noise at `(x/scale, z/scale)`, clamps and floors
`height * (offset + magnitude * noise)` into `[0, height-1]` to get the column
height h, and writes DIRT below h and GRASS at h. `getBlock` and `setBlock`
index the buffer directly.

Modules:

- `Wrappers`: `Option`. `None` stands for JavaScript's `undefined`.
- `Blocks`: the `Block` enum, its ids, and the `BlockProperties`,
  `GenerativeBlocks` and `BlockCategories` tables, as total functions. It also
  holds the two material colours the renderer uses.
- `Grid`: the byte type, the index projection and its inverse `Decompose`. It
  also gives what `getBlock`/`setBlock` do to a buffer's contents (`Lookup`,
  `Store`).
- `Terrain`: generation options and their defaults, the clamped column height,
  the block of each cell of a column, and `GeneratedGrid`. `GeneratedGrid` is
  the whole grid `generate()` produces, as a function of
  (width, height, options, noise field). `Progress` describes the grid part-way
  through the three nested loops.
- `VoxelWorld`: the `World` class. Its fields are updated in place and the
  grid is an `array<uint8>`. `Generate` runs the source's nested `x`, `z`, `y`
  loops and calls `SetBlock` cell by cell. It is proved to leave exactly
  `GeneratedGrid(width, height, options, simplex(seed))` in the grid.

The noise library (a seeded RNG feeding three.js `SimplexNoise`) is foreign
code. It is a parameter `simplex: int -> ((real, real) -> real)` that maps a
seed to a noise field. The model says nothing about its values. Because
`Generate` re-seeds from `seed` and its result is a function of
(seed, width, height, options), regeneration is deterministic and idempotent.

Where the system's design documentation and the code disagree, the model follows the
code:

- The design documentation says coordinates are bounds-checked. The code checks
  only the linear index against the buffer length. So `getBlock(width, y, z)`
  reads cell (0, y+1, z) (`Grid.XOverflowAliasesNextRow`), and only an index
  outside the buffer reads `undefined` or ignores the write.
- The design documentation describes a visibility-culling pass (`isBlockVisible`,
  `getVisibleBlocks`). No such code exists, so none is modelled.
- The design documentation gives a flat-field scenario: height 4, offset 0.5,
  noise 0. It puts GRASS at y = 1. The code's loop writes GRASS at y == h = 2,
  with DIRT at y = 0 and 1 (`Terrain.FlatFieldScenario`).

## Model

| member | source | states |
|---|---|---|
| `Blocks.Id` | src/world/block.ts:22-33 | each block's id is below 7, and the id is 0 exactly for AIR |
| `Blocks.FromId` | src/world/block.ts:22-33 | a number names a block exactly when it is in 0..6, and then it is that block's id |
| `Blocks.IdRoundTrip` | src/world/block.ts:22-33 | decoding a block's id gives the block back |
| `Blocks.IdInjective` | src/world/block.ts:22-33 | distinct blocks have distinct ids |
| `Blocks.Properties` | src/world/block.ts:39-47 | a block is solid exactly when it is not AIR; GRASS is coloured 0x55aa55 and DIRT 0x825432 |
| `Blocks.Generative` | src/world/block.ts:36-54 | generative parameters exist exactly for STONE, IRON_ORE and COAL_ORE; each scarcity is in [0,1] and each scale is positive |
| `Blocks.Category` | src/world/block.ts:57-65 | IRON_ORE and COAL_ORE are ORE, WOOD is VEGETATION, and AIR, GRASS, DIRT, STONE are TERRAIN |
| `Blocks.StoneIsOreBlockButTerrain` | src/world/block.ts:50-61 | STONE has generative parameters yet is categorised as TERRAIN |
| `Blocks.RendererMaterialColor` | src/render/world-renderer.ts:20-29 | the renderer creates materials for GRASS and DIRT only |
| `Blocks.RendererColorsMatchTable` | src/render/world-renderer.ts:21-28 | each renderer material colour equals the block table's colour for that block |
| `Grid.ToUint8` | src/world/index.ts:90 | storing a number into the grid keeps it modulo 256, and keeps bytes 0..255 unchanged |
| `Grid.IndexInRange` | src/world/index.ts:84 | an in-bounds coordinate's linear index lies in [0, width*height*width) |
| `Grid.DecomposeIndex` | src/world/index.ts:84 | the coordinates of an in-bounds cell are recovered from its linear index |
| `Grid.IndexDecompose` | src/world/index.ts:84 | every buffer index is the linear index of exactly one in-bounds coordinate |
| `Grid.IndexInjective` | src/world/index.ts:89 | distinct in-bounds coordinates have distinct linear indices |
| `Grid.GetAfterSet` | src/world/index.ts:83-91 | after setBlock at in-bounds coordinates, getBlock there returns the byte written (the id itself for 0..255) |
| `Grid.SetLeavesOthers` | src/world/index.ts:88-91 | setBlock at one in-bounds coordinate leaves every other in-bounds coordinate, so every other column, unchanged |
| `Grid.OutOfRangeAccess` | src/world/index.ts:83-91 | a linear index outside the buffer makes getBlock undefined and setBlock a no-op |
| `Grid.XOverflowAliasesNextRow` | src/world/index.ts:83-91 | x == width addresses the same cell as (0, y+1, z), for both reads and writes |
| `Terrain.MergeOptions` | src/world/index.ts:29-34 | each supplied option overrides the default (scale 30, magnitude 0.2, offset 0.5) field by field |
| `Terrain.MergeNothingIsDefault` | src/world/index.ts:29-34 | with no options supplied the defaults apply |
| `Terrain.MergeEverythingIsGiven` | src/world/index.ts:29-34 | with every option supplied the defaults are ignored |
| `Terrain.ColumnHeight` | src/world/index.ts:62-71 | whatever the noise sample, the clamped and floored column height lies in [0, height-1] |
| `Terrain.ColumnHeightMonotone` | src/world/index.ts:62-71 | with non-negative magnitude, a larger noise sample never lowers the column |
| `Terrain.FlatFieldScenario` | src/world/index.ts:62-76 | noise 0, offset 0.5, height 4 give h = 2: DIRT, DIRT, GRASS, AIR from the bottom |
| `Terrain.ColumnBlock` | src/world/index.ts:73-76 | a column cell is GRASS exactly at h, DIRT exactly below h and AIR exactly above h |
| `Terrain.ColumnIsHeightField` | src/world/index.ts:73-76 | each column is DIRT* GRASS AIR*: the non-AIR cells are the run [0, h] with one GRASS cell on top |
| `Terrain.GeneratedGrid` | src/world/index.ts:53-78 | the generated grid has width*height*width cells |
| `Terrain.GeneratedColumn` | src/world/index.ts:55-78 | after generation, cell (x,y,z) is DIRT below the column's clamped noise height, GRASS at it and AIR above, and that height is below `height` |
| `Terrain.GeneratedCellsAreTerrain` | src/world/index.ts:73-76 | generation leaves only AIR, GRASS and DIRT ids in the grid |
| `Terrain.ProgressStart` | src/world/index.ts:53-55 | the freshly initialised grid is the state before any column is visited |
| `Terrain.ProgressWrite` | src/world/index.ts:73-76 | one setBlock of the inner loop writes one cell inside the grid and advances the loop state by one cell |
| `Terrain.ProgressColumnDone` | src/world/index.ts:73-77 | after the inner loop a column is complete, its cells above h staying AIR |
| `Terrain.ProgressRowDone` | src/world/index.ts:56-78 | after the z loop every column of slab x is complete |
| `Terrain.ProgressDone` | src/world/index.ts:55-78 | after the x loop the grid equals the generated grid |
| `VoxelWorld.World.constructor` | src/world/index.ts:20-39 | stores seed, width, height and the merged options, seeds the noise from seed and leaves an all-AIR grid of width*height*width cells without generating |
| `VoxelWorld.World.Initialize` | src/world/index.ts:41-48 | re-seeds the noise from seed and installs a fresh all-AIR grid of width*height*width cells |
| `VoxelWorld.World.GetBlock` | src/world/index.ts:83-86 | returns the byte at the linear index, and undefined exactly when the index is outside the buffer |
| `VoxelWorld.World.SetBlock` | src/world/index.ts:88-91 | writes the byte at the linear index if it is inside the buffer and changes nothing else |
| `VoxelWorld.World.Generate` | src/world/index.ts:50-81 | re-seeds the noise and leaves exactly the grid determined by (seed, width, height, options) |
| `VoxelWorld.RegenerateIsIdempotent` | src/world/index.ts:50-53 | two generate() calls with unchanged parameters produce identical grids |
| `VoxelWorld.IndependentWorldsAgree` | src/world/index.ts:20-53 | two worlds built and generated from the same parameters hold identical grids |

## Left out

- The noise library: the RNG and `SimplexNoise` are foreign. They are the parameter `simplex` and their output is unconstrained. The file `src/lib/rng` is not part of this model.
- Floating point: JavaScript numbers are modelled as exact `int` (coordinates, ids, dimensions) and `real` (options, noise). Rounding in `x / scale` and in the height product is not modelled.
- NaN and infinities are not modelled. For example, scale 0 makes every sample NaN, and then no column is written.
- Non-integer coordinates and ids are not modelled (a fractional typed-array index reads `undefined` and ignores writes). Coordinates and ids are integers.
- `PartialOptions` models an absent field. A field explicitly set to `undefined`, which the spread copies over the default, is not modelled.
- `VoxelWorld.World.constructor`: the unseeded `SimplexNoise` that the source creates before calling `initialize()` is not modelled. `initialize()` replaces it at once.
- `VoxelWorld.World.Generate`: requires width >= 1, height >= 1 and scale > 0. These come from the control panel's ranges (width and height 8..128, scale from 1). Degenerate zero-sized worlds are not covered.
- `VoxelWorld.World.Initialize` and the constructor require `width*height*width >= 0`. A negative length makes the `Uint8Array` constructor throw.
- The `console.log` calls in `generate()` are left out (output only).
- Visibility culling is not implemented in the code, so it is not modelled.
- The renderer (`src/render/world-renderer.ts`) is left out except for its two material colours, because it only builds three.js meshes. The scene setup (`src/main.ts`), the control panel (`src/lib/ui.ts`) and texture loading (`src/lib/texture-loader.ts`) are left out as UI and I/O glue.
- The block names and the colours of blocks other than GRASS and DIRT are kept in `Blocks.Properties` as data. No property is stated about them.
