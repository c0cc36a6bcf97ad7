/** The block-id enumeration and its constant lookup tables
    (src/world/block.ts). Everything here is immutable, process-wide data. */
module Blocks {
  import opened Wrappers

  /** The `Block` enum, ids 0..6. */
  datatype Block = Air | Grass | Dirt | Stone | IronOre | CoalOre | Wood

  datatype BlockCategory = Terrain | Ore | Vegetation

  /** One entry of `BlockProperties`. */
  datatype BaseProperties = BaseProperties(name: string, solid: bool, color: nat)

  /** One entry of `GenerativeBlocks`. */
  datatype GenerativeProperties = GenerativeProperties(scale: real, scarcity: real)

  /** The numeric value of each enum member. */
  function Id(b: Block): (id: nat)
    ensures id < 7
    ensures id == 0 <==> b == Air
  {
    match b
    case Air => 0
    case Grass => 1
    case Dirt => 2
    case Stone => 3
    case IronOre => 4
    case CoalOre => 5
    case Wood => 6
  }

  /** The enum member with a given numeric value, if any (the reverse
      mapping a TypeScript numeric enum provides). */
  function FromId(id: int): (r: Option<Block>)
    ensures r.Some? <==> 0 <= id < 7
    ensures r.Some? ==> Id(r.value) == id
  {
    if id == 0 then Some(Air)
    else if id == 1 then Some(Grass)
    else if id == 2 then Some(Dirt)
    else if id == 3 then Some(Stone)
    else if id == 4 then Some(IronOre)
    else if id == 5 then Some(CoalOre)
    else if id == 6 then Some(Wood)
    else None
  }

  /** Decoding an encoded block gives it back, so ids are pairwise distinct. */
  lemma IdRoundTrip(b: Block)
    ensures FromId(Id(b)) == Some(b)
  {
    match b
    case Air =>
    case Grass =>
    case Dirt =>
    case Stone =>
    case IronOre =>
    case CoalOre =>
    case Wood =>
  }

  lemma IdInjective(a: Block, b: Block)
    requires Id(a) == Id(b)
    ensures a == b
  {
    IdRoundTrip(a);
    IdRoundTrip(b);
  }

  /** The `OreBlocks` union type: the keys of `GenerativeBlocks`. */
  predicate IsOreBlock(b: Block) {
    b == Stone || b == IronOre || b == CoalOre
  }

  /** `BlockProperties[b]`. */
  function Properties(b: Block): (p: BaseProperties)
    ensures p.solid <==> b != Air
    ensures b == Grass ==> p.color == 0x55aa55
    ensures b == Dirt ==> p.color == 0x825432
  {
    match b
    case Air => BaseProperties("Air", false, 0x000000)
    case Grass => BaseProperties("Grass", true, 0x55aa55)
    case Dirt => BaseProperties("Dirt", true, 0x825432)
    case Stone => BaseProperties("Stone", true, 0x999999)
    case IronOre => BaseProperties("Iron Ore", true, 0x995555)
    case CoalOre => BaseProperties("Coal Ore", true, 0x666666)
    case Wood => BaseProperties("Wood", true, 0x6c4a1e)
  }

  /** `GenerativeBlocks[b]`; `None` for a block that is not a key of the table. */
  function Generative(b: Block): (r: Option<GenerativeProperties>)
    ensures r.Some? <==> IsOreBlock(b)
    ensures r.Some? ==> 0.0 <= r.value.scarcity <= 1.0 && r.value.scale > 0.0
  {
    match b
    case Stone => Some(GenerativeProperties(30.0, 0.5))
    case IronOre => Some(GenerativeProperties(20.0, 0.9))
    case CoalOre => Some(GenerativeProperties(15.0, 0.75))
    case _ => None
  }

  /** `BlockCategories[b]`. */
  function Category(b: Block): (c: BlockCategory)
    ensures c == Ore <==> b == IronOre || b == CoalOre
    ensures c == Vegetation <==> b == Wood
    ensures c == Terrain <==> b == Air || b == Grass || b == Dirt || b == Stone
  {
    match b
    case Air => Terrain
    case Grass => Terrain
    case Dirt => Terrain
    case Stone => Terrain
    case IronOre => Ore
    case CoalOre => Ore
    case Wood => Vegetation
  }

  /** Stone is a key of the generative table but is categorised as terrain. */
  lemma StoneIsOreBlockButTerrain()
    ensures IsOreBlock(Stone) && Generative(Stone).Some? && Category(Stone) == Terrain
  {
  }

  /** The material colours the world renderer creates, keyed by block
      (src/render/world-renderer.ts, initializeMaterials). Only grass and dirt
      have a material. */
  function RendererMaterialColor(b: Block): (r: Option<nat>)
    ensures r.Some? <==> b == Grass || b == Dirt
  {
    match b
    case Grass => Some(0x55aa55)
    case Dirt => Some(0x825432)
    case _ => None
  }

  /** Every renderer material agrees with the colour in the block table. */
  lemma RendererColorsMatchTable(b: Block)
    requires RendererMaterialColor(b).Some?
    ensures RendererMaterialColor(b).value == Properties(b).color
  {
  }
}
