/** De-icing: snowy biomes become their temperate counterparts, snow and ice
    blocks become air and water, and snowy blocks lose that state. */
module Thaw {
  import opened Common
  import opened World
  import PP = PostProcessor

  const Mode: PP.PostProcessType := PP.Both

  const BiomeDeIcing: map<string, string> := map[
    "snowy_tundra" := "plains", "ice_spikes" := "plains",
    "snowy_taiga" := "taiga", "snowy_taiga_hills" := "taiga_hills",
    "snowy_taiga_mountains" := "taiga_mountains", "snowy_mountains" := "mountains",
    "frozen_river" := "river", "frozen_ocean" := "ocean",
    "snowy_beach" := "beach", "deep_frozen_ocean" := "deep_ocean"]

  const BlockReplacement: map<string, string> := map[
    "minecraft:snow" := "minecraft:air", "minecraft:snow_block" := "minecraft:air",
    "minecraft:ice" := "minecraft:water", "minecraft:packed_ice" := "minecraft:water",
    "minecraft:blue_ice" := "minecraft:water", "minecraft:powder_snow" := "minecraft:air"]

  /** No biome the table produces is itself thawed again. */
  lemma BiomeTableClosed()
    ensures forall b :: b in BiomeDeIcing ==> BiomeDeIcing[b] !in BiomeDeIcing
  {
  }

  /** Every block replacement is air or water, which the table leaves alone. */
  lemma BlockTableClosed()
    ensures forall b :: b in BlockReplacement ==>
              BlockReplacement[b] in {"minecraft:air", "minecraft:water"} && BlockReplacement[b] !in BlockReplacement
  {
  }

  /** The surface hook on the biome map: a table biome is replaced by its
      counterpart, anything else (or no biome, which is reported) stays. */
  function ThawBiomeAt(biomes: map<(int, int), string>, x: int, z: int): (r: map<(int, int), string>)
    ensures forall k :: k != (x, z) ==> (k in r <==> k in biomes) && (k in r ==> r[k] == biomes[k])
    ensures (x, z) in biomes && biomes[(x, z)] in BiomeDeIcing ==> r == biomes[(x, z) := BiomeDeIcing[biomes[(x, z)]]]
    ensures !((x, z) in biomes && biomes[(x, z)] in BiomeDeIcing) ==> r == biomes
  {
    if (x, z) in biomes && biomes[(x, z)] in BiomeDeIcing then biomes[(x, z) := BiomeDeIcing[biomes[(x, z)]]] else biomes
  }

  lemma {:induction false} ThawBiomeIdempotent(biomes: map<(int, int), string>, x: int, z: int)
    ensures ThawBiomeAt(ThawBiomeAt(biomes, x, z), x, z) == ThawBiomeAt(biomes, x, z)
  {
    BiomeTableClosed();
  }

  /** The block hook: empty cells stay; a block with a "snowy" property is
      reset to its bare state; a table block becomes its replacement. */
  function ThawBlockAt(env: Env, m: map<Coord, Block>, pos: Coord): (r: map<Coord, Block>)
    ensures forall c :: c != pos ==> Get(r, c) == Get(m, c)
    ensures IsAirOrNull(env, m, pos) ==> r == m
    ensures !IsAirOrNull(env, m, pos) && "snowy" in m[pos].props ==> r == m[pos := Named(m[pos].id)]
    ensures !IsAirOrNull(env, m, pos) && "snowy" !in m[pos].props ==>
              r == if m[pos].id in BlockReplacement then m[pos := Named(BlockReplacement[m[pos].id])] else m
  {
    if IsAirOrNull(env, m, pos) then m
    else
      var b := m[pos];
      if "snowy" in b.props then m[pos := Named(b.id)]
      else if b.id in BlockReplacement then m[pos := Named(BlockReplacement[b.id])]
      else m
  }

  /** Thawing twice is thawing once, unless the block is a snowy table block
      (which loses its state first and is replaced on the second pass). */
  lemma {:induction false} ThawBlockIdempotent(env: Env, m: map<Coord, Block>, pos: Coord)
    requires !(pos in m && "snowy" in m[pos].props && m[pos].id in BlockReplacement)
    ensures ThawBlockAt(env, ThawBlockAt(env, m, pos), pos) == ThawBlockAt(env, m, pos)
  {
    BlockTableClosed();
  }

  method OnProcessSurface(dim: Dimension, pos: Coord)
    modifies dim`biomes
    ensures dim.biomes == ThawBiomeAt(old(dim.biomes), pos.0, pos.2)
  {
    if (pos.0, pos.2) in dim.biomes {
      var biome := dim.biomes[(pos.0, pos.2)];
      if biome in BiomeDeIcing {
        dim.SetBiome(pos.0, pos.2, BiomeDeIcing[biome]);
      }
    }
  }

  method OnProcessBlock(dim: Dimension, pos: Coord)
    modifies dim`blocks
    ensures dim.blocks == ThawBlockAt(dim.env, old(dim.blocks), pos)
  {
    if IsAirOrNull(dim.env, dim.blocks, pos) {
      return;
    }
    var block := dim.blocks[pos];
    if "snowy" in block.props {
      dim.SetBlock(pos, Named(block.id));
    } else if block.id in BlockReplacement {
      dim.SetBlock(pos, Named(BlockReplacement[block.id]));
    }
  }
}
