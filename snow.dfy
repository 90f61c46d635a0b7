/** Snow and ice on cold biomes: water freezes to ice, other surfaces get a
    snow layer and their snowy state. */
module Snow {
  import opened Common
  import opened Xml
  import opened World
  import PP = PostProcessor

  const Mode: PP.PostProcessType := PP.Surface

  /** `check-biomes` is read but never used by the hook. */
  datatype Config = Config(topOnly: bool, biomeCheck: bool)

  function Create(xml: Element): (r: Config)
    ensures Child(xml, "top-only").None? ==> r.topOnly
    ensures Child(xml, "check-biomes").None? ==> r.biomeCheck
  {
    Config(TryParseBool(xml, "top-only", true), TryParseBool(xml, "check-biomes", true))
  }

  /** The lowest height at which each biome freezes. */
  const SnowThresholds: map<string, int> := map[
    "snowy_tundra" := -999, "ice_spikes" := -999, "snowy_taiga" := -999,
    "snowy_taiga_hills" := -999, "snowy_taiga_mountains" := -999,
    "snowy_mountains" := -999, "snowy_beach" := -999,
    "gravelly_mountains" := 128, "modified_gravelly_mountains" := 128,
    "mountains" := 128, "mountain_edge" := 128, "taiga_mountains" := 128,
    "wooded_mountains" := 128, "stone_shore" := 128,
    "taiga" := 168, "taiga_hills" := 168, "giant_spruce_taiga" := 168,
    "giant_spruce_taiga_hills" := 168, "giant_tree_taiga" := 168,
    "giant_tree_taiga_hills" := 168,
    "frozen_ocean" := 72, "deep_frozen_ocean" := 72]

  /** `IsAboveBiomeThreshold`: biomes missing from the table never freeze. */
  predicate IsAboveBiomeThreshold(biome: string, y: int)
  {
    biome in SnowThresholds && y >= SnowThresholds[biome]
  }

  /** The snowy biomes freeze at every height, mountains from 128 up. */
  lemma ThresholdExamples(y: int)
    ensures y >= -999 ==> IsAboveBiomeThreshold("snowy_tundra", y)
    ensures IsAboveBiomeThreshold("mountains", y) <==> y >= 128
    ensures !IsAboveBiomeThreshold("plains", y)
  {
  }

  const SnowLayer: Block := Named("minecraft:snow")
  const Ice: Block := Named("minecraft:ice")
  const SnowyGrass: Block := Block("minecraft:grass_block", map["snowy" := "true"])
  const SnowyPodzol: Block := Block("minecraft:podzol", map["snowy" := "true"])
  const SnowyMycelium: Block := Block("minecraft:mycelium", map["snowy" := "true"])

  /** The snowy state of a block that has one. */
  function Snowy(b: Block): Option<Block>
  {
    if b.id == "minecraft:grass_block" then Some(SnowyGrass)
    else if b.id == "minecraft:podzol" then Some(SnowyPodzol)
    else if b.id == "minecraft:mycelium" then Some(SnowyMycelium)
    else None
  }

  /** The world after a hook, the next draw position, and whether the hook
      returned normally (false where the source dereferences a null block). */
  datatype Frozen = Frozen(blocks: map<Coord, Block>, next: nat, ok: bool)

  /** `FreezeBlock` at `pos` on draws from k. */
  function FreezeAt(env: Env, m: map<Coord, Block>, pos: Coord, mask: real, biome: string, draw: nat -> Unit, k: nat)
    : (r: Frozen)
    ensures forall c :: c != pos && c != Above(pos) ==> Get(r.blocks, c) == Get(m, c)
    ensures !IsAboveBiomeThreshold(biome, pos.1) || !IsAirOrNull(env, m, Above(pos)) ==> r == Frozen(m, k, true)
    ensures r.next == k || r.next == k + 1
    ensures !r.ok <==> IsAboveBiomeThreshold(biome, pos.1) && IsAirOrNull(env, m, Above(pos)) && pos !in m
    ensures !r.ok ==> r == Frozen(m, k, false)
    ensures (IsAboveBiomeThreshold(biome, pos.1) && IsAirOrNull(env, m, Above(pos)) && pos in m &&
             m[pos].id in env.water && mask >= 0.25) ==> r.blocks == m[pos := Ice]
    ensures (pos in m && m[pos].id !in env.water &&
             (m[pos].id in env.liquids || m[pos].id in {"minecraft:snow", "minecraft:ice"})) ==> r == Frozen(m, k, true)
    ensures (IsAboveBiomeThreshold(biome, pos.1) && IsAirOrNull(env, m, Above(pos)) && pos in m &&
             m[pos].id !in env.water && m[pos].id !in env.liquids && m[pos].id !in {"minecraft:snow", "minecraft:ice"}) ==>
              Get(r.blocks, Above(pos)) == Some(SnowLayer) &&
              Get(r.blocks, pos) == (if Snowy(m[pos]).Some? then Snowy(m[pos]) else Some(m[pos]))
  {
    if !IsAboveBiomeThreshold(biome, pos.1) then Frozen(m, k, true)
    else if !IsAirOrNull(env, m, Above(pos)) then Frozen(m, k, true)
    else if pos !in m then Frozen(m, k, false)
    else
      var b := m[pos];
      if b.id in env.water then
        if mask >= 1.0 then Frozen(m[pos := Ice], k, true)
        else if draw(k) <= mask * 4.0 then Frozen(m[pos := Ice], k + 1, true)
        else Frozen(m, k + 1, true)
      else if b.id in env.liquids || b.id in {"minecraft:snow", "minecraft:ice"} then Frozen(m, k, true)
      else
        var m' := m[Above(pos) := SnowLayer];
        match Snowy(b)
        case Some(s) => Frozen(m'[pos := s], k, true)
        case None => Frozen(m', k, true)
  }

  /** A frozen cell is frozen for good: freezing it again on the same draws
      changes nothing, when snow is not air. */
  lemma FreezeIdempotent(env: Env, m: map<Coord, Block>, pos: Coord, mask: real, biome: string, draw: nat -> Unit, k: nat)
    requires SnowLayer.id !in env.air
    ensures var once := FreezeAt(env, m, pos, mask, biome, draw, k).blocks;
            FreezeAt(env, once, pos, mask, biome, draw, k).blocks == once
  {
  }

  /** The surface hook: nothing without a biome; otherwise the surface cell
      unless `topOnly`, and the highest solid cell (when `topOnly`, or when
      it lies above the surface). An exception in the first freeze skips
      the second. */
  function SnowAt(env: Env, m: map<Coord, Block>, biomes: map<(int, int), string>, cfg: Config, pos: Coord, mask: real,
                  draw: nat -> Unit, k: nat): (r: Frozen)
    ensures (pos.0, pos.2) !in biomes ==> r == Frozen(m, k, true)
    ensures k <= r.next <= k + 2
  {
    if (pos.0, pos.2) !in biomes then Frozen(m, k, true)
    else
      var biome := biomes[(pos.0, pos.2)];
      var first := if !cfg.topOnly then FreezeAt(env, m, pos, mask, biome, draw, k) else Frozen(m, k, true);
      if !first.ok then first
      else
        var y2 := env.highestSolid(first.blocks, pos.0, pos.2);
        if cfg.topOnly || y2 > pos.1 then FreezeAt(env, first.blocks, (pos.0, y2, pos.2), mask, biome, draw, first.next)
        else first
  }

  /** With `topOnly` only the highest solid cell and the one above it can change. */
  lemma TopOnlyFreezesHighest(env: Env, m: map<Coord, Block>, biomes: map<(int, int), string>, cfg: Config, pos: Coord,
                              mask: real, draw: nat -> Unit, k: nat, c: Coord)
    requires cfg.topOnly
    requires var top := (pos.0, env.highestSolid(m, pos.0, pos.2), pos.2); c != top && c != Above(top)
    ensures Get(SnowAt(env, m, biomes, cfg, pos, mask, draw, k).blocks, c) == Get(m, c)
  {
  }

  /** Returns false where the source throws on a null block. */
  method FreezeBlock(dim: Dimension, rng: Random, pos: Coord, mask: real, biome: string) returns (ok: bool)
    modifies dim`blocks, rng`count
    ensures Frozen(dim.blocks, rng.count, ok) == FreezeAt(dim.env, old(dim.blocks), pos, mask, biome, rng.draw, old(rng.count))
  {
    ok := true;
    if !IsAboveBiomeThreshold(biome, pos.1) {
      return;
    }
    if !IsAirOrNull(dim.env, dim.blocks, Above(pos)) {
      return;
    }
    if pos !in dim.blocks {
      return false;
    }
    var block := dim.blocks[pos];
    if block.id in dim.env.water {
      var freeze := mask >= 1.0;
      if !freeze {
        var d := rng.NextDouble();
        freeze := d <= mask * 4.0;
      }
      if freeze {
        dim.SetBlock(pos, Ice);
      }
    } else {
      if block.id in dim.env.liquids || block.id in {"minecraft:snow", "minecraft:ice"} {
        return;
      }
      dim.SetBlock(Above(pos), SnowLayer);
      if block.id == SnowyGrass.id {
        dim.SetBlock(pos, SnowyGrass);
      } else if block.id == SnowyPodzol.id {
        dim.SetBlock(pos, SnowyPodzol);
      } else if block.id == SnowyMycelium.id {
        dim.SetBlock(pos, SnowyMycelium);
      }
    }
  }

  /** Returns false where the source throws on a null block. */
  method OnProcessSurface(dim: Dimension, rng: Random, cfg: Config, pos: Coord, mask: real) returns (ok: bool)
    modifies dim`blocks, rng`count
    ensures Frozen(dim.blocks, rng.count, ok) == SnowAt(dim.env, old(dim.blocks), dim.biomes, cfg, pos, mask, rng.draw, old(rng.count))
  {
    ok := true;
    if (pos.0, pos.2) !in dim.biomes {
      return;
    }
    var biome := dim.biomes[(pos.0, pos.2)];
    if !cfg.topOnly {
      ok := FreezeBlock(dim, rng, pos, mask, biome);
      if !ok {
        return;
      }
    }
    var y2 := dim.env.highestSolid(dim.blocks, pos.0, pos.2);
    if cfg.topOnly || y2 > pos.1 {
      ok := FreezeBlock(dim, rng, (pos.0, y2, pos.2), mask, biome);
    }
  }
}
