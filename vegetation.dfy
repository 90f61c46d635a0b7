/** Vegetation: oak trees and tall grass on grass and dirt surfaces. */
module Vegetation {
  import opened Common
  import opened Xml
  import opened World
  import PP = PostProcessor

  const OrderPriority: PP.Priority := PP.AfterDefault
  const Mode: PP.PostProcessType := PP.Surface

  /** The tree top, layer by layer from the bottom, rows along z, columns
      along x: 0 is nothing, 1 a log, 2 leaves. */
  const TreeTop: seq<seq<seq<int>>> := [
    [[0,0,0,0,0], [0,0,2,0,0], [0,2,1,2,0], [0,0,2,0,0], [0,0,0,0,0]],
    [[0,2,2,2,0], [2,2,2,2,2], [2,2,1,2,2], [2,2,2,2,2], [0,2,2,2,0]],
    [[0,2,2,2,0], [2,2,2,2,2], [2,2,1,2,2], [2,2,2,2,2], [0,2,2,2,0]],
    [[0,0,0,0,0], [0,2,2,2,0], [0,2,1,2,0], [0,2,2,2,0], [0,0,0,0,0]],
    [[0,0,0,0,0], [0,0,2,0,0], [0,2,2,2,0], [0,0,2,0,0], [0,0,0,0,0]]]

  const TreeRadius: int := 2
  const TreeTopHeight: int := 5

  /** The entry of a blueprint at (ly, lz, lx); 0 (nothing) outside it. */
  function Cell(top: seq<seq<seq<int>>>, ly: int, lz: int, lx: int): int
  {
    if 0 <= ly < |top| && 0 <= lz < |top[ly]| && 0 <= lx < |top[ly][lz]| then top[ly][lz][lx] else 0
  }

  function Palette(ly: int, lz: int, lx: int): (p: int)
    requires 0 <= ly < 5 && 0 <= lz < 5 && 0 <= lx < 5
  {
    Cell(TreeTop, ly, lz, lx)
  }

  /** The blueprint's logs continue the trunk: they sit on the centre column
      of the four lower layers and nowhere else. */
  lemma LogsOnTrunkAxis(ly: int, lz: int, lx: int)
    requires 0 <= ly < 5 && 0 <= lz < 5 && 0 <= lx < 5
    ensures Palette(ly, lz, lx) in {0, 1, 2}
    ensures Palette(ly, lz, lx) == 1 <==> lz == 2 && lx == 2 && ly < 4
  {
    assert TreeTop[ly] in TreeTop;
  }

  datatype Config = Config(grassChance: real, treesChance: real)

  /** `grass` (default 0.2) is the grass chance, `trees` (default 0.3) over
      128 the tree chance. */
  function Create(xml: Element): (r: Result<Config>)
    ensures ChildText(xml, "grass").None? && ChildText(xml, "trees").None? ==> r == Ok(Config(0.2, 0.3 / 128.0))
    ensures r.Ok? ==> ParseFloatOr(xml, "grass", 0.2) == Ok(r.value.grassChance) &&
                      ParseFloatOr(xml, "trees", 0.3) == Ok(r.value.treesChance * 128.0)
    ensures r.Err? ==> ParseFloatOr(xml, "grass", 0.2).Err? || ParseFloatOr(xml, "trees", 0.3).Err?
  {
    match ParseFloatOr(xml, "grass", 0.2)
    case Err(e) => Err(e)
    case Ok(g) =>
      match ParseFloatOr(xml, "trees", 0.3)
      case Err(e) => Err(e)
      case Ok(t) => Ok(Config(g, t / 128.0))
  }

  const Dirt: Block := Named("minecraft:dirt")
  const Log: Block := Named("minecraft:oak_log")
  const Leaves: Block := Named("minecraft:oak_leaves")
  const TallGrass: Block := Named("minecraft:grass")

  /** `CanGrowPlant`. */
  predicate CanGrowPlant(b: Block)
  {
    b.id == "minecraft:grass_block" || b.id == "minecraft:dirt"
  }

  function PaletteBlock(p: int): Block
  {
    if p == 1 then Log else Leaves
  }

  /** The blueprint position of a cell for a tree at `p` with trunk height h. */
  function LocalX(p: Coord, c: Coord): int { c.0 - p.0 + TreeRadius }
  function LocalY(p: Coord, h: int, c: Coord): int { c.1 - p.1 - h - 1 }
  function LocalZ(p: Coord, c: Coord): int { c.2 - p.2 + TreeRadius }

  /** Whether (ly, lz, lx) comes before (ly', lz', lx') in the loop order. */
  predicate Before(ly: int, lz: int, lx: int, ly': int, lz': int, lx': int)
  {
    ly < ly' || (ly == ly' && (lz < lz' || (lz == lz' && lx < lx')))
  }

  /** The part of the blueprint a cell falls in, if it is a non-empty
      blueprint cell visited before (ly, lz, lx). */
  predicate CanopyCell(top: seq<seq<seq<int>>>, p: Coord, h: int, c: Coord, ly: int, lz: int, lx: int)
  {
    var cy, cz, cx := LocalY(p, h, c), LocalZ(p, c), LocalX(p, c);
    0 <= cy < 5 && 0 <= cz < 5 && 0 <= cx < 5 && Before(cy, cz, cx, ly, lz, lx) && Cell(top, cy, cz, cx) > 0
  }

  /** The write of blueprint position (ly, lz, lx): its palette block,
      when it is not empty. */
  function CanopyWrite(m: map<Coord, Block>, top: seq<seq<seq<int>>>, p: Coord, h: int, ly: nat, lz: nat, lx: nat): map<Coord, Block>
  {
    if Cell(top, ly, lz, lx) > 0
    then m[(p.0 + lx - TreeRadius, p.1 + ly + h + 1, p.2 + lz - TreeRadius) := PaletteBlock(Cell(top, ly, lz, lx))]
    else m
  }

  /** The canopy writes made before blueprint position (ly, lz, lx). */
  function Canopy(m: map<Coord, Block>, top: seq<seq<seq<int>>>, p: Coord, h: int, ly: nat, lz: nat, lx: nat): map<Coord, Block>
    requires ly <= 5 && lz <= 5 && lx <= 5
    decreases ly, lz, lx
  {
    if lx > 0 then
      var prev := Canopy(m, top, p, h, ly, lz, lx - 1);
      if lz < 5 && ly < 5 then CanopyWrite(prev, top, p, h, ly, lz, lx - 1) else prev
    else if lz > 0 then Canopy(m, top, p, h, ly, lz - 1, 5)
    else if ly > 0 then Canopy(m, top, p, h, ly - 1, 5, 0)
    else m
  }

  /** The canopy writes so far hold exactly the non-empty blueprint cells
      visited so far; every other cell is as before. */
  lemma {:induction false} CanopyAt(m: map<Coord, Block>, top: seq<seq<seq<int>>>, p: Coord, h: int, ly: nat, lz: nat, lx: nat, c: Coord)
    requires ly <= 5 && lz <= 5 && lx <= 5
    requires ly == 5 ==> lz == 0 && lx == 0
    requires lz == 5 ==> lx == 0
    ensures Get(Canopy(m, top, p, h, ly, lz, lx), c) ==
              if CanopyCell(top, p, h, c, ly, lz, lx) then Some(PaletteBlock(Cell(top, LocalY(p, h, c), LocalZ(p, c), LocalX(p, c))))
              else Get(m, c)
    decreases ly, lz, lx
  {
    if lx > 0 {
      CanopyAt(m, top, p, h, ly, lz, lx - 1, c);
      CanopyStep(m, top, p, h, ly, lz, lx - 1);
      CellStepX(top, p, h, c, ly, lz, lx - 1);
    } else if lz > 0 {
      CanopyAt(m, top, p, h, ly, lz - 1, 5, c);
      assert CanopyCell(top, p, h, c, ly, lz, 0) == CanopyCell(top, p, h, c, ly, lz - 1, 5);
    } else if ly > 0 {
      CanopyAt(m, top, p, h, ly - 1, 5, 0, c);
      assert CanopyCell(top, p, h, c, ly, 0, 0) == CanopyCell(top, p, h, c, ly - 1, 5, 0);
    }
  }

  /** Visiting one more blueprint cell adds exactly that cell, when it is
      not empty. */
  lemma CellStepX(top: seq<seq<seq<int>>>, p: Coord, h: int, c: Coord, ly: nat, lz: nat, lx: nat)
    requires ly < 5 && lz < 5 && lx < 5
    ensures CanopyCell(top, p, h, c, ly, lz, lx + 1) <==>
            CanopyCell(top, p, h, c, ly, lz, lx) ||
            (c == (p.0 + lx - TreeRadius, p.1 + ly + h + 1, p.2 + lz - TreeRadius) && Cell(top, ly, lz, lx) > 0)
    ensures c == (p.0 + lx - TreeRadius, p.1 + ly + h + 1, p.2 + lz - TreeRadius) ==>
            LocalY(p, h, c) == ly && LocalZ(p, c) == lz && LocalX(p, c) == lx
  {
  }

  /** A whole tree at `p` with trunk height h: dirt below, logs from p up
      to p + h, and the blueprint above. */
  function Tree(m: map<Coord, Block>, p: Coord, h: int): map<Coord, Block>
    requires h >= 0
  {
    Canopy(Trunk(m, p, h), TreeTop, p, h, 5, 0, 0)
  }

  function Trunk(m: map<Coord, Block>, p: Coord, h: int): map<Coord, Block>
    requires h >= 0
  {
    Paint(m[Below(p) := Dirt], p.0, p.2, p.1 + h, h + 1, Log)
  }

  /** A tree changes only the 5 x 5 columns around its trunk, from the
      ground cell up to the top of the blueprint. */
  lemma TreeFootprint(m: map<Coord, Block>, p: Coord, h: int, c: Coord)
    requires h >= 0
    requires !(-2 <= c.0 - p.0 <= 2 && -2 <= c.2 - p.2 <= 2 && p.1 - 1 <= c.1 <= p.1 + h + 5)
    ensures Get(Tree(m, p, h), c) == Get(m, c)
  {
    CanopyAt(Trunk(m, p, h), TreeTop, p, h, 5, 0, 0, c);
  }

  /** The ground cell becomes dirt and the trunk cells logs; the blueprint
      layers start just above the trunk. */
  lemma TreeTrunk(m: map<Coord, Block>, p: Coord, h: int, i: int)
    requires h >= 0 && 0 <= i <= h
    ensures Get(Tree(m, p, h), Below(p)) == Some(Dirt)
    ensures Get(Tree(m, p, h), (p.0, p.1 + i, p.2)) == Some(Log)
  {
    CanopyAt(Trunk(m, p, h), TreeTop, p, h, 5, 0, 0, Below(p));
    CanopyAt(Trunk(m, p, h), TreeTop, p, h, 5, 0, 0, (p.0, p.1 + i, p.2));
  }

  /** A cell of the blueprint holds its palette block once the tree stands. */
  lemma TreeCanopy(m: map<Coord, Block>, p: Coord, h: int, ly: int, lz: int, lx: int)
    requires h >= 0 && 0 <= ly < 5 && 0 <= lz < 5 && 0 <= lx < 5 && Palette(ly, lz, lx) > 0
    ensures Get(Tree(m, p, h), (p.0 + lx - TreeRadius, p.1 + ly + h + 1, p.2 + lz - TreeRadius))
            == Some(PaletteBlock(Palette(ly, lz, lx)))
  {
    var c := (p.0 + lx - TreeRadius, p.1 + ly + h + 1, p.2 + lz - TreeRadius);
    assert LocalY(p, h, c) == ly && LocalZ(p, c) == lz && LocalX(p, c) == lx;
    CanopyAt(Trunk(m, p, h), TreeTop, p, h, 5, 0, 0, c);
  }

  /** `PlaceTree` at `p` (the cell above the surface), given the draw for
      its trunk height: whether a tree was placed, the new world, and the
      draws taken. */
  function TreeAt(env: Env, m: map<Coord, Block>, p: Coord, d: Unit): (r: (bool, map<Coord, Block>, nat))
    ensures r.2 <= 1
    ensures !r.0 ==> r.1 == m
    ensures r.0 <==> Below(p) in m && CanGrowPlant(m[Below(p)]) && IsAirOrNull(env, m, Above(p))
    ensures r.0 ==> r.1 == Tree(m, p, NextInt(d, 1, 4)) && 1 <= NextInt(d, 1, 4) <= 3
  {
    if Below(p) !in m || !CanGrowPlant(m[Below(p)]) then (false, m, 0)
    else if !IsAirOrNull(env, m, Above(p)) then (false, m, 1)
    else (true, Tree(m, p, NextInt(d, 1, 4)), 1)
  }

  /** `PlaceGrass` at `p`: tall grass only on a grass block. */
  function GrassAt(m: map<Coord, Block>, p: Coord): (r: map<Coord, Block>)
    ensures forall c :: c != p ==> Get(r, c) == Get(m, c)
    ensures Get(r, p) == if Below(p) in m && m[Below(p)].id == "minecraft:grass_block" then Some(TallGrass) else Get(m, p)
  {
    if Below(p) in m && m[Below(p)].id == "minecraft:grass_block" then m[p := TallGrass] else m
  }

  /** The surface hook on draws from position k: a tree with the tree chance,
      and tall grass with the grass chance where no tree was placed. */
  function VegetationAt(env: Env, m: map<Coord, Block>, cfg: Config, pos: Coord, draw: nat -> Unit, k: nat)
    : (r: (map<Coord, Block>, nat))
    ensures k + 1 <= r.1 <= k + 3
    ensures draw(k) <= cfg.treesChance && TreeAt(env, m, Above(pos), draw(k + 1)).0 ==>
              r == (TreeAt(env, m, Above(pos), draw(k + 1)).1, k + 1 + TreeAt(env, m, Above(pos), draw(k + 1)).2)
    ensures draw(k) > cfg.treesChance ==>
              r == (if draw(k + 1) <= cfg.grassChance then GrassAt(m, Above(pos)) else m, k + 2)
  {
    var tree := if draw(k) <= cfg.treesChance then TreeAt(env, m, Above(pos), draw(k + 1)) else (false, m, 0);
    if tree.0 then (tree.1, k + 1 + tree.2)
    else
      var j := k + 1 + tree.2;
      (if draw(j) <= cfg.grassChance then GrassAt(m, Above(pos)) else m, j + 1)
  }

  /** `PlaceTree`: the ground and trunk loop, then the blueprint loops. */
  method PlaceTree(dim: Dimension, rng: Random, p: Coord) returns (placed: bool)
    modifies dim`blocks, rng`count
    ensures (placed, dim.blocks, rng.count - old(rng.count)) == TreeAt(dim.env, old(dim.blocks), p, rng.draw(old(rng.count)))
  {
    if Below(p) !in dim.blocks || !CanGrowPlant(dim.blocks[Below(p)]) {
      return false;
    }
    var h := rng.Next(1, 4);
    if !IsAirOrNull(dim.env, dim.blocks, Above(p)) {
      return false;
    }
    PlaceTrunk(dim, p, h);
    PlaceCanopy(dim, TreeTop, p, h);
    placed := true;
  }

  method PlaceTrunk(dim: Dimension, p: Coord, h: int)
    requires h >= 0
    modifies dim`blocks
    ensures dim.blocks == Trunk(old(dim.blocks), p, h)
  {
    dim.SetBlock(Below(p), Dirt);
    ghost var base := dim.blocks;
    var i := 0;
    while i <= h
      invariant 0 <= i <= h + 1
      invariant dim.blocks == Paint(base, p.0, p.2, p.1 + i - 1, i, Log)
    {
      dim.SetBlock((p.0, p.1 + i, p.2), Log);
      PaintUp(base, p.0, p.2, p.1, i, Log);
      i := i + 1;
    }
  }

  /** Painting one more cell on top of a painted run of a column. */
  lemma PaintUp(m: map<Coord, Block>, x: int, z: int, bottom: int, i: nat, b: Block)
    ensures Paint(m, x, z, bottom + i, i + 1, b) == Paint(m, x, z, bottom + i - 1, i, b)[(x, bottom + i, z) := b]
  {
    SameEverywhere(Paint(m, x, z, bottom + i, i + 1, b), Paint(m, x, z, bottom + i - 1, i, b)[(x, bottom + i, z) := b]);
  }

  /** The blueprint loops, layer by layer, row by row. */
  method PlaceCanopy(dim: Dimension, top: seq<seq<seq<int>>>, p: Coord, h: int)
    modifies dim`blocks
    ensures dim.blocks == Canopy(old(dim.blocks), top, p, h, 5, 0, 0)
  {
    ghost var trunk := dim.blocks;
    var ly := 0;
    while ly < TreeTopHeight
      invariant 0 <= ly <= 5
      invariant dim.blocks == Canopy(trunk, top, p, h, ly, 0, 0)
    {
      var lz := 0;
      while lz < 2 * TreeRadius + 1
        invariant 0 <= lz <= 5
        invariant dim.blocks == Canopy(trunk, top, p, h, ly, lz, 0)
      {
        CanopyRow(dim, trunk, top, p, h, ly, lz);
        lz := lz + 1;
      }
      assert Canopy(trunk, top, p, h, ly + 1, 0, 0) == Canopy(trunk, top, p, h, ly, 5, 0);
      ly := ly + 1;
    }
  }

  /** One blueprint cell: its palette block, when it is not empty. */
  lemma CanopyStep(m: map<Coord, Block>, top: seq<seq<seq<int>>>, p: Coord, h: int, ly: nat, lz: nat, lx: nat)
    requires ly < 5 && lz < 5 && lx < 5
    ensures Canopy(m, top, p, h, ly, lz, lx + 1) == CanopyWrite(Canopy(m, top, p, h, ly, lz, lx), top, p, h, ly, lz, lx)
  {
  }

  /** One row of the blueprint, along x. */
  method CanopyRow(dim: Dimension, ghost trunk: map<Coord, Block>, top: seq<seq<seq<int>>>, p: Coord, h: int, ly: nat, lz: nat)
    requires ly < 5 && lz < 5
    requires dim.blocks == Canopy(trunk, top, p, h, ly, lz, 0)
    modifies dim`blocks
    ensures dim.blocks == Canopy(trunk, top, p, h, ly, lz + 1, 0)
  {
    var lx := 0;
    while lx < 2 * TreeRadius + 1
      invariant 0 <= lx <= 5
      invariant dim.blocks == Canopy(trunk, top, p, h, ly, lz, lx)
    {
      CanopyStep(trunk, top, p, h, ly, lz, lx);
      var palette := Cell(top, ly, lz, lx);
      if palette > 0 {
        var block := if palette == 1 then Log else Leaves;
        dim.SetBlock((p.0 + lx - TreeRadius, p.1 + ly + h + 1, p.2 + lz - TreeRadius), block);
      }
      lx := lx + 1;
    }
  }

  method PlaceGrass(dim: Dimension, p: Coord)
    modifies dim`blocks
    ensures dim.blocks == GrassAt(old(dim.blocks), p)
  {
    if Below(p) !in dim.blocks || dim.blocks[Below(p)].id != "minecraft:grass_block" {
      return;
    }
    dim.SetBlock(p, TallGrass);
  }

  method OnProcessSurface(dim: Dimension, rng: Random, cfg: Config, pos: Coord)
    modifies dim`blocks, rng`count
    ensures (dim.blocks, rng.count) == VegetationAt(dim.env, old(dim.blocks), cfg, pos, rng.draw, old(rng.count))
  {
    var d := rng.NextDouble();
    if d <= cfg.treesChance {
      var placed := PlaceTree(dim, rng, Above(pos));
      if placed {
        return;
      }
    }
    var g := rng.NextDouble();
    if g <= cfg.grassChance {
      PlaceGrass(dim, Above(pos));
    }
  }
}
