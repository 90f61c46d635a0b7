/** Naturalisation: water below the water level, and a grass-and-dirt or a
    gravel skin on the surface. */
module Natural {
  import opened Common
  import opened Xml
  import opened World
  import PP = PostProcessor

  const OrderPriority: PP.Priority := PP.BeforeDefault
  const Mode: PP.PostProcessType := PP.Both

  datatype Config = Config(waterLevel: int)

  /** The `waterlevel` element, "-1" when missing (which replaces the field's
      initial -256); text that does not parse is an error. */
  function Create(xml: Element): (r: Result<Config>)
    ensures ChildText(xml, "waterlevel").None? ==> r == Ok(Config(-1))
    ensures ChildText(xml, "waterlevel").Some? ==>
              (r.Ok? <==> ParseInt(ChildText(xml, "waterlevel").value).Some?)
  {
    match ParseIntOr(xml, "waterlevel", -1)
    case Ok(v) => Ok(Config(v))
    case Err(e) => Err(e)
  }

  const Water: Block := Named("minecraft:water")
  const Grass: Block := Named("minecraft:grass_block")
  const Dirt: Block := Named("minecraft:dirt")
  const Gravel: Block := Named("minecraft:gravel")

  /** The block hook: an empty cell at or below the water level fills with
      water; nothing else changes. */
  function FloodAt(env: Env, m: map<Coord, Block>, pos: Coord, waterLevel: int): (r: map<Coord, Block>)
    ensures forall c :: c != pos ==> Get(r, c) == Get(m, c)
    ensures Get(r, pos) == if pos.1 <= waterLevel && IsAirOrNull(env, m, pos) then Some(Water) else Get(m, pos)
  {
    if pos.1 <= waterLevel && IsAirOrNull(env, m, pos) then m[pos := Water] else m
  }

  method OnProcessBlock(dim: Dimension, cfg: Config, pos: Coord)
    modifies dim`blocks
    ensures dim.blocks == FloodAt(dim.env, old(dim.blocks), pos, cfg.waterLevel)
  {
    if pos.1 <= cfg.waterLevel {
      if IsAirOrNull(dim.env, dim.blocks, pos) {
        dim.SetBlock(pos, Water);
      }
    }
  }

  /** The surface skin: above the shore line grass on top and three dirt
      cells below it, otherwise four gravel cells; only the four cells of the
      column from the surface down change. */
  function Skin(m: map<Coord, Block>, pos: Coord, waterLevel: int): (r: map<Coord, Block>)
    ensures forall c :: Get(r, c) ==
              if c.0 == pos.0 && c.2 == pos.2 && pos.1 - 3 <= c.1 <= pos.1 then
                Some(if pos.1 <= waterLevel + 1 then Gravel else if c.1 == pos.1 then Grass else Dirt)
              else Get(m, c)
  {
    if pos.1 > waterLevel + 1 then Paint(m[pos := Grass], pos.0, pos.2, pos.1 - 1, 3, Dirt)
    else Paint(m, pos.0, pos.2, pos.1, 4, Gravel)
  }

  /** Skinning a column twice is skinning it once. */
  lemma SkinIdempotent(m: map<Coord, Block>, pos: Coord, waterLevel: int)
    ensures Skin(Skin(m, pos, waterLevel), pos, waterLevel) == Skin(m, pos, waterLevel)
  {
    var once := Skin(m, pos, waterLevel);
    SameEverywhere(Skin(once, pos, waterLevel), once);
  }

  method OnProcessSurface(dim: Dimension, cfg: Config, pos: Coord)
    modifies dim`blocks
    ensures dim.blocks == Skin(old(dim.blocks), pos, cfg.waterLevel)
  {
    if pos.1 > cfg.waterLevel + 1 {
      dim.SetBlock(pos, Grass);
      ghost var start := dim.blocks;
      var i := 1;
      while i < 4
        invariant 1 <= i <= 4
        invariant dim.blocks == Paint(start, pos.0, pos.2, pos.1 - 1, i - 1, Dirt)
      {
        dim.SetBlock((pos.0, pos.1 - i, pos.2), Dirt);
        i := i + 1;
      }
    } else {
      ghost var start := dim.blocks;
      var i := 0;
      while i < 4
        invariant 0 <= i <= 4
        invariant dim.blocks == Paint(start, pos.0, pos.2, pos.1, i, Gravel)
      {
        dim.SetBlock((pos.0, pos.1 - i, pos.2), Gravel);
        i := i + 1;
      }
    }
  }
}
