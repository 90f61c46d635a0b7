/** Water mapping: every empty cell between the surface and the water level
    (or the surface of a water map, where it is higher) fills with water. */
module WaterLevel {
  import opened Common
  import opened Xml
  import opened World
  import Paths
  import PP = PostProcessor

  const Mode: PP.PostProcessType := PP.Surface

  /** The level, the block placed, and the water-surface map (the raw
      heightmap file named by the `file` element), with the world-origin
      offset it is sampled relative to. */
  datatype Config = Config(waterLevel: int, waterBlock: string, surfaceMap: Option<(int, int) -> PP.Byte>,
                           originX: int, originZ: int)

  /** `waterlevel` keeps 62 unless it is present and parses; `waterblock`
      replaces "minecraft:water" when present; a `file` element must name a
      loadable heightmap. */
  function Create(xml: Element, rootPath: Option<string>, heightmaps: map<string, (int, int) -> PP.Byte>,
                  originX: int, originZ: int): (r: Result<Config>)
    ensures r.Ok? ==> r.value.waterLevel == TryParseInt(xml, "waterlevel", 62)
    ensures r.Ok? ==> r.value.waterBlock == (match ChildText(xml, "waterblock") case Some(t) => t case None => "minecraft:water")
    ensures r.Ok? ==> (r.value.surfaceMap.Some? <==> Child(xml, "file").Some?)
    ensures Child(xml, "file").None? ==> r.Ok?
  {
    var level := TryParseInt(xml, "waterlevel", 62);
    var block := match ChildText(xml, "waterblock") case Some(t) => t case None => "minecraft:water";
    match Child(xml, "file")
    case None => Ok(Config(level, block, None, originX, originZ))
    case Some(f) =>
      if rootPath.None? then Err("ArgumentNullException: path")
      else
        var path := Paths.Combine(rootPath.value, f.text);
        if path !in heightmaps then Err("FileNotFoundException: " + path)
        else Ok(Config(level, block, Some(heightmaps[path]), originX, originZ))
  }

  /** The highest cell filled: the water level, or the map's value where
      that is higher. */
  function Start(cfg: Config, x: int, z: int): (s: int)
    ensures s >= cfg.waterLevel
    ensures cfg.surfaceMap.None? ==> s == cfg.waterLevel
    ensures cfg.surfaceMap.Some? ==> s == Max(cfg.surfaceMap.value(x - cfg.originX, z - cfg.originZ), cfg.waterLevel)
  {
    match cfg.surfaceMap
    case None => cfg.waterLevel
    case Some(f) => Max(f(x - cfg.originX, z - cfg.originZ), cfg.waterLevel)
  }

  /** The downward fill of column (x, z) from `top` to just above `floor`:
      exactly the empty cells in that range become `b`. */
  function FillDown(env: Env, m: map<Coord, Block>, x: int, z: int, top: int, floor: int, b: Block): (r: map<Coord, Block>)
    ensures forall c :: Get(r, c) ==
              if c.0 == x && c.2 == z && floor < c.1 <= top && IsAirOrNull(env, m, c) then Some(b) else Get(m, c)
    decreases top - floor
  {
    if top <= floor then m
    else
      var m' := if IsAirOrNull(env, m, (x, top, z)) then m[(x, top, z) := b] else m;
      FillDown(env, m', x, z, top - 1, floor, b)
  }

  /** A second fill changes nothing, since the filled cells are no longer
      empty. */
  lemma FillDownIdempotent(env: Env, m: map<Coord, Block>, x: int, z: int, top: int, floor: int, b: Block)
    requires b.id !in env.air
    ensures FillDown(env, FillDown(env, m, x, z, top, floor, b), x, z, top, floor, b) == FillDown(env, m, x, z, top, floor, b)
  {
    var once := FillDown(env, m, x, z, top, floor, b);
    SameEverywhere(FillDown(env, once, x, z, top, floor, b), once);
  }

  /** The surface hook's effect on a column. */
  function WaterAt(env: Env, m: map<Coord, Block>, cfg: Config, pos: Coord): (r: map<Coord, Block>)
    ensures Start(cfg, pos.0, pos.2) <= pos.1 ==> r == m
  {
    FillDown(env, m, pos.0, pos.2, Start(cfg, pos.0, pos.2), pos.1, Named(cfg.waterBlock))
  }

  method OnProcessSurface(dim: Dimension, cfg: Config, pos: Coord)
    modifies dim`blocks
    ensures dim.blocks == WaterAt(dim.env, old(dim.blocks), cfg, pos)
  {
    var start := cfg.waterLevel;
    if cfg.surfaceMap.Some? {
      start := Max(cfg.surfaceMap.value(pos.0 - cfg.originX, pos.2 - cfg.originZ), cfg.waterLevel);
    }
    var y2 := start;
    while y2 > pos.1
      invariant FillDown(dim.env, dim.blocks, pos.0, pos.2, y2, pos.1, Named(cfg.waterBlock))
                == WaterAt(dim.env, old(dim.blocks), cfg, pos)
      decreases y2 - pos.1
    {
      if IsAirOrNull(dim.env, dim.blocks, (pos.0, y2, pos.2)) {
        dim.SetBlock((pos.0, y2, pos.2), Named(cfg.waterBlock));
      }
      y2 := y2 - 1;
    }
  }
}
