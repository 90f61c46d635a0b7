/** The voxel world the generators decorate, and the random stream they draw
    from. Blocks live in a map from coordinates to block states (a missing
    key is the library's `null` block); biomes live in a map from columns. */
module World {
  import opened Common

  type Coord = (int, int, int)

  /** A block state: a namespaced id and its properties. */
  datatype Block = Block(id: string, props: map<string, string>)

  /** `new BlockState(id)`: the bare state of an id. */
  function Named(id: string): Block { Block(id, map[]) }

  /** `BlockList.Find` resolves a bare name into the vanilla namespace. */
  function Resolve(name: string): string
  {
    if ':' in name then name else "minecraft:" + name
  }

  /** The block classification of the external world library, which the
      model does not interpret: which ids are air, liquid, water, terrain
      surface and plant-sustaining, the dimension's default fill block, and
      the library's "highest solid block" query (SolidBlocks heightmap). */
  datatype Env = Env(
    air: set<string>,
    liquids: set<string>,
    water: set<string>,
    surface: set<string>,
    plantSustaining: set<string>,
    defaultBlock: string,
    highestSolid: (map<Coord, Block>, int, int) -> int)

  function Get(m: map<Coord, Block>, c: Coord): Option<Block>
  {
    if c in m then Some(m[c]) else None
  }

  /** `IsAirOrNull`: nothing is stored there, or an air block is. */
  predicate IsAirOrNull(env: Env, m: map<Coord, Block>, c: Coord)
  {
    c !in m || m[c].id in env.air
  }

  /** `IsAirNotNull`: an air block is stored there. */
  predicate IsAirNotNull(env: Env, m: map<Coord, Block>, c: Coord)
  {
    c in m && m[c].id in env.air
  }

  predicate IsDefaultBlock(env: Env, m: map<Coord, Block>, c: Coord)
  {
    c in m && m[c].id == env.defaultBlock
  }

  function Above(c: Coord): Coord { (c.0, c.1 + 1, c.2) }
  function Below(c: Coord): Coord { (c.0, c.1 - 1, c.2) }
  function Left(c: Coord): Coord { (c.0 - 1, c.1, c.2) }
  function Right(c: Coord): Coord { (c.0 + 1, c.1, c.2) }
  function Back(c: Coord): Coord { (c.0, c.1, c.2 - 1) }
  function Forward(c: Coord): Coord { (c.0, c.1, c.2 + 1) }

  /** The two maps hold the same thing at every cell outside `s`. */
  ghost predicate AgreeOutside(m: map<Coord, Block>, m': map<Coord, Block>, s: set<Coord>)
  {
    forall c :: c !in s ==> Get(m, c) == Get(m', c)
  }

  /** Maps that store the same thing everywhere are equal. */
  lemma SameEverywhere(m: map<Coord, Block>, m': map<Coord, Block>)
    requires forall c :: Get(m, c) == Get(m', c)
    ensures m == m'
  {
    forall c | c in m ensures c in m' && m[c] == m'[c] { assert Get(m, c) == Get(m', c); }
    forall c | c in m' ensures c in m { assert Get(m, c) == Get(m', c); }
  }

  /** Writes `b` into the k cells of column (x, z) from `top` downwards;
      nothing else changes. */
  function Paint(m: map<Coord, Block>, x: int, z: int, top: int, k: nat, b: Block): (r: map<Coord, Block>)
    ensures forall c :: Get(r, c) == if c.0 == x && c.2 == z && top - k < c.1 <= top then Some(b) else Get(m, c)
  {
    if k == 0 then m else Paint(m, x, z, top, k - 1, b)[(x, top - (k - 1), z) := b]
  }

  /** A loaded structure template. The library's `Build` is not
      interpreted: given the world, the anchor cell and a random stream
      with its position, it yields the new world, how many draws it took
      and whether it built anything. */
  datatype Schematic = Schematic(build: (map<Coord, Block>, Coord, nat -> Unit, nat) -> (map<Coord, Block>, nat, bool))

  /** The dimension being decorated. Generators change it in place. */
  class Dimension {
    const env: Env
    var blocks: map<Coord, Block>
    var biomes: map<(int, int), string>
    /** Cells marked for a deferred tick update. */
    var ticks: set<Coord>

    constructor (env: Env, blocks: map<Coord, Block>, biomes: map<(int, int), string>)
      ensures this.env == env && this.blocks == blocks && this.biomes == biomes && ticks == {}
    {
      this.env := env;
      this.blocks := blocks;
      this.biomes := biomes;
      ticks := {};
    }

    method SetBlock(c: Coord, b: Block)
      modifies this`blocks
      ensures blocks == old(blocks)[c := b]
    {
      blocks := blocks[c := b];
    }

    method SetBiome(x: int, z: int, b: string)
      modifies this`biomes
      ensures biomes == old(biomes)[(x, z) := b]
    {
      biomes := biomes[(x, z) := b];
    }

    method MarkForTickUpdate(c: Coord)
      modifies this`ticks
      ensures ticks == old(ticks) + {c}
    {
      ticks := ticks + {c};
    }
  }

  /** A game version, compared release by release. */
  datatype Version = Version(major: nat, minor: nat, patch: nat)

  /** `Version.Release_1(minor)`: release 1.minor. */
  function Release1(minor: nat): Version { Version(1, minor, 0) }

  /** The version order: by major, then minor, then patch number. */
  predicate AtLeast(v: Version, w: Version)
  {
    v.major > w.major || (v.major == w.major && (v.minor > w.minor || (v.minor == w.minor && v.patch >= w.patch)))
  }

  /** A draw of `Random.NextDouble`. */
  type Unit = r: real | 0.0 <= r < 1.0

  /** `Random.Next(lo, hi)` on a draw d: lo + (int)(d * (hi - lo)). */
  function NextInt(d: Unit, lo: int, hi: int): (n: int)
    requires lo <= hi
    ensures lo == hi ==> n == lo
    ensures lo < hi ==> lo <= n < hi
  {
    var n := lo + (d * (hi - lo) as real).Floor;
    assert lo < hi ==> (d * (hi - lo) as real) < (hi - lo) as real;
    n
  }

  /** The pseudo-random stream: the draws are an oracle, `count` is how
      many have been taken. */
  class Random {
    const draw: nat -> Unit
    var count: nat

    constructor (draw: nat -> Unit)
      ensures this.draw == draw && count == 0
    {
      this.draw := draw;
      count := 0;
    }

    method NextDouble() returns (r: Unit)
      modifies this`count
      ensures r == draw(old(count)) && count == old(count) + 1
    {
      r := draw(count);
      count := count + 1;
    }

    /** `Next(lo, hi)`: a value in [lo, hi), or lo when lo == hi. */
    method Next(lo: int, hi: int) returns (n: int)
      requires lo <= hi
      modifies this`count
      ensures n == NextInt(draw(old(count)), lo, hi) && count == old(count) + 1
    {
      var d := NextDouble();
      n := NextInt(d, lo, hi);
    }
  }
}
