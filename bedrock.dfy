/** The bedrock floor: each cell of the lowest layers becomes bedrock with a
    probability that falls with height. */
module Bedrock {
  import opened Common
  import opened World
  import PP = PostProcessor

  const OrderPriority: PP.Priority := PP.First
  const Mode: PP.PostProcessType := PP.Block

  /** `flatBedrock`: nothing in the configuration sets it, so it stays false. */
  datatype Config = Config(flat: bool)

  const Default: Config := Config(false)

  const YMin: int := 0

  function YMax(c: Config): (y: int)
    ensures YMin <= y <= 3
    ensures c.flat <==> y == YMin
  {
    if c.flat then 0 else 3
  }

  const BedrockBlock: Block := Named("minecraft:bedrock")

  /** The draw decides against the height: below 1 - y/4. */
  predicate Hits(d: Unit, y: int)
  {
    d < 1.0 - y as real / 4.0
  }

  /** The bedrock rule for one cell and one draw. */
  function BedrockAt(env: Env, m: map<Coord, Block>, pos: Coord, d: Unit): (r: map<Coord, Block>)
    ensures forall c :: c != pos ==> Get(r, c) == Get(m, c)
    ensures IsAirOrNull(env, m, pos) ==> r == m
    ensures !IsAirOrNull(env, m, pos) && pos.1 <= 0 ==> Get(r, pos) == Some(BedrockBlock)
    ensures pos.1 >= 4 ==> r == m
    ensures Get(r, pos) == Get(m, pos) || Get(r, pos) == Some(BedrockBlock)
  {
    if Hits(d, pos.1) && !IsAirOrNull(env, m, pos) then m[pos := BedrockBlock] else m
  }

  /** `OnProcessBlock`: one draw per visited cell, whether or not it is used. */
  method OnProcessBlock(dim: Dimension, rng: Random, pos: Coord)
    modifies dim`blocks, rng`count
    ensures dim.blocks == BedrockAt(dim.env, old(dim.blocks), pos, rng.draw(old(rng.count)))
    ensures rng.count == old(rng.count) + 1
  {
    var d := rng.NextDouble();
    if Hits(d, pos.1) && !IsAirOrNull(dim.env, dim.blocks, pos) {
      dim.SetBlock(pos, BedrockBlock);
    }
  }
}
