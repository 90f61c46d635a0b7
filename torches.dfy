/** Random torches on the surface. */
module Torches {
  import opened Common
  import opened Xml
  import opened World
  import PP = PostProcessor

  const OrderPriority: PP.Priority := PP.AfterDefault
  const Mode: PP.PostProcessType := PP.Surface

  datatype Config = Config(chance: real)

  /** The chance is the `amount` element, "0.02" when it is missing; text
      that does not parse is an error. */
  function Create(xml: Element): (r: Result<Config>)
    ensures ChildText(xml, "amount").None? ==> r == Ok(Config(0.02))
    ensures ChildText(xml, "amount").Some? ==>
              (r.Ok? <==> ParseReal(ChildText(xml, "amount").value).Some?)
  {
    match ParseFloatOr(xml, "amount", 0.02)
    case Ok(v) => Ok(Config(v))
    case Err(e) => Err(e)
  }

  const Torch: Block := Named("minecraft:torch")

  /** A torch goes on the cell above the surface exactly when the draw is
      within the chance and that cell is empty; nothing else changes. */
  function TorchAt(env: Env, m: map<Coord, Block>, pos: Coord, d: Unit, chance: real): (r: map<Coord, Block>)
    ensures forall c :: c != Above(pos) ==> Get(r, c) == Get(m, c)
    ensures d <= chance && IsAirOrNull(env, m, Above(pos)) ==> Get(r, Above(pos)) == Some(Torch)
    ensures !(d <= chance && IsAirOrNull(env, m, Above(pos))) ==> r == m
  {
    if d <= chance && IsAirOrNull(env, m, Above(pos)) then m[Above(pos) := Torch] else m
  }

  /** Placing torches twice with the same draw is placing them once, when
      a torch is not air. */
  lemma TorchIdempotent(env: Env, m: map<Coord, Block>, pos: Coord, d: Unit, chance: real)
    requires Torch.id !in env.air
    ensures TorchAt(env, TorchAt(env, m, pos, d, chance), pos, d, chance) == TorchAt(env, m, pos, d, chance)
  {
  }

  method OnProcessSurface(dim: Dimension, rng: Random, cfg: Config, pos: Coord)
    modifies dim`blocks, rng`count
    ensures dim.blocks == TorchAt(dim.env, old(dim.blocks), pos, rng.draw(old(rng.count)), cfg.chance)
    ensures rng.count == old(rng.count) + 1
  {
    var d := rng.NextDouble();
    if d <= cfg.chance && IsAirOrNull(dim.env, dim.blocks, Above(pos)) {
      dim.SetBlock(Above(pos), Torch);
    }
  }
}
