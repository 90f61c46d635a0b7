/** The ore post-processor: per splat layer a list of ore generators, run in
    every column whose surface is high enough; without a weightmap one layer
    of the vanilla ores for the target version. */
module OreGen {
  import opened Common
  import opened Xml
  import opened World
  import opened Ores
  import PP = PostProcessor

  const Mode: PP.PostProcessType := PP.Surface

  /** Columns whose surface lies below this height get no ores. */
  const MinSurfaceY: int := 4

  /** The arguments of one five-argument `OreGenerator` construction. */
  datatype OreArgs = OreArgs(block: string, veinSize: int, spawnsPerChunk: real, yMin: int, yMax: int)

  /** The state such a construction produces. */
  function ArgsRule(a: OreArgs): OreRule
  {
    SimpleRule(a.block, a.veinSize, a.spawnsPerChunk, a.yMin, a.yMax)
  }

  /** The six ores every version has, in list order. */
  const BaseVanillaArgs: seq<OreArgs> := [
    OreArgs("iron_ore", 9, 7.5, 2, 64),
    OreArgs("coal_ore", 24, 5.5, 16, 120),
    OreArgs("gold_ore", 9, 1.0, 2, 30),
    OreArgs("diamond_ore", 8, 0.35, 2, 16),
    OreArgs("redstone_ore", 10, 1.2, 4, 16),
    OreArgs("lapis_ore", 9, 0.7, 4, 28)]

  const CopperArgs: OreArgs := OreArgs("copper_ore", 10, 12.5, 0, 72)

  /** `GetVanillaOreGenerators`: from 1.18 and, on the older branch, from
      1.17 on, copper follows the six base ores. */
  function VanillaArgs(v: Version): seq<OreArgs>
  {
    if AtLeast(v, Release1(18)) then BaseVanillaArgs + [CopperArgs]
    else if AtLeast(v, Release1(17)) then BaseVanillaArgs + [CopperArgs]
    else BaseVanillaArgs
  }

  /** The state a vanilla construction is meant to produce: the name in
      the vanilla namespace with its deepslate form, no falloff, and the
      centre in the middle of the band. */
  function VanillaRule(a: OreArgs): OreRule
  {
    OreRule(Named(VanillaPrefix + a.block), Some(Named("minecraft:deepslate_" + a.block)), a.veinSize,
            a.spawnsPerChunk / 256.0, a.yMin, a.yMax, 0.0, (a.yMin + a.yMax) as real / 2.0)
  }

  /** The vanilla states of a list of constructions, in order. */
  function VanillaRulesOf(args: seq<OreArgs>): (rs: seq<OreRule>)
    ensures |rs| == |args| && forall i :: 0 <= i < |args| ==> rs[i] == VanillaRule(args[i])
  {
    if args == [] then [] else [VanillaRule(args[0])] + VanillaRulesOf(args[1..])
  }

  const BaseVanillaRules: seq<OreRule> := VanillaRulesOf(BaseVanillaArgs)

  const CopperRule: OreRule := VanillaRule(CopperArgs)

  /** The states of the vanilla generators. */
  function VanillaRules(v: Version): seq<OreRule>
  {
    VanillaRulesOf(VanillaArgs(v))
  }

  /** Copper is on the list exactly from 1.17 on, after the base ores. */
  lemma VanillaCopper(v: Version)
    ensures VanillaRules(v)[..6] == BaseVanillaRules
    ensures |VanillaRules(v)| == if AtLeast(v, Release1(17)) then 7 else 6
    ensures CopperRule in VanillaRules(v) <==> AtLeast(v, Release1(17))
  {
    var args := VanillaArgs(v);
    assert args[..6] == BaseVanillaArgs;
    assert |args| == if AtLeast(v, Release1(17)) then 7 else 6;
    assert forall i :: 0 <= i < 6 ==> args[i].yMax != 72;
    assert forall i :: 0 <= i < 6 ==> VanillaRules(v)[i].heightMax == args[i].yMax;
    if AtLeast(v, Release1(17)) {
      assert VanillaRules(v)[6] == CopperRule;
    }
  }

  /** A vanilla ore added by its bare name has its deepslate form, and
      neither is a host rock. */
  lemma VanillaOre(s: string, size: int, perChunk: real, yMin: int, yMax: int)
    requires ':' !in s && s in DeepslateOres
    ensures var r := SimpleRule(s, size, perChunk, yMin, yMax);
            r.block == Named(VanillaPrefix + s) &&
            r.deepslateBlockVariant == Some(Named("minecraft:deepslate_" + s)) &&
            r.block.id != StoneId && r.block.id != DeepslateId &&
            r.deepslateBlockVariant.value.id != StoneId && r.deepslateBlockVariant.value.id != DeepslateId
  {
    DeepslateVariantOfVanilla(s);
    var r := SimpleRule(s, size, perChunk, yMin, yMax);
    VariantIsNoHost(r.block);
    assert r.block.id == "minecraft:" + s && |s| >= |"iron_ore"|;
    assert r.block.id != DeepslateId by {
      if |r.block.id| == |DeepslateId| {
        assert s == "lapis_ore";
        assert r.block.id[10] == 'l';
      }
    }
    assert r.block.id != StoneId by {
      assert |r.block.id| >= 18 > |StoneId|;
    }
  }

  /** A non-empty band, no falloff, and a deepslate form; neither form is
      a host rock. */
  predicate VanillaShaped(r: OreRule)
  {
    r.heightMin < r.heightMax && r.heightFalloff == 0.0 && r.deepslateBlockVariant.Some? &&
    r.block.id != StoneId && r.block.id != DeepslateId &&
    r.deepslateBlockVariant.value.id != StoneId && r.deepslateBlockVariant.value.id != DeepslateId
  }

  /** A bare vanilla name with a deepslate form and a non-empty band. */
  predicate VanillaArgsShape(a: OreArgs)
  {
    ':' !in a.block && a.block in DeepslateOres && a.yMin < a.yMax
  }

  /** For a bare vanilla name the constructor produces the intended
      vanilla state, and that state is well formed. */
  lemma VanillaRuleIsSimple(a: OreArgs)
    requires VanillaArgsShape(a)
    ensures ArgsRule(a) == VanillaRule(a)
    ensures VanillaShaped(VanillaRule(a))
  {
    VanillaOre(a.block, a.veinSize, a.spawnsPerChunk, a.yMin, a.yMax);
  }

  /** Every vanilla rule has a non-empty band, no falloff, and a deepslate
      form; so stone only becomes the ore and deepslate only its form. */
  lemma VanillaRulesWellFormed(v: Version, i: nat)
    requires i < |VanillaRules(v)|
    ensures VanillaShaped(VanillaRules(v)[i])
  {
    var a := VanillaArgs(v)[i];
    assert a == (BaseVanillaArgs + [CopperArgs])[i];
    VanillaArgsShaped(i);
    VanillaRuleIsSimple(a);
  }

  /** Each of the seven vanilla constructions names a bare vanilla ore
      with a deepslate form and has a non-empty band. */
  lemma VanillaArgsShaped(i: nat)
    requires i < 7
    ensures VanillaArgsShape((BaseVanillaArgs + [CopperArgs])[i])
  {
    var a := (BaseVanillaArgs + [CopperArgs])[i];
    if i == 0 { assert a == OreArgs("iron_ore", 9, 7.5, 2, 64); }
    else if i == 1 { assert a == OreArgs("coal_ore", 24, 5.5, 16, 120); }
    else if i == 2 { assert a == OreArgs("gold_ore", 9, 1.0, 2, 30); }
    else if i == 3 { assert a == OreArgs("diamond_ore", 8, 0.35, 2, 16); }
    else if i == 4 { assert a == OreArgs("redstone_ore", 10, 1.2, 4, 16); }
    else if i == 5 { assert a == OreArgs("lapis_ore", 9, 0.7, 4, 28); }
    else { assert a == CopperArgs; }
  }

  /** The constructions of a list, one after the other, as new objects. */
  method NewOres(args: seq<OreArgs>) returns (os: seq<OreGenerator>)
    ensures |os| == |args| && forall j :: 0 <= j < |args| ==> os[j].Rule() == ArgsRule(args[j])
    ensures forall o :: o in os ==> fresh(o)
  {
    os := [];
    var i := 0;
    while i < |args|
      invariant 0 <= i <= |args| && |os| == i
      invariant forall o :: o in os ==> fresh(o)
      invariant forall j :: 0 <= j < i ==> os[j].Rule() == ArgsRule(args[j])
    {
      var a := args[i];
      var o := new OreGenerator.Simple(a.block, a.veinSize, a.spawnsPerChunk, a.yMin, a.yMax);
      os := os + [o];
      i := i + 1;
    }
  }

  /** `GetVanillaOreGenerators` as new objects. */
  method VanillaOres(v: Version) returns (os: seq<OreGenerator>)
    ensures Rules(os) == VanillaRules(v)
    ensures forall o :: o in os ==> fresh(o)
  {
    var args := VanillaArgs(v);
    os := NewOres(args);
    forall j | 0 <= j < |os| ensures Rules(os)[j] == VanillaRules(v)[j] {
      assert args[j] == (BaseVanillaArgs + [CopperArgs])[j];
      VanillaArgsShaped(j);
      VanillaRuleIsSimple(args[j]);
    }
  }

  /** The ores of a layer, in order, and its spawn multiplier. */
  datatype LayerConfig = LayerConfig(ores: seq<OreRule>, multiplier: real)

  /** The chance multiplier a layer's ores get in a column: the layer's
      multiplier times the column's mask. */
  function SpawnMul(multiplier: real, mask: real): real { multiplier * mask }

  /** One column of a layer: each ore in turn, on the world and draws the
      previous one left, with the layer's multiplier times the mask. */
  function ColumnAt(rs: seq<OreRule>, m: map<Coord, Block>, draw: nat -> Unit, k: nat, mul: real, x: int, z: int)
    : (map<Coord, Block>, nat)
    decreases |rs|
  {
    if rs == [] then (m, k)
    else
      var g := GenerateAt(rs[0], m, draw, k, mul, x, z);
      ColumnAt(rs[1..], g.0, draw, g.1, mul, x, z)
  }

  /** A column only depends on the ores' settled states, so clamping done
      by earlier columns changes nothing. */
  lemma {:induction false} ColumnAtSettled(rs: seq<OreRule>, rs': seq<OreRule>, m: map<Coord, Block>, draw: nat -> Unit,
                                           k: nat, mul: real, x: int, z: int)
    requires |rs| == |rs'| && forall i :: 0 <= i < |rs| ==> Clamped(rs[i]) == Clamped(rs'[i])
    ensures ColumnAt(rs, m, draw, k, mul, x, z) == ColumnAt(rs', m, draw, k, mul, x, z)
    decreases |rs|
  {
    if rs != [] {
      var g := GenerateAt(rs[0], m, draw, k, mul, x, z);
      assert GenerateAt(rs'[0], m, draw, k, mul, x, z) == g;
      ColumnAtSettled(rs[1..], rs'[1..], g.0, draw, g.1, mul, x, z);
    }
  }

  /** A column changes only stone and deepslate cells, into one of the
      layer's ores or their variants. */
  lemma {:induction false} ColumnAtCell(rs: seq<OreRule>, m: map<Coord, Block>, draw: nat -> Unit, k: nat, mul: real,
                                        x: int, z: int, c: Coord)
    ensures var g := ColumnAt(rs, m, draw, k, mul, x, z);
            Get(g.0, c) != Get(m, c) ==>
              c in m && (m[c].id == StoneId || m[c].id == DeepslateId) &&
              exists i :: 0 <= i < |rs| && (Get(g.0, c) == Some(rs[i].block) || Get(g.0, c) == rs[i].deepslateBlockVariant)
    decreases |rs|
  {
    if rs != [] {
      var g := GenerateAt(rs[0], m, draw, k, mul, x, z);
      GenerateFrame(rs[0], m, draw, k, mul, x, z, c);
      ColumnAtCell(rs[1..], g.0, draw, g.1, mul, x, z, c);
      var h := ColumnAt(rs, m, draw, k, mul, x, z);
      if Get(h.0, c) != Get(m, c) {
        if Get(h.0, c) != Get(g.0, c) {
          var i :| 0 <= i < |rs[1..]| && (Get(h.0, c) == Some(rs[1..][i].block) || Get(h.0, c) == rs[1..][i].deepslateBlockVariant);
          assert rs[1..][i] == rs[i + 1];
          if Get(g.0, c) != Get(m, c) {
            assert m[c].id == StoneId || m[c].id == DeepslateId;
          } else {
            assert c in m && (m[c].id == StoneId || m[c].id == DeepslateId) by {
              assert Get(g.0, c) == Get(m, c);
            }
          }
        } else {
          assert Get(h.0, c) == Some(rs[0].block) || Get(h.0, c) == rs[0].deepslateBlockVariant;
        }
      }
    }
  }

  /** A generator layer: the ores it runs and its multiplier. */
  class OreGenLayer {
    var ores: seq<OreGenerator>
    var multiplier: real

    constructor ()
      ensures ores == [] && multiplier == 1.0
    {
      ores := [];
      multiplier := 1.0;
    }

    ghost function Config(): LayerConfig
      reads this, set o | o in ores
    {
      LayerConfig(Rules(ores), multiplier)
    }

    /** Adds generators after the layer's ores. */
    method Append(os: seq<OreGenerator>)
      modifies this`ores
      ensures ores == old(ores) + os
      ensures Config() == old(Config()).(ores := old(Config()).ores + Rules(os))
    {
      ghost var before, added := Rules(ores), Rules(os);
      ores := ores + os;
      assert Rules(old(ores)) == before && Rules(os) == added;
      RulesConcat(old(ores), os);
    }

    /** `ProcessBlockColumn`: every ore of the layer in list order, each
        with the multiplier times the column's mask. */
    method ProcessBlockColumn(dim: Dimension, rng: Random, x: int, topY: int, z: int, mask: real)
      modifies dim`blocks, rng`count, set o | o in ores
      ensures (dim.blocks, rng.count) == ColumnAt(old(Config()).ores, old(dim.blocks), rng.draw, old(rng.count), SpawnMul(old(Config()).multiplier, mask), x, z)
      ensures forall o :: o in ores ==> Settles(old(o.Rule()), o.Rule())
    {
      ghost var rs := Rules(ores);
      var spawnChanceMul := SpawnMul(multiplier, mask);
      var i := 0;
      while i < |ores|
        invariant 0 <= i <= |ores|
        invariant ColumnAt(rs[i..], dim.blocks, rng.draw, rng.count, spawnChanceMul, x, z) ==
                  ColumnAt(rs, old(dim.blocks), rng.draw, old(rng.count), spawnChanceMul, x, z)
        invariant forall o :: o in ores ==> Settles(old(o.Rule()), o.Rule())
      {
        var ore := ores[i];
        label before:
        assert Clamped(ore.Rule()) == Clamped(rs[i]) by {
          SettlesTrans(rs[i], ore.Rule(), ore.Rule());
        }
        assert rs[i..][0] == rs[i] && rs[i..][1..] == rs[i + 1..];
        ghost var g := GenerateAt(rs[i], dim.blocks, rng.draw, rng.count, spawnChanceMul, x, z);
        assert GenerateAt(ore.Rule(), dim.blocks, rng.draw, rng.count, spawnChanceMul, x, z) == g;
        assert ColumnAt(rs[i..], dim.blocks, rng.draw, rng.count, spawnChanceMul, x, z) ==
               ColumnAt(rs[i + 1..], g.0, rng.draw, g.1, spawnChanceMul, x, z);
        ore.Generate(dim, rng, spawnChanceMul, x, z);
        assert (dim.blocks, rng.count) == g;
        forall o | o in ores ensures Settles(old(o.Rule()), o.Rule()) {
          if o == ore {
            StateAfterSettled(old@before(ore.Rule()), rng.draw, old@before(rng.count), spawnChanceMul);
            SettlesTrans(old(o.Rule()), old@before(o.Rule()), o.Rule());
          }
        }
        i := i + 1;
      }
      assert rs[i..] == [] && rs == old(Config()).ores && spawnChanceMul == SpawnMul(old(Config()).multiplier, mask);
    }
  }

  /** A layer of the configuration: its mask channel key and its state. */
  type LayerState = (int, LayerConfig)

  /** `ProcessSplatmapLayersSurface` with ore layers: in dictionary order,
      every layer whose mask in the column exceeds the threshold runs its
      column. */
  function LayersAt(ls: seq<LayerState>, wm: Option<PP.Weightmap>, mask: real, m: map<Coord, Block>, draw: nat -> Unit,
                    k: nat, x: int, z: int): (map<Coord, Block>, nat)
    decreases |ls|
  {
    if ls == [] then (m, k)
    else
      var g := LayerAt(ls[0], wm, mask, m, draw, k, x, z);
      LayersAt(ls[1..], wm, mask, g.0, draw, g.1, x, z)
  }

  /** One layer of the dispatch: its column when its mask exceeds the
      threshold, nothing otherwise. */
  function LayerAt(l: LayerState, wm: Option<PP.Weightmap>, mask: real, m: map<Coord, Block>, draw: nat -> Unit,
                   k: nat, x: int, z: int): (map<Coord, Block>, nat)
  {
    var lm := PP.LayerMask(l.0, mask, wm, x, z);
    if lm > PP.LayerThreshold then ColumnAt(l.1.ores, m, draw, k, SpawnMul(l.1.multiplier, lm), x, z) else (m, k)
  }

  /** Running the layers is running, in order, exactly the layers
      `ActiveLayers` selects. */
  function RunLayers(ls: seq<LayerState>, idx: seq<nat>, wm: Option<PP.Weightmap>, mask: real, m: map<Coord, Block>,
                     draw: nat -> Unit, k: nat, x: int, z: int): (map<Coord, Block>, nat)
    requires forall a :: 0 <= a < |idx| ==> idx[a] < |ls|
    decreases |idx|
  {
    if idx == [] then (m, k)
    else
      var l := ls[idx[0]];
      var g := ColumnAt(l.1.ores, m, draw, k, SpawnMul(l.1.multiplier, PP.LayerMask(l.0, mask, wm, x, z)), x, z);
      RunLayers(ls, idx[1..], wm, mask, g.0, draw, g.1, x, z)
  }

  lemma {:induction false} LayersAtActive(ls: seq<LayerState>, from: nat, wm: Option<PP.Weightmap>, mask: real,
                                          m: map<Coord, Block>, draw: nat -> Unit, k: nat, x: int, z: int)
    requires from <= |ls|
    ensures LayersAt(ls[from..], wm, mask, m, draw, k, x, z) ==
            RunLayers(ls, PP.ActiveLayers(PP.Keys(ls), from, mask, wm, x, z), wm, mask, m, draw, k, x, z)
    decreases |ls| - from
  {
    var keys := PP.Keys(ls);
    if from < |ls| {
      var lm := PP.LayerMask(ls[from].0, mask, wm, x, z);
      assert keys[from] == ls[from].0;
      assert ls[from..][0] == ls[from] && ls[from..][1..] == ls[from + 1..];
      var g := LayerAt(ls[from], wm, mask, m, draw, k, x, z);
      assert LayersAt(ls[from..], wm, mask, m, draw, k, x, z) == LayersAt(ls[from + 1..], wm, mask, g.0, draw, g.1, x, z);
      LayersAtActive(ls, from + 1, wm, mask, g.0, draw, g.1, x, z);
      var rest := PP.ActiveLayers(keys, from + 1, mask, wm, x, z);
      if lm > PP.LayerThreshold {
        var idx := [from] + rest;
        assert PP.ActiveLayers(keys, from, mask, wm, x, z) == idx;
        assert idx[0] == from && idx[1..] == rest;
        assert RunLayers(ls, idx, wm, mask, m, draw, k, x, z) == RunLayers(ls, rest, wm, mask, g.0, draw, g.1, x, z);
      } else {
        assert PP.ActiveLayers(keys, from, mask, wm, x, z) == rest;
      }
    } else {
      assert ls[from..] == [];
    }
  }

  /** What one child of a layer element does: `gen` adds an ore,
      `default` the vanilla list, `multiplier` sets the multiplier;
      anything else is an error. */
  function LayerStep(c: Element, v: Version, acc: LayerConfig): (r: Result<LayerConfig>)
    ensures r.Err? <==> BadChild(c)
  {
    var name := Lower(c.name);
    if name == "gen" then
      match XmlRule(c)
      case Err(e) => Err(e)
      case Ok(o) => Ok(acc.(ores := acc.ores + [o]))
    else if name == "default" then Ok(acc.(ores := acc.ores + VanillaRules(v)))
    else if name == "multiplier" then
      match ParseReal(c.text)
      case None => Err("FormatException: " + c.text)
      case Some(f) => Ok(acc.(multiplier := f))
    else Err("ArgumentException: Unexpected element name: " + name)
  }

  /** A child the layer rejects: an unknown name, an ore without a block,
      or a multiplier that is not a number. */
  predicate BadChild(c: Element)
  {
    var name := Lower(c.name);
    (name != "gen" && name != "default" && name != "multiplier") ||
    (name == "gen" && XmlRule(c).Err?) ||
    (name == "multiplier" && ParseReal(c.text).None?)
  }

  /** A layer's configuration: its child elements in order. */
  function LayerFold(cs: seq<Element>, v: Version, acc: LayerConfig): Result<LayerConfig>
    decreases |cs|
  {
    if cs == [] then Ok(acc)
    else
      match LayerStep(cs[0], v, acc)
      case Err(e) => Err(e)
      case Ok(a) => LayerFold(cs[1..], v, a)
  }

  /** A layer fails exactly when one of its children is bad. */
  lemma {:induction false} LayerFoldFails(cs: seq<Element>, v: Version, acc: LayerConfig)
    ensures LayerFold(cs, v, acc).Err? <==> exists i :: 0 <= i < |cs| && BadChild(cs[i])
    decreases |cs|
  {
    if cs != [] && !BadChild(cs[0]) {
      LayerFoldFails(cs[1..], v, LayerStep(cs[0], v, acc).value);
      LayerFoldHead(cs, v, acc);
      BadInTail(cs);
    }
  }

  /** A good first child passes its configuration on to the rest. */
  lemma LayerFoldHead(cs: seq<Element>, v: Version, acc: LayerConfig)
    requires cs != [] && !BadChild(cs[0])
    ensures LayerFold(cs, v, acc) == LayerFold(cs[1..], v, LayerStep(cs[0], v, acc).value)
  {
  }

  /** Past a good first child, a bad child is one of the rest. */
  lemma BadInTail(cs: seq<Element>)
    requires cs != [] && !BadChild(cs[0])
    ensures (exists i :: 0 <= i < |cs| && BadChild(cs[i])) <==> (exists i :: 0 <= i < |cs[1..]| && BadChild(cs[1..][i]))
  {
    if exists i :: 0 <= i < |cs| && BadChild(cs[i]) {
      var i :| 0 <= i < |cs| && BadChild(cs[i]);
      assert i > 0 && cs[1..][i - 1] == cs[i];
    }
    if exists i :: 0 <= i < |cs[1..]| && BadChild(cs[1..][i]) {
      var i :| 0 <= i < |cs[1..]| && BadChild(cs[1..][i]);
      assert cs[1..][i] == cs[i + 1];
    }
  }

  /** Where an ore of a layer can come from. */
  predicate OreSource(o: OreRule, cs: seq<Element>, v: Version, acc: LayerConfig)
  {
    o in acc.ores || o in VanillaRules(v) || exists i :: 0 <= i < |cs| && Lower(cs[i].name) == "gen" && XmlRule(cs[i]) == Ok(o)
  }

  /** Each ore of a layer comes from what it started with, from a `gen`
      child or from the vanilla list; without a `multiplier` child the
      multiplier is the starting one. */
  lemma {:induction false} LayerFoldOres(cs: seq<Element>, v: Version, acc: LayerConfig)
    requires LayerFold(cs, v, acc).Ok?
    ensures var r := LayerFold(cs, v, acc).value;
            (forall o :: o in r.ores ==> OreSource(o, cs, v, acc)) &&
            ((forall i :: 0 <= i < |cs| ==> Lower(cs[i].name) != "multiplier") ==> r.multiplier == acc.multiplier)
    decreases |cs|
  {
    if cs != [] {
      var next := LayerStep(cs[0], v, acc).value;
      LayerFoldHead(cs, v, acc);
      LayerFoldOres(cs[1..], v, next);
      var r := LayerFold(cs, v, acc).value;
      forall o | o in r.ores ensures OreSource(o, cs, v, acc) {
        SourceStep(cs, v, acc, o);
      }
      if forall i :: 0 <= i < |cs| ==> Lower(cs[i].name) != "multiplier" {
        forall i | 0 <= i < |cs[1..]| ensures Lower(cs[1..][i].name) != "multiplier" { assert cs[1..][i] == cs[i + 1]; }
      }
    }
  }

  /** A source of an ore for the rest of the children, after a good first
      child, is a source for all of them. */
  lemma SourceStep(cs: seq<Element>, v: Version, acc: LayerConfig, o: OreRule)
    requires cs != [] && !BadChild(cs[0])
    requires OreSource(o, cs[1..], v, LayerStep(cs[0], v, acc).value)
    ensures OreSource(o, cs, v, acc)
  {
    var c := cs[0];
    var next := LayerStep(c, v, acc).value;
    if o in next.ores && o !in acc.ores && o !in VanillaRules(v) {
      assert Lower(c.name) == "gen" && XmlRule(c) == Ok(o);
    } else if o !in next.ores && o !in VanillaRules(v) {
      var i :| 0 <= i < |cs[1..]| && Lower(cs[1..][i].name) == "gen" && XmlRule(cs[1..][i]) == Ok(o);
      assert cs[1..][i] == cs[i + 1];
    }
  }

  function LayerConfigOf(elem: Element, v: Version): Result<LayerConfig>
  {
    LayerFold(elem.children, v, LayerConfig([], 1.0))
  }

  /** The rules of two generator lists one after the other. */
  lemma RulesConcat(a: seq<OreGenerator>, b: seq<OreGenerator>)
    ensures Rules(a + b) == Rules(a) + Rules(b)
  {
    assert forall i :: 0 <= i < |a + b| ==> (a + b)[i] == if i < |a| then a[i] else b[i - |a|];
  }

  /** One child of `CreateLayer`'s loop. */
  method AddChild(layer: OreGenLayer, c: Element, v: Version) returns (r: Result<()>)
    modifies layer
    ensures r.Ok? <==> LayerStep(c, v, old(layer.Config())).Ok?
    ensures r.Ok? ==> layer.Config() == LayerStep(c, v, old(layer.Config())).value
    ensures forall o :: o in layer.ores ==> o in old(layer.ores) || fresh(o)
  {
    var name := Lower(c.name);
    if name == "gen" {
      var g := FromXmlElement(c);
      if g.Err? {
        return Err(g.msg);
      }
      layer.Append([g.value]);
    } else if name == "default" {
      var os := VanillaOres(v);
      layer.Append(os);
    } else if name == "multiplier" {
      var f := ParseReal(c.text);
      if f.None? {
        return Err("FormatException: " + c.text);
      }
      layer.multiplier := f.value;
    } else {
      return Err("ArgumentException: Unexpected element name: " + name);
    }
    r := Ok(());
  }

  /** `CreateLayer`: the children of a layer element, one at a time. */
  method CreateLayer(elem: Element, v: Version) returns (r: Result<OreGenLayer>)
    ensures r.Ok? <==> LayerConfigOf(elem, v).Ok?
    ensures r.Ok? ==> fresh(r.value) && (forall o :: o in r.value.ores ==> fresh(o)) &&
                      r.value.Config() == LayerConfigOf(elem, v).value
  {
    var layer := new OreGenLayer();
    var cs := elem.children;
    var i := 0;
    while i < |cs|
      invariant 0 <= i <= |cs|
      invariant fresh(layer) && forall o :: o in layer.ores ==> fresh(o)
      invariant LayerFold(cs[i..], v, layer.Config()) == LayerConfigOf(elem, v)
    {
      assert cs[i..][0] == cs[i] && cs[i..][1..] == cs[i + 1..];
      var ok := AddChild(layer, cs[i], v);
      if ok.Err? {
        return Err(ok.msg);
      }
      i := i + 1;
    }
    assert cs[i..] == [];
    r := Ok(layer);
  }

  /** A registered layer element's key and configuration. */
  function LayerOf(v: Version): ((int, Element)) -> Result<LayerState>
  {
    (l: (int, Element)) => match LayerConfigOf(l.1, v)
         case Err(e) => Err(e)
         case Ok(c) => Ok((l.0, c))
  }

  /** The layers of a weightmap, each built from its element. */
  function LayerConfigs(ls: seq<(int, Element)>, v: Version): Result<seq<LayerState>>
  {
    MapResults(ls, LayerOf(v), [])
  }

  /** Building fails exactly when some layer element does; otherwise the
      layers are the elements' configurations, one for one, under the same
      keys. */
  lemma LayerConfigsMeaning(ls: seq<(int, Element)>, v: Version)
    ensures LayerConfigs(ls, v).Err? <==> exists i :: 0 <= i < |ls| && LayerConfigOf(ls[i].1, v).Err?
    ensures LayerConfigs(ls, v).Ok? ==>
              |LayerConfigs(ls, v).value| == |ls| &&
              forall i :: 0 <= i < |ls| ==> LayerConfigs(ls, v).value[i] == (ls[i].0, LayerConfigOf(ls[i].1, v).value)
  {
    MapResultsMeaning(ls, LayerOf(v), []);
    assert forall i :: 0 <= i < |ls| ==> (LayerOf(v)(ls[i]).Err? <==> LayerConfigOf(ls[i].1, v).Err?);
  }

  /** The generator's configuration: the parsed `multiplier` child (1 when
      absent), the weightmap, and the layers; without a weightmap, one
      layer under the "none" key with the vanilla ores of the version. */
  function Config(xml: Element, rootPath: Option<string>, images: map<string, PP.Image>, v: Version, offX: int, offZ: int)
    : (r: Result<(real, Option<PP.Weightmap>, seq<LayerState>)>)
    ensures r.Ok? && Child(xml, "weightmap").None? ==> r.value.1.None? && r.value.2 == [(-1, LayerConfig(VanillaRules(v), 1.0))]
    ensures r.Ok? ==> Ok(r.value.0) == ParseFloatOr(xml, "multiplier", 1.0)
  {
    match ParseFloatOr(xml, "multiplier", 1.0)
    case Err(e) => Err(e)
    case Ok(rarity) =>
      match PP.WeightmapLayers(rootPath, xml, offX, offZ, images)
      case Err(e) => Err(e)
      case Ok(wl) =>
        match LayersConfig(wl, v)
        case Err(e) => Err(e)
        case Ok(p) => Ok((rarity, p.0, p.1))
  }

  /** The weightmap and the layers: without a weightmap, one layer under
      the "none" key with the vanilla ores of the version; otherwise the
      registered layer elements' configurations. */
  function LayersConfig(wl: Option<(PP.Weightmap, seq<(int, Element)>)>, v: Version)
    : Result<(Option<PP.Weightmap>, seq<LayerState>)>
  {
    match wl
    case None => Ok((None, [(-1, LayerConfig(VanillaRules(v), 1.0))]))
    case Some(p) =>
      match LayerConfigs(p.1, v)
      case Err(e) => Err(e)
      case Ok(ls) => Ok((Some(p.0), ls))
  }

  /** The layer objects of a layer list. */
  ghost function LayerObjects(ls: seq<(int, OreGenLayer)>): set<OreGenLayer>
  {
    set i | 0 <= i < |ls| :: ls[i].1
  }

  /** Every ore generator of a layer list. */
  ghost function OresOf(ls: seq<(int, OreGenLayer)>): set<OreGenerator>
    reads LayerObjects(ls)
  {
    set i, o | 0 <= i < |ls| && o in ls[i].1.ores :: o
  }

  ghost function StatesOf(ls: seq<(int, OreGenLayer)>): (r: seq<LayerState>)
    reads LayerObjects(ls), OresOf(ls)
    ensures |r| == |ls| && forall i :: 0 <= i < |ls| ==> r[i] == (ls[i].0, ls[i].1.Config())
  {
    if ls == [] then []
    else
      assert LayerObjects(ls[1..]) <= LayerObjects(ls) by {
        forall l | l in LayerObjects(ls[1..]) ensures l in LayerObjects(ls) {
          var i :| 0 <= i < |ls[1..]| && ls[1..][i].1 == l;
          assert ls[i + 1].1 == l;
        }
      }
      assert OresOf(ls[1..]) <= OresOf(ls) by {
        forall o | o in OresOf(ls[1..]) ensures o in OresOf(ls) {
          var i :| 0 <= i < |ls[1..]| && o in ls[1..][i].1.ores;
          assert o in ls[i + 1].1.ores;
        }
      }
      assert forall o | o in ls[0].1.ores :: o in OresOf(ls);
      [(ls[0].0, ls[0].1.Config())] + StatesOf(ls[1..])
  }

  lemma InOresOf(ls: seq<(int, OreGenLayer)>, i: nat, j: nat)
    requires i < |ls| && j < |ls[i].1.ores|
    ensures ls[i].1.ores[j] in OresOf(ls)
  {
    var o := ls[i].1.ores[j];
    assert o in ls[i].1.ores;
  }

  /** One layer's column, on ores that have settled from their states
      in `orig`: the same as running those states, and the ores stay
      settled. */
  method RunLayer(layer: OreGenLayer, dim: Dimension, rng: Random, x: int, topY: int, z: int, lm: real,
                  ghost st: LayerConfig, ghost all: set<OreGenerator>, ghost orig: map<OreGenerator, OreRule>)
    requires forall o :: o in all ==> o in orig && Settles(orig[o], o.Rule())
    requires st.multiplier == layer.multiplier && |st.ores| == |layer.ores|
    requires forall j :: 0 <= j < |layer.ores| ==> layer.ores[j] in all && st.ores[j] == orig[layer.ores[j]]
    modifies dim`blocks, rng`count, set o | o in layer.ores
    ensures (dim.blocks, rng.count) == ColumnAt(st.ores, old(dim.blocks), rng.draw, old(rng.count), SpawnMul(st.multiplier, lm), x, z)
    ensures forall o :: o in all ==> Settles(orig[o], o.Rule())
  {
    forall j | 0 <= j < |layer.ores| ensures Clamped(Rules(layer.ores)[j]) == Clamped(st.ores[j]) {
      var o := layer.ores[j];
      SettlesTrans(orig[o], o.Rule(), o.Rule());
    }
    ColumnAtSettled(Rules(layer.ores), st.ores, dim.blocks, rng.draw, rng.count, SpawnMul(st.multiplier, lm), x, z);
    layer.ProcessBlockColumn(dim, rng, x, topY, z, lm);
    forall o | o in all ensures Settles(orig[o], o.Rule()) {
      if o in layer.ores {
        SettlesTrans(orig[o], old(o.Rule()), o.Rule());
      }
    }
  }

  class OreGenPostProcessor {
    /** The layer dictionary, in insertion order. */
    const layers: seq<(int, OreGenLayer)>
    const weightmap: Option<PP.Weightmap>
    /** Parsed from the `multiplier` child but not used by generation. */
    const rarityMul: real

    constructor (layers: seq<(int, OreGenLayer)>, weightmap: Option<PP.Weightmap>, rarityMul: real)
      ensures this.layers == layers && this.weightmap == weightmap && this.rarityMul == rarityMul
    {
      this.layers := layers;
      this.weightmap := weightmap;
      this.rarityMul := rarityMul;
    }

    /** One turn of the dispatch loop, run on the layer's settled ores. */
    method ProcessLayer(i: nat, dim: Dimension, rng: Random, x: int, y: int, z: int, mask: real,
                        ghost st: LayerState, ghost all: set<OreGenerator>, ghost orig: map<OreGenerator, OreRule>)
      requires i < |layers| && st.0 == layers[i].0
      requires forall o :: o in all ==> o in orig && Settles(orig[o], o.Rule())
      requires st.1.multiplier == layers[i].1.multiplier && |st.1.ores| == |layers[i].1.ores|
      requires forall j :: 0 <= j < |layers[i].1.ores| ==> layers[i].1.ores[j] in all && st.1.ores[j] == orig[layers[i].1.ores[j]]
      modifies dim`blocks, rng`count, set o | o in layers[i].1.ores
      ensures (dim.blocks, rng.count) == LayerAt(st, weightmap, mask, old(dim.blocks), rng.draw, old(rng.count), x, z)
      ensures forall o :: o in all ==> Settles(orig[o], o.Rule())
    {
      var layerMask := PP.LayerMask(layers[i].0, mask, weightmap, x, z);
      if layerMask > PP.LayerThreshold {
        RunLayer(layers[i].1, dim, rng, x, y, z, layerMask, st.1, all, orig);
      }
    }

    /** `OnProcessSurface`: nothing below height 4; otherwise every layer
        whose mask passes the threshold runs its ores in the column. */
    method OnProcessSurface(dim: Dimension, rng: Random, pos: Coord, mask: real)
      modifies dim`blocks, rng`count, OresOf(layers)
      ensures pos.1 < MinSurfaceY ==> dim.blocks == old(dim.blocks) && rng.count == old(rng.count)
      ensures pos.1 >= MinSurfaceY ==>
                (dim.blocks, rng.count) ==
                LayersAt(old(StatesOf(layers)), weightmap, mask, old(dim.blocks), rng.draw, old(rng.count), pos.0, pos.2)
      ensures forall o :: o in old(OresOf(layers)) ==> Settles(old(o.Rule()), o.Rule())
    {
      if pos.1 < MinSurfaceY {
        return;
      }
      var x, z := pos.0, pos.2;
      ghost var ss := StatesOf(layers);
      ghost var all := OresOf(layers);
      ghost var orig := map o | o in all :: o.Rule();
      forall i, j | 0 <= i < |layers| && 0 <= j < |layers[i].1.ores|
        ensures layers[i].1.ores[j] in all && ss[i].1.ores[j] == orig[layers[i].1.ores[j]]
      {
        InOresOf(layers, i, j);
      }
      DispatchLayers(dim, rng, x, pos.1, z, mask, ss, all, orig);
    }

    /** The dispatch loop over the layers, in order, on ores that have
        settled from their states in `orig`. */
    method DispatchLayers(dim: Dimension, rng: Random, x: int, y: int, z: int, mask: real,
                          ghost ss: seq<LayerState>, ghost all: set<OreGenerator>, ghost orig: map<OreGenerator, OreRule>)
      requires |ss| == |layers|
      requires forall i :: 0 <= i < |layers| ==>
                 ss[i].0 == layers[i].0 && ss[i].1.multiplier == layers[i].1.multiplier && |ss[i].1.ores| == |layers[i].1.ores|
      requires forall o :: o in all ==> o in orig && Settles(orig[o], o.Rule())
      requires forall i, j :: 0 <= i < |layers| && 0 <= j < |layers[i].1.ores| ==>
                 layers[i].1.ores[j] in all && ss[i].1.ores[j] == orig[layers[i].1.ores[j]]
      modifies dim`blocks, rng`count, all
      ensures (dim.blocks, rng.count) == LayersAt(ss, weightmap, mask, old(dim.blocks), rng.draw, old(rng.count), x, z)
      ensures forall o :: o in all ==> Settles(orig[o], o.Rule())
    {
      var i := 0;
      while i < |layers|
        invariant 0 <= i <= |layers|
        invariant LayersAt(ss[i..], weightmap, mask, dim.blocks, rng.draw, rng.count, x, z) ==
                  LayersAt(ss, weightmap, mask, old(dim.blocks), rng.draw, old(rng.count), x, z)
        invariant forall o :: o in all ==> Settles(orig[o], o.Rule())
      {
        assert ss[i..][0] == ss[i] && ss[i..][1..] == ss[i + 1..];
        ghost var g := LayerAt(ss[i], weightmap, mask, dim.blocks, rng.draw, rng.count, x, z);
        ProcessLayer(i, dim, rng, x, y, z, mask, ss[i], all, orig);
        assert (dim.blocks, rng.count) == g;
        i := i + 1;
      }
    }
  }

  /** The layer used without a weightmap: the vanilla ores of the
      version at multiplier 1. */
  method DefaultLayer(v: Version) returns (gen: OreGenLayer)
    ensures fresh(gen) && (forall o :: o in gen.ores ==> fresh(o))
    ensures gen.Config() == LayerConfig(VanillaRules(v), 1.0)
  {
    gen := new OreGenLayer();
    var os := VanillaOres(v);
    gen.Append(os);
  }

  /** `CreateLayer` on every registered layer element, in order. */
  method BuildLayers(ls: seq<(int, Element)>, v: Version) returns (r: Result<seq<(int, OreGenLayer)>>)
    ensures r.Ok? <==> LayerConfigs(ls, v).Ok?
    ensures r.Ok? ==> (forall l :: l in LayerObjects(r.value) ==> fresh(l)) && StatesOf(r.value) == LayerConfigs(ls, v).value
  {
    var built: seq<(int, OreGenLayer)> := [];
    ghost var states: seq<LayerState> := [];
    var i := 0;
    while i < |ls|
      invariant 0 <= i <= |ls|
      invariant forall l :: l in LayerObjects(built) ==> fresh(l)
      invariant states == StatesOf(built)
      invariant MapResults(ls[i..], LayerOf(v), states) == LayerConfigs(ls, v)
    {
      assert ls[i..][0] == ls[i] && ls[i..][1..] == ls[i + 1..];
      var layer := AddLayer(built, ls[i], v);
      if layer.Err? {
        return Err(layer.msg);
      }
      states := states + [LayerOf(v)(ls[i]).value];
      built := built + [(ls[i].0, layer.value)];
      i := i + 1;
    }
    assert ls[i..] == [];
    r := Ok(built);
  }

  /** One registered layer element of `BuildLayers`: `CreateLayer`, to
      go after the layers built so far, whose states it leaves alone. */
  method AddLayer(built: seq<(int, OreGenLayer)>, l: (int, Element), v: Version) returns (r: Result<OreGenLayer>)
    ensures r.Ok? <==> LayerOf(v)(l).Ok?
    ensures r.Ok? ==> fresh(r.value) && LayerObjects(built + [(l.0, r.value)]) == LayerObjects(built) + {r.value} &&
                      StatesOf(built + [(l.0, r.value)]) == old(StatesOf(built)) + [LayerOf(v)(l).value]
  {
    ghost var ss := StatesOf(built);
    r := CreateLayer(l.1, v);
    assert StatesOf(built) == ss;
    if r.Ok? {
      StatesOfSnoc(built, l.0, r.value);
    }
  }

  /** The states of a layer list grown by one layer. */
  lemma StatesOfSnoc(ls: seq<(int, OreGenLayer)>, k: int, l: OreGenLayer)
    ensures LayerObjects(ls + [(k, l)]) == LayerObjects(ls) + {l}
    ensures StatesOf(ls + [(k, l)]) == StatesOf(ls) + [(k, l.Config())]
  {
    var ls' := ls + [(k, l)];
    forall o | o in LayerObjects(ls') ensures o in LayerObjects(ls) + {l} {
      var i :| 0 <= i < |ls'| && ls'[i].1 == o;
      if i < |ls| { assert ls[i].1 == o; }
    }
    forall o | o in LayerObjects(ls) ensures o in LayerObjects(ls') {
      var i :| 0 <= i < |ls| && ls[i].1 == o;
      assert ls'[i].1 == o;
    }
    assert ls'[|ls|].1 == l;
  }

  /** The ore post-processor's constructor: the rarity multiplier, then
      the weightmap and its layers, each built by `CreateLayer`; without a
      weightmap, one vanilla layer. */
  method Create(xml: Element, rootPath: Option<string>, images: map<string, PP.Image>, v: Version, offX: int, offZ: int)
    returns (r: Result<OreGenPostProcessor>)
    ensures r.Ok? <==> Config(xml, rootPath, images, v, offX, offZ).Ok?
    ensures r.Ok? ==> var c := Config(xml, rootPath, images, v, offX, offZ).value;
                      fresh(r.value) && r.value.rarityMul == c.0 && r.value.weightmap == c.1 &&
                      StatesOf(r.value.layers) == c.2
  {
    var rarity := ParseFloatOr(xml, "multiplier", 1.0);
    if rarity.Err? {
      return Err(rarity.msg);
    }
    var wl := PP.LoadWeightmapAndLayers(rootPath, xml, offX, offZ, images);
    if wl.Err? {
      return Err(wl.msg);
    }
    var ls := Layers(wl.value, v);
    if ls.Err? {
      return Err(ls.msg);
    }
    var p := new OreGenPostProcessor(ls.value.1, ls.value.0, rarity.value);
    r := Ok(p);
  }

  /** The weightmap and the layer objects of the constructor. */
  method Layers(wl: Option<(PP.Weightmap, seq<(int, Element)>)>, v: Version)
    returns (r: Result<(Option<PP.Weightmap>, seq<(int, OreGenLayer)>)>)
    ensures r.Ok? <==> LayersConfig(wl, v).Ok?
    ensures r.Ok? ==> r.value.0 == LayersConfig(wl, v).value.0 && StatesOf(r.value.1) == LayersConfig(wl, v).value.1
  {
    if wl.None? {
      var gen := DefaultLayer(v);
      return Ok((None, [(-1, gen)]));
    }
    var built := BuildLayers(wl.value.1, v);
    if built.Err? {
      return Err(built.msg);
    }
    r := Ok((Some(wl.value.0), built.value));
  }
}
