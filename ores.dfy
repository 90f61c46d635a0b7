/** One ore rule: how often a column tries a vein, in which height band,
    how large the vein is, and which host rock it replaces. */
module Ores {
  import opened Common
  import opened Xml
  import opened World

  const StoneId: string := "minecraft:stone"
  const DeepslateId: string := "minecraft:deepslate"
  const VanillaPrefix: string := "minecraft:"

  /** The vanilla ores that have a deepslate form. */
  const DeepslateOres: set<string> :=
    {"coal_ore", "iron_ore", "gold_ore", "copper_ore", "diamond_ore", "lapis_ore", "redstone_ore", "emerald_ore"}

  /** `TryGetDeepslateVariant`: a vanilla ore with a deepslate form maps to
      that form; anything else has none. */
  function DeepslateVariant(b: Block): Option<Block>
  {
    if |b.id| >= |VanillaPrefix| && b.id[..|VanillaPrefix|] == VanillaPrefix && b.id[|VanillaPrefix|..] in DeepslateOres
    then Some(Named("minecraft:deepslate_" + b.id[|VanillaPrefix|..]))
    else None
  }

  /** Exactly the eight listed vanilla ores have a variant, named by
      prefixing "deepslate_". */
  lemma DeepslateVariantOfVanilla(s: string)
    ensures DeepslateVariant(Named(VanillaPrefix + s)) ==
            if s in DeepslateOres then Some(Named("minecraft:deepslate_" + s)) else None
  {
    var id := VanillaPrefix + s;
    assert id[..|VanillaPrefix|] == VanillaPrefix && id[|VanillaPrefix|..] == s;
  }

  /** A block outside the vanilla namespace has no variant. */
  lemma NoVariantOutsideVanilla(b: Block)
    requires !(|b.id| >= |VanillaPrefix| && b.id[..|VanillaPrefix|] == VanillaPrefix)
    ensures DeepslateVariant(b).None?
  {
  }

  /** A variant is never one of the two host rocks. */
  lemma VariantIsNoHost(b: Block)
    ensures DeepslateVariant(b).Some? ==>
              DeepslateVariant(b).value.id != StoneId && DeepslateVariant(b).value.id != DeepslateId
  {
    if DeepslateVariant(b).Some? {
      var id := DeepslateVariant(b).value.id;
      assert id == "minecraft:deepslate_" + b.id[|VanillaPrefix|..];
      assert id[10] == 'd' && StoneId[10] == 's';
      assert |id| > |DeepslateId|;
    }
  }

  /** The state of an `OreGenerator`: its fields as values. */
  datatype OreRule = OreRule(
    block: Block,
    deepslateBlockVariant: Option<Block>,
    veinSizeMax: int,
    spawnsPerColumn: real,
    heightMin: int,
    heightMax: int,
    heightFalloff: real,
    heightFalloffCenter: real)

  /** The full constructor: spawns per chunk are stored per column (a
      chunk has 256 columns); the variant is derived from the block. */
  function NewRule(block: string, veinSize: int, spawnsPerChunk: real, yMin: int, yMax: int, falloff: real, falloffCenter: real)
    : (r: OreRule)
    ensures r.spawnsPerColumn * 256.0 == spawnsPerChunk
    ensures r.block == Named(Resolve(block)) && r.deepslateBlockVariant == DeepslateVariant(r.block)
    ensures r.veinSizeMax == veinSize && r.heightMin == yMin && r.heightMax == yMax
    ensures r.heightFalloff == falloff && r.heightFalloffCenter == falloffCenter
  {
    var b := Named(Resolve(block));
    OreRule(b, DeepslateVariant(b), veinSize, spawnsPerChunk / 256.0, yMin, yMax, falloff, falloffCenter)
  }

  /** The five-argument constructor: no falloff, centred in the band. */
  function SimpleRule(block: string, veinSize: int, spawnsPerChunk: real, yMin: int, yMax: int): (r: OreRule)
    ensures r == NewRule(block, veinSize, spawnsPerChunk, yMin, yMax, 0.0, (yMin + yMax) as real / 2.0)
    ensures r.heightFalloff == 0.0
  {
    NewRule(block, veinSize, spawnsPerChunk, yMin, yMax, 0.0, (yMin + yMax) as real / 2.0)
  }

  /** The configuration constructor: the `block` child is required; size,
      rarity (per chunk), y-min, y-max, falloff and center are optional
      children over the field defaults 10, 4, 1, 32, 0 and 16. No deepslate
      variant is set. */
  function XmlRule(elem: Element): (r: Result<OreRule>)
    ensures r.Err? <==> ChildText(elem, "block").None?
    ensures r.Ok? ==>
              r.value.block == Named(Resolve(ChildText(elem, "block").value)) &&
              r.value.deepslateBlockVariant.None? &&
              r.value.veinSizeMax == TryParseInt(elem, "size", 10) &&
              r.value.spawnsPerColumn * 256.0 == TryParseFloat(elem, "rarity", 4.0) &&
              r.value.heightMin == TryParseInt(elem, "y-min", 1) && r.value.heightMax == TryParseInt(elem, "y-max", 32) &&
              r.value.heightFalloff == TryParseFloat(elem, "falloff", 0.0) &&
              r.value.heightFalloffCenter == TryParseFloat(elem, "center", 16.0)
  {
    match ChildText(elem, "block")
    case None => Err("NullReferenceException: ore without block")
    case Some(b) =>
      Ok(OreRule(Named(Resolve(b)), None, TryParseInt(elem, "size", 10), TryParseFloat(elem, "rarity", 4.0) / 256.0,
                 TryParseInt(elem, "y-min", 1), TryParseInt(elem, "y-max", 32),
                 TryParseFloat(elem, "falloff", 0.0), TryParseFloat(elem, "center", 16.0)))
  }

  /** The falloff centre moved into the open height band. */
  function ClampCenter(r: OreRule): real
  {
    MaxR(r.heightMin as real + 0.01, MinR(r.heightFalloffCenter, r.heightMax as real - 0.01))
  }

  /** The state with its centre clamped, as `GetChanceAtY` leaves it. */
  function Clamped(r: OreRule): OreRule
  {
    r.(heightFalloffCenter := ClampCenter(r))
  }

  /** Clamping twice is clamping once, and within a non-empty band the
      clamped centre lies at least 0.01 inside it. */
  lemma ClampIdempotent(r: OreRule)
    ensures Clamped(Clamped(r)) == Clamped(r)
    ensures r.heightMin < r.heightMax ==> r.heightMin as real + 0.01 <= ClampCenter(r) <= r.heightMax as real - 0.01
  {
    assert ClampCenter(Clamped(r)) == ClampCenter(r);
  }

  /** `GetChanceAtY`: 1 without falloff; otherwise 1 at the centre,
      falling linearly to 1 - falloff at the band's ends. */
  function ChanceAtY(r: OreRule, y: int): real
    requires r.heightMin < r.heightMax
  {
    if r.heightFalloff <= 0.0 then 1.0
    else
      var c := ClampCenter(r);
      var lo := r.heightMin as real - c;
      var hi := r.heightMax as real - c;
      var down := 1.0 - (y as real - c) / lo;
      var up := 1.0 - (y as real - c) / hi;
      var l := MaxR(0.0, MinR(down, up));
      Lerp(1.0, l, r.heightFalloff)
  }

  lemma QuotientInUnit(a: real, d: real)
    requires d < 0.0 && d <= a <= 0.0
    ensures 0.0 <= a / d <= 1.0
  {
    var q := a / d;
    assert q * d == a;
  }

  lemma QuotientNonPositive(a: real, d: real)
    requires d != 0.0 && ((d < 0.0 && a >= 0.0) || (d > 0.0 && a <= 0.0))
    ensures a / d <= 0.0
  {
    var q := a / d;
    assert q * d == a;
  }

  lemma QuotientInUnitPos(a: real, d: real)
    requires d > 0.0 && 0.0 <= a <= d
    ensures 0.0 <= a / d <= 1.0
  {
    var q := a / d;
    assert q * d == a;
  }

  /** Within the band and for a falloff in [0, 1] the chance lies in
      [1 - falloff, 1]. */
  lemma ChanceAtYBounds(r: OreRule, y: int)
    requires r.heightMin < r.heightMax && r.heightMin <= y <= r.heightMax && r.heightFalloff <= 1.0
    ensures r.heightFalloff > 0.0 ==> 1.0 - r.heightFalloff <= ChanceAtY(r, y) <= 1.0
    ensures r.heightFalloff <= 0.0 ==> ChanceAtY(r, y) == 1.0
  {
    if r.heightFalloff > 0.0 {
      var c := ClampCenter(r);
      var lo := r.heightMin as real - c;
      var hi := r.heightMax as real - c;
      var a := y as real - c;
      assert lo < 0.0 < hi;
      if a <= 0.0 {
        QuotientInUnit(a, lo);
        QuotientNonPositive(a, hi);
      } else {
        QuotientNonPositive(a, lo);
        QuotientInUnitPos(a, hi);
      }
      var down := 1.0 - a / lo;
      var up := 1.0 - a / hi;
      LerpFromOne(MaxR(0.0, MinR(down, up)), r.heightFalloff);
    }
  }

  /** Moving from 1 towards a value in [0, 1] by a fraction f in (0, 1]
      stays within [1 - f, 1]. */
  lemma LerpFromOne(l: real, f: real)
    requires 0.0 <= l <= 1.0 && 0.0 < f <= 1.0
    ensures 1.0 - f <= Lerp(1.0, l, f) <= 1.0
  {
    var d := 1.0 - l;
    assert Lerp(1.0, l, f) == 1.0 - d * f;
    assert d * f >= 0.0;
    assert l * f >= 0.0;
    assert f - d * f == l * f;
  }

  /** At the (clamped) centre the chance is 1. */
  lemma ChanceAtCenter(r: OreRule, y: int)
    requires r.heightMin < r.heightMax && y as real == ClampCenter(r)
    ensures ChanceAtY(r, y) == 1.0
  {
    if r.heightFalloff > 0.0 {
      var c := ClampCenter(r);
      assert y as real - c == 0.0;
      assert (y as real - c) / (r.heightMin as real - c) == 0.0;
      assert (y as real - c) / (r.heightMax as real - c) == 0.0;
    }
  }

  /** The clamping the method performs does not change the chance. */
  lemma ChanceAtYClamped(r: OreRule, y: int)
    requires r.heightMin < r.heightMax
    ensures ChanceAtY(Clamped(r), y) == ChanceAtY(r, y)
  {
    ClampIdempotent(r);
  }

  /** The source's span, floor((veinSizeMax - 1) / 16) + 1. */
  function SpanOf(veinSizeMax: int): int
  {
    ((veinSizeMax - 1) as real / 16.0).Floor + 1
  }

  /** How far from the vein's origin a cell may lie on each axis (0 when
      there are no attempts). */
  function VeinSpan(r: OreRule): nat
  {
    if r.veinSizeMax >= 1 then (r.veinSizeMax - 1) / 16 + 1 else 0
  }

  /** With at least one attempt the span is the source's formula, and at
      least 1. */
  lemma VeinSpanIsFloor(r: OreRule)
    requires r.veinSizeMax >= 1
    ensures VeinSpan(r) == SpanOf(r.veinSizeMax) >= 1
  {
    var v := r.veinSizeMax;
    var q := (v - 1) / 16;
    assert (v - 1) as real / 16.0 == q as real + ((v - 1) % 16) as real / 16.0;
  }

  /** The number of vein attempts. */
  function Attempts(r: OreRule): nat
  {
    if r.veinSizeMax > 0 then r.veinSizeMax else 0
  }

  /** One vein cell: stone becomes the ore, deepslate its variant when there
      is one; anything else stays. */
  function Replace(ore: Block, variant: Option<Block>, m: map<Coord, Block>, c: Coord): map<Coord, Block>
  {
    if c in m && m[c].id == StoneId then m[c := ore]
    else if variant.Some? && c in m && m[c].id == DeepslateId then m[c := variant.value]
    else m
  }

  /** The cell an attempt picks from the three draws at j. */
  function VeinCell(s: nat, x: int, y: int, z: int, draw: nat -> Unit, j: nat): (c: Coord)
    ensures x - s <= c.0 <= x + s && y - s <= c.1 <= y + s && z - s <= c.2 <= z + s
  {
    var lo: int := -(s as int);
    (x + NextInt(draw(j), lo, s + 1), y + NextInt(draw(j + 1), lo, s + 1), z + NextInt(draw(j + 2), lo, s + 1))
  }

  /** The first n vein attempts around (x, y, z), each reading three
      draws from k on. */
  function VeinUpTo(ore: Block, variant: Option<Block>, s: nat, m: map<Coord, Block>, x: int, y: int, z: int,
                    draw: nat -> Unit, k: nat, n: nat): map<Coord, Block>
  {
    if n == 0 then m
    else Replace(ore, variant, VeinUpTo(ore, variant, s, m, x, y, z, draw, k, n - 1), VeinCell(s, x, y, z, draw, k + 3 * (n - 1)))
  }

  /** One more attempt replaces the cell its three draws pick. */
  lemma VeinUpToStep(ore: Block, variant: Option<Block>, s: nat, m: map<Coord, Block>, x: int, y: int, z: int,
                     draw: nat -> Unit, k: nat, n: nat)
    ensures VeinUpTo(ore, variant, s, m, x, y, z, draw, k, n + 1) ==
            Replace(ore, variant, VeinUpTo(ore, variant, s, m, x, y, z, draw, k, n), VeinCell(s, x, y, z, draw, k + 3 * n))
  {
  }

  /** The host rule cell by cell: a cell changes only if it held stone or
      deepslate and lies within the span of the vein's origin, and then
      holds the ore or its variant. */
  lemma {:induction false} VeinUpToCell(ore: Block, variant: Option<Block>, s: nat, m: map<Coord, Block>,
                                        x: int, y: int, z: int, draw: nat -> Unit, k: nat, n: nat, c: Coord)
    ensures var v := VeinUpTo(ore, variant, s, m, x, y, z, draw, k, n);
            Get(v, c) != Get(m, c) ==>
              c in m && (m[c].id == StoneId || m[c].id == DeepslateId) &&
              x - s <= c.0 <= x + s && y - s <= c.1 <= y + s && z - s <= c.2 <= z + s &&
              (Get(v, c) == Some(ore) || Get(v, c) == variant)
  {
    if n > 0 {
      VeinUpToCell(ore, variant, s, m, x, y, z, draw, k, n - 1, c);
    }
  }

  /** When neither the ore nor its variant is a host rock, stone only ever
      becomes the ore and deepslate only ever the variant. */
  lemma {:induction false} VeinUpToHost(ore: Block, variant: Option<Block>, s: nat, m: map<Coord, Block>,
                                        x: int, y: int, z: int, draw: nat -> Unit, k: nat, n: nat, c: Coord)
    requires ore.id != StoneId && ore.id != DeepslateId
    requires variant.Some? ==> variant.value.id != StoneId && variant.value.id != DeepslateId
    ensures var v := VeinUpTo(ore, variant, s, m, x, y, z, draw, k, n);
            Get(v, c) != Get(m, c) ==>
              c in m && ((m[c].id == StoneId && Get(v, c) == Some(ore)) ||
                         (m[c].id == DeepslateId && variant.Some? && Get(v, c) == variant))
  {
    if n > 0 {
      VeinUpToHost(ore, variant, s, m, x, y, z, draw, k, n - 1, c);
    }
  }

  /** The vein of a rule once its height was drawn. */
  function VeinOf(r: OreRule, m: map<Coord, Block>, x: int, y: int, z: int, draw: nat -> Unit, k: nat): map<Coord, Block>
  {
    VeinUpTo(r.block, r.deepslateBlockVariant, VeinSpan(r), m, x, y, z, draw, k, Attempts(r))
  }

  /** Whether a call gets past the band check and the column chance (and
      so computes the chance at its height). */
  predicate Spawns(r: OreRule, draw: nat -> Unit, k: nat, mul: real)
  {
    r.heightMin < r.heightMax && draw(k) <= r.spawnsPerColumn * mul
  }

  /** The generator's state after a call: the centre is written back
      clamped when the chance at the height was computed with falloff. */
  function StateAfter(r: OreRule, draw: nat -> Unit, k: nat, mul: real): OreRule
  {
    if Spawns(r, draw, k, mul) && r.heightFalloff > 0.0 then Clamped(r) else r
  }

  /** `Generate` for the column (x, z) with the spawn multiplier `mul`, on
      draws from k: the new world and the next draw. The centre enters only
      through its clamped value, so the call is written over the clamped
      state. */
  function GenerateAt(r: OreRule, m: map<Coord, Block>, draw: nat -> Unit, k: nat, mul: real, x: int, z: int)
    : (map<Coord, Block>, nat)
  {
    Spread(Clamped(r), m, draw, k, mul, x, z)
  }

  function Spread(r: OreRule, m: map<Coord, Block>, draw: nat -> Unit, k: nat, mul: real, x: int, z: int)
    : (map<Coord, Block>, nat)
  {
    if r.heightMin >= r.heightMax then (m, k)
    else if !(draw(k) <= r.spawnsPerColumn * mul) then (m, k + 1)
    else SpawnAt(r, m, draw, k + 1, x, z)
  }

  /** A spawn that passed the column chance: draw the height, then test
      the chance at that height. */
  function SpawnAt(r: OreRule, m: map<Coord, Block>, draw: nat -> Unit, k: nat, x: int, z: int)
    : (map<Coord, Block>, nat)
    requires r.heightMin < r.heightMax
  {
    var y := NextInt(draw(k), r.heightMin, r.heightMax + 1);
    if !(draw(k + 1) <= ChanceAtY(r, y)) then (m, k + 2)
    else (VeinOf(r, m, x, y, z, draw, k + 2), k + 2 + 3 * Attempts(r))
  }

  /** The three ways a call goes, in terms of the state before it. */
  lemma GenerateCases(r: OreRule, m: map<Coord, Block>, draw: nat -> Unit, k: nat, mul: real, x: int, z: int)
    ensures r.heightMin >= r.heightMax ==> GenerateAt(r, m, draw, k, mul, x, z) == (m, k) && StateAfter(r, draw, k, mul) == r
    ensures r.heightMin < r.heightMax && !(draw(k) <= r.spawnsPerColumn * mul) ==>
              GenerateAt(r, m, draw, k, mul, x, z) == (m, k + 1) && StateAfter(r, draw, k, mul) == r
    ensures r.heightMin < r.heightMax && draw(k) <= r.spawnsPerColumn * mul ==>
              GenerateAt(r, m, draw, k, mul, x, z) == SpawnAt(Clamped(r), m, draw, k + 1, x, z) &&
              StateAfter(r, draw, k, mul) == if r.heightFalloff > 0.0 then Clamped(r) else r
  {
  }

  /** The state a call leaves behaves like the state before it: a
      generator's later calls do not depend on its earlier ones. */
  lemma StateAfterSettled(r: OreRule, draw: nat -> Unit, k: nat, mul: real)
    ensures Clamped(StateAfter(r, draw, k, mul)) == Clamped(r)
    ensures StateAfter(r, draw, k, mul) == r || StateAfter(r, draw, k, mul) == Clamped(r)
  {
    ClampIdempotent(r);
  }

  /** What one call may do: with an empty height band nothing at all;
      otherwise only stone or deepslate cells within the span of the
      column and of the band change, to the ore or its variant; at most
      3 + 3 * veinSizeMax draws are read; only the centre of the state
      changes, and only to its clamped value. */
  lemma GenerateFrame(r: OreRule, m: map<Coord, Block>, draw: nat -> Unit, k: nat, mul: real, x: int, z: int, c: Coord)
    ensures r.heightMin >= r.heightMax ==> GenerateAt(r, m, draw, k, mul, x, z) == (m, k) && StateAfter(r, draw, k, mul) == r
    ensures var g := GenerateAt(r, m, draw, k, mul, x, z);
            var s := VeinSpan(r);
            (Get(g.0, c) != Get(m, c) ==>
               c in m && (m[c].id == StoneId || m[c].id == DeepslateId) &&
               x - s <= c.0 <= x + s && r.heightMin - s <= c.1 <= r.heightMax + s && z - s <= c.2 <= z + s &&
               (Get(g.0, c) == Some(r.block) || Get(g.0, c) == r.deepslateBlockVariant)) &&
            k <= g.1 <= k + 3 + 3 * Attempts(r)
  {
    if Spawns(r, draw, k, mul) {
      var y := NextInt(draw(k + 1), r.heightMin, r.heightMax + 1);
      VeinUpToCell(r.block, r.deepslateBlockVariant, VeinSpan(r), m, x, y, z, draw, k + 3, Attempts(r), c);
    }
  }

  class OreGenerator {
    const block: Block
    const deepslateBlockVariant: Option<Block>
    const veinSizeMax: int
    const spawnsPerColumn: real
    const heightMin: int
    const heightMax: int
    const heightFalloff: real
    var heightFalloffCenter: real

    function Rule(): OreRule
      reads this
    {
      OreRule(block, deepslateBlockVariant, veinSizeMax, spawnsPerColumn, heightMin, heightMax, heightFalloff, heightFalloffCenter)
    }

    /** The `SpawnsPerChunk` property. */
    function SpawnsPerChunk(): real
    {
      spawnsPerColumn * 256.0
    }

    constructor (block: string, veinSize: int, spawnsPerChunk: real, yMin: int, yMax: int, falloff: real, falloffCenter: real)
      ensures Rule() == NewRule(block, veinSize, spawnsPerChunk, yMin, yMax, falloff, falloffCenter)
      ensures SpawnsPerChunk() == spawnsPerChunk
    {
      var b := Named(Resolve(block));
      this.block := b;
      veinSizeMax := veinSize;
      spawnsPerColumn := spawnsPerChunk / 256.0;
      heightMin := yMin;
      heightMax := yMax;
      heightFalloff := falloff;
      heightFalloffCenter := falloffCenter;
      deepslateBlockVariant := DeepslateVariant(b);
    }

    constructor Simple(block: string, veinSize: int, spawnsPerChunk: real, yMin: int, yMax: int)
      ensures Rule() == SimpleRule(block, veinSize, spawnsPerChunk, yMin, yMax)
    {
      var b := Named(Resolve(block));
      this.block := b;
      veinSizeMax := veinSize;
      spawnsPerColumn := spawnsPerChunk / 256.0;
      heightMin := yMin;
      heightMax := yMax;
      heightFalloff := 0.0;
      heightFalloffCenter := (yMin + yMax) as real / 2.0;
      deepslateBlockVariant := DeepslateVariant(b);
    }

    /** The configuration constructor, once its `block` child was found. */
    constructor FromXml(elem: Element, blockText: string)
      requires ChildText(elem, "block") == Some(blockText)
      ensures Ok(Rule()) == XmlRule(elem)
    {
      block := Named(Resolve(blockText));
      deepslateBlockVariant := None;
      veinSizeMax := TryParseInt(elem, "size", 10);
      spawnsPerColumn := TryParseFloat(elem, "rarity", 4.0) / 256.0;
      heightMin := TryParseInt(elem, "y-min", 1);
      heightMax := TryParseInt(elem, "y-max", 32);
      heightFalloff := TryParseFloat(elem, "falloff", 0.0);
      heightFalloffCenter := TryParseFloat(elem, "center", 16.0);
    }

    /** `GetChanceAtY`, which stores the clamped centre back. */
    method GetChanceAtY(y: int) returns (p: real)
      requires heightMin < heightMax
      modifies this`heightFalloffCenter
      ensures p == ChanceAtY(old(Rule()), y)
      ensures Rule() == if heightFalloff <= 0.0 then old(Rule()) else old(Rule()).(heightFalloffCenter := ClampCenter(old(Rule())))
    {
      if heightFalloff <= 0.0 {
        return 1.0;
      }
      heightFalloffCenter := MaxR(heightMin as real + 0.01, MinR(heightFalloffCenter, heightMax as real - 0.01));
      var min := 1.0 - (y as real - heightFalloffCenter) / (heightMin as real - heightFalloffCenter);
      var max := 1.0 - (y as real - heightFalloffCenter) / (heightMax as real - heightFalloffCenter);
      var l := MaxR(0.0, MinR(min, max));
      p := Lerp(1.0, l, heightFalloff);
    }

    /** `RandomRange`: a draw from the inclusive range [lo, hi]. */
    static method RandomRange(rng: Random, lo: int, hi: int) returns (n: int)
      requires lo <= hi + 1
      modifies rng`count
      ensures n == NextInt(rng.draw(old(rng.count)), lo, hi + 1) && rng.count == old(rng.count) + 1
    {
      n := rng.Next(lo, hi + 1);
    }

    method Generate(dim: Dimension, rng: Random, spawnChanceMul: real, x: int, z: int)
      modifies dim`blocks, rng`count, this`heightFalloffCenter
      ensures (dim.blocks, rng.count) == GenerateAt(old(Rule()), old(dim.blocks), rng.draw, old(rng.count), spawnChanceMul, x, z)
      ensures Rule() == StateAfter(old(Rule()), rng.draw, old(rng.count), spawnChanceMul)
    {
      GenerateCases(Rule(), dim.blocks, rng.draw, rng.count, spawnChanceMul, x, z);
      if heightMin >= heightMax {
        return;
      }
      var d := rng.NextDouble();
      if !(d <= spawnsPerColumn * spawnChanceMul) {
        return;
      }
      Spawn(dim, rng, x, z);
    }

    method Spawn(dim: Dimension, rng: Random, x: int, z: int)
      requires heightMin < heightMax
      modifies dim`blocks, rng`count, this`heightFalloffCenter
      ensures (dim.blocks, rng.count) == SpawnAt(Clamped(old(Rule())), old(dim.blocks), rng.draw, old(rng.count), x, z)
      ensures Rule() == if heightFalloff > 0.0 then Clamped(old(Rule())) else old(Rule())
    {
      ghost var r := Rule();
      var y := RandomRange(rng, heightMin, heightMax);
      var p := GetChanceAtY(y);
      ChanceAtYClamped(r, y);
      var d2 := rng.NextDouble();
      if !(d2 <= p) {
        return;
      }
      Vein(dim, rng, x, y, z);
    }

    /** The vein loop: veinSizeMax attempts around (x, y, z). */
    method Vein(dim: Dimension, rng: Random, x: int, y: int, z: int)
      modifies dim`blocks, rng`count
      ensures dim.blocks == VeinOf(Rule(), old(dim.blocks), x, y, z, rng.draw, old(rng.count))
      ensures rng.count == old(rng.count) + 3 * Attempts(Rule())
    {
      var span := ((veinSizeMax - 1) as real / 16.0).Floor + 1;
      if veinSizeMax >= 1 {
        VeinSpanIsFloor(Rule());
      }
      VeinLoop(dim, rng, block, deepslateBlockVariant, veinSizeMax, span, VeinSpan(Rule()), x, y, z);
    }

    /** The attempts themselves, with the span already computed. */
    static method VeinLoop(dim: Dimension, rng: Random, ore: Block, variant: Option<Block>, n: int, span: int, ghost s: nat,
                           x: int, y: int, z: int)
      requires n >= 1 ==> span == s
      modifies dim`blocks, rng`count
      ensures dim.blocks == VeinUpTo(ore, variant, s, old(dim.blocks), x, y, z, rng.draw, old(rng.count), if n > 0 then n else 0)
      ensures rng.count == old(rng.count) + 3 * (if n > 0 then n else 0)
    {
      ghost var m, k := dim.blocks, rng.count;
      ghost var t: nat := if n > 0 then n else 0;
      var i := 0;
      while i < n
        invariant 0 <= i <= t
        invariant dim.blocks == VeinUpTo(ore, variant, s, m, x, y, z, rng.draw, k, i)
        invariant rng.count == k + 3 * i
      {
        VeinUpToStep(ore, variant, s, m, x, y, z, rng.draw, k, i);
        var pos := DrawCell(rng, span, x, y, z);
        PlaceOre(dim, ore, variant, pos);
        i := i + 1;
      }
      assert i == t;
    }

    /** One attempt's cell, three draws in [-span, span] around (x, y, z). */
    static method DrawCell(rng: Random, span: int, x: int, y: int, z: int) returns (pos: Coord)
      requires span >= 0
      modifies rng`count
      ensures pos == VeinCell(span, x, y, z, rng.draw, old(rng.count)) && rng.count == old(rng.count) + 3
    {
      var x1 := RandomRange(rng, -span, span);
      var y1 := RandomRange(rng, -span, span);
      var z1 := RandomRange(rng, -span, span);
      pos := (x + x1, y + y1, z + z1);
    }

    /** Ore over stone, its variant over deepslate. */
    static method PlaceOre(dim: Dimension, ore: Block, variant: Option<Block>, pos: Coord)
      modifies dim`blocks
      ensures dim.blocks == Replace(ore, variant, old(dim.blocks), pos)
    {
      if pos in dim.blocks && dim.blocks[pos].id == StoneId {
        dim.SetBlock(pos, ore);
      } else if variant.Some? && pos in dim.blocks && dim.blocks[pos].id == DeepslateId {
        dim.SetBlock(pos, variant.value);
      }
    }
  }

  /** `new OreGenerator(elem)`: fails when the element has no `block`
      child. */
  method FromXmlElement(elem: Element) returns (r: Result<OreGenerator>)
    ensures r.Ok? <==> XmlRule(elem).Ok?
    ensures r.Ok? ==> fresh(r.value) && Ok(r.value.Rule()) == XmlRule(elem)
  {
    var b := ChildText(elem, "block");
    if b.None? {
      return Err("NullReferenceException: ore without block");
    }
    var g := new OreGenerator.FromXml(elem, b.value);
    r := Ok(g);
  }

  /** The states of a list of generators. */
  function Rules(os: seq<OreGenerator>): (rs: seq<OreRule>)
    reads set o | o in os
    ensures |rs| == |os| && forall i :: 0 <= i < |os| ==> rs[i] == os[i].Rule()
  {
    if os == [] then [] else [os[0].Rule()] + Rules(os[1..])
  }

  /** What a call may do to a generator's state: leave it, or clamp its
      centre. */
  predicate Settles(before: OreRule, after: OreRule)
  {
    after == before || after == Clamped(before)
  }

  lemma SettlesTrans(a: OreRule, b: OreRule, c: OreRule)
    requires Settles(a, b) && Settles(b, c)
    ensures Settles(a, c) && Clamped(c) == Clamped(a)
  {
    ClampIdempotent(a);
  }
}
