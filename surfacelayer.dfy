/** The sub-generators of a splat layer (block layers, noise-gated block
    layers, single blocks or structures, biome setters) and the layer that
    runs them in order. */
module SurfaceLayers {
  import opened Common
  import opened Xml
  import opened World
  import PP = PostProcessor

  datatype Place = PlaceSchematic(schem: Schematic) | PlaceBlock(id: string)

  /** A sub-generator with its height range. A structure generator owns a
      private random stream; the layer keeps how far it has been read. */
  datatype SurfaceGen =
    | Standard(blocks: seq<string>, yMin: int, yMax: int)
    | Perlin(blocks: seq<string>, yMin: int, yMax: int, noise: (int, int) -> real, threshold: real)
    | Instance(place: Place, chance: real, isPlant: bool, yMin: int, yMax: int, stream: nat -> Unit)
    | BiomeGen(biome: string, yMin: int, yMax: int)

  predicate InRange(g: SurfaceGen, y: int) { g.yMin <= y <= g.yMax }

  /** The guard of the sub-generators' block writes: a non-blank name, and
      a cell that is not empty. */
  predicate Writes(env: Env, m: map<Coord, Block>, c: Coord, name: string)
  {
    !IsBlank(name) && !IsAirOrNull(env, m, c)
  }

  /** The first n layer blocks written down the column from `pos`, each
      under the guard, and whether any was written. */
  function StandardUpTo(env: Env, m: map<Coord, Block>, pos: Coord, blocks: seq<string>, n: nat): (map<Coord, Block>, bool)
    requires n <= |blocks|
  {
    if n == 0 then (m, false)
    else
      var prev := StandardUpTo(env, m, pos, blocks, n - 1);
      var c := (pos.0, pos.1 - (n - 1), pos.2);
      if Writes(env, prev.0, c, blocks[n - 1]) then (prev.0[c := Named(Resolve(blocks[n - 1]))], true)
      else prev
  }

  /** Cell by cell: block i of the list lands i cells below `pos` exactly
      when the guard holds there; nothing else changes. */
  lemma {:induction false} StandardUpToCell(env: Env, m: map<Coord, Block>, pos: Coord, blocks: seq<string>, n: nat, c: Coord)
    requires n <= |blocks|
    ensures Get(StandardUpTo(env, m, pos, blocks, n).0, c) ==
              if c.0 == pos.0 && c.2 == pos.2 && pos.1 - n < c.1 <= pos.1 && Writes(env, m, c, blocks[pos.1 - c.1])
              then Some(Named(Resolve(blocks[pos.1 - c.1]))) else Get(m, c)
  {
    if n > 0 {
      var w := (pos.0, pos.1 - (n - 1), pos.2);
      StandardUpToCell(env, m, pos, blocks, n - 1, c);
      StandardUpToCell(env, m, pos, blocks, n - 1, w);
      var prev := StandardUpTo(env, m, pos, blocks, n - 1);
      assert Writes(env, prev.0, w, blocks[n - 1]) == Writes(env, m, w, blocks[n - 1]);
    }
  }

  lemma StandardUpToAt(env: Env, m: map<Coord, Block>, pos: Coord, blocks: seq<string>, n: nat)
    requires n <= |blocks|
    ensures var r := StandardUpTo(env, m, pos, blocks, n);
            forall c :: Get(r.0, c) ==
              if c.0 == pos.0 && c.2 == pos.2 && pos.1 - n < c.1 <= pos.1 && Writes(env, m, c, blocks[pos.1 - c.1])
              then Some(Named(Resolve(blocks[pos.1 - c.1]))) else Get(m, c)
  {
    forall c {
      StandardUpToCell(env, m, pos, blocks, n, c);
    }
  }

  /** The generator reports true iff some block was written. */
  lemma {:induction false} StandardUpToWrote(env: Env, m: map<Coord, Block>, pos: Coord, blocks: seq<string>, n: nat)
    requires n <= |blocks|
    ensures StandardUpTo(env, m, pos, blocks, n).1 <==>
            exists i :: 0 <= i < n && Writes(env, m, (pos.0, pos.1 - i, pos.2), blocks[i])
  {
    if n > 0 {
      var w := (pos.0, pos.1 - (n - 1), pos.2);
      StandardUpToWrote(env, m, pos, blocks, n - 1);
      StandardUpToCell(env, m, pos, blocks, n - 1, w);
      var prev := StandardUpTo(env, m, pos, blocks, n - 1);
      assert Writes(env, prev.0, w, blocks[n - 1]) == Writes(env, m, w, blocks[n - 1]);
    }
  }

  /** `Generate` of one sub-generator at the surface cell `pos`, reading its
      private stream (if any) from position k: the new blocks and biomes,
      the next stream position, and the result it reports. */
  function GenerateAt(env: Env, g: SurfaceGen, m: map<Coord, Block>, bio: map<(int, int), string>, pos: Coord, k: nat)
    : (r: (map<Coord, Block>, map<(int, int), string>, nat, bool))
    ensures !InRange(g, pos.1) ==> r == (m, bio, k, false)
    ensures !g.Instance? ==> r.2 == k
    ensures !g.BiomeGen? ==> r.1 == bio
    ensures g.BiomeGen? ==> r.0 == m && (r.3 <==> InRange(g, pos.1)) &&
                            r.1 == if InRange(g, pos.1) then bio[(pos.0, pos.2) := g.biome] else bio
    ensures g.Perlin? && g.noise(pos.0, pos.2) >= g.threshold ==> r == (m, bio, k, false)
    ensures (g.Standard? || g.Perlin?) && InRange(g, pos.1) && !(g.Perlin? && g.noise(pos.0, pos.2) >= g.threshold) ==>
              (r.0, r.3) == StandardUpTo(env, m, pos, g.blocks, |g.blocks|)
    ensures (g.Instance? && g.isPlant &&
             (!(pos in m && m[pos].id in env.plantSustaining) || !IsAirOrNull(env, m, Above(pos)))) ==> r == (m, bio, k, false)
    ensures g.Instance? && g.place.PlaceBlock? ==>
              forall c :: c != Above(pos) ==> Get(r.0, c) == Get(m, c)
  {
    match g
    case Standard(blocks, yMin, yMax) =>
      if !InRange(g, pos.1) then (m, bio, k, false)
      else
        var s := StandardUpTo(env, m, pos, blocks, |blocks|);
        (s.0, bio, k, s.1)
    case Perlin(blocks, yMin, yMax, noise, threshold) =>
      if noise(pos.0, pos.2) < threshold then
        if !InRange(g, pos.1) then (m, bio, k, false)
        else
          var s := StandardUpTo(env, m, pos, blocks, |blocks|);
          (s.0, bio, k, s.1)
      else (m, bio, k, false)
    case Instance(place, chance, isPlant, yMin, yMax, stream) =>
      if isPlant && (!(pos in m && m[pos].id in env.plantSustaining) || !IsAirOrNull(env, m, Above(pos))) then (m, bio, k, false)
      else if !InRange(g, pos.1) then (m, bio, k, false)
      else if stream(k) < chance / 128.0 then
        match place
        case PlaceSchematic(s) =>
          var b := s.build(m, Above(pos), stream, k + 1);
          (b.0, bio, k + 1 + b.1, b.2)
        case PlaceBlock(id) => (m[Above(pos) := Named(Resolve(id))], bio, k + 1, true)
      else (m, bio, k + 1, false)
    case BiomeGen(biome, yMin, yMax) =>
      if !InRange(g, pos.1) then (m, bio, k, false)
      else (m, bio[(pos.0, pos.2) := biome], k, true)
  }

  /** `RunGenerator` over the first n sub-generators, in order, each with its
      own stream position; the results they report are dropped. */
  function RunUpTo(env: Env, gens: seq<SurfaceGen>, draws: seq<nat>, m: map<Coord, Block>, bio: map<(int, int), string>,
                   pos: Coord, n: nat): (r: (map<Coord, Block>, map<(int, int), string>, seq<nat>))
    requires n <= |gens| == |draws|
    ensures |r.2| == |draws|
    ensures forall j :: 0 <= j < |draws| && (j >= n || !gens[j].Instance?) ==> r.2[j] == draws[j]
  {
    if n == 0 then (m, bio, draws)
    else
      var prev := RunUpTo(env, gens, draws, m, bio, pos, n - 1);
      var g := GenerateAt(env, gens[n - 1], prev.0, prev.1, pos, prev.2[n - 1]);
      (g.0, g.1, prev.2[n - 1 := g.2])
  }

  /** Without structure generators, a layer changes only the column of
      `pos` (down from one above it) and that column's biome. */
  lemma {:induction false} RunStaysInColumn(env: Env, gens: seq<SurfaceGen>, draws: seq<nat>, m: map<Coord, Block>,
                                            bio: map<(int, int), string>, pos: Coord, n: nat, c: Coord, col: (int, int))
    requires n <= |gens| == |draws|
    requires forall j :: 0 <= j < |gens| ==> !(gens[j].Instance? && gens[j].place.PlaceSchematic?)
    requires (c.0, c.2) != (pos.0, pos.2) || c.1 > pos.1 + 1
    requires col != (pos.0, pos.2)
    ensures Get(RunUpTo(env, gens, draws, m, bio, pos, n).0, c) == Get(m, c)
    ensures var b := RunUpTo(env, gens, draws, m, bio, pos, n).1; (col in b <==> col in bio) && (col in b ==> b[col] == bio[col])
  {
    if n > 0 {
      RunStaysInColumn(env, gens, draws, m, bio, pos, n - 1, c, col);
      var prev := RunUpTo(env, gens, draws, m, bio, pos, n - 1);
      GenerateStaysInColumn(env, gens[n - 1], prev.0, prev.1, pos, prev.2[n - 1], c, col);
    }
  }

  /** One sub-generator other than a structure writes only the column of
      `pos`, down from one above it, and only that column's biome. */
  lemma GenerateStaysInColumn(env: Env, g: SurfaceGen, m: map<Coord, Block>, bio: map<(int, int), string>,
                              pos: Coord, k: nat, c: Coord, col: (int, int))
    requires !(g.Instance? && g.place.PlaceSchematic?)
    requires (c.0, c.2) != (pos.0, pos.2) || c.1 > pos.1 + 1
    requires col != (pos.0, pos.2)
    ensures Get(GenerateAt(env, g, m, bio, pos, k).0, c) == Get(m, c)
    ensures var b := GenerateAt(env, g, m, bio, pos, k).1; (col in b <==> col in bio) && (col in b ==> b[col] == bio[col])
  {
    if (g.Standard? || g.Perlin?) && InRange(g, pos.1) && !(g.Perlin? && g.noise(pos.0, pos.2) >= g.threshold) {
      StandardUpToAt(env, m, pos, g.blocks, |g.blocks|);
    }
  }

  /** `SurfaceLayerGenerator.SetBlock`. */
  method SetBlockGuarded(dim: Dimension, c: Coord, name: string) returns (written: bool)
    modifies dim`blocks
    ensures written == Writes(dim.env, old(dim.blocks), c, name)
    ensures dim.blocks == if written then old(dim.blocks)[c := Named(Resolve(name))] else old(dim.blocks)
  {
    if !IsBlank(name) && !IsAirOrNull(dim.env, dim.blocks, c) {
      dim.SetBlock(c, Named(Resolve(name)));
      return true;
    }
    return false;
  }

  /** The block-layer loop of the standard and Perlin generators. */
  method WriteLayers(dim: Dimension, pos: Coord, blocks: seq<string>) returns (any: bool)
    modifies dim`blocks
    ensures (dim.blocks, any) == StandardUpTo(dim.env, old(dim.blocks), pos, blocks, |blocks|)
  {
    any := false;
    var i := 0;
    while i < |blocks|
      invariant 0 <= i <= |blocks|
      invariant (dim.blocks, any) == StandardUpTo(dim.env, old(dim.blocks), pos, blocks, i)
    {
      var w := SetBlockGuarded(dim, (pos.0, pos.1 - i, pos.2), blocks[i]);
      any := any || w;
      i := i + 1;
    }
  }

  method Generate(dim: Dimension, g: SurfaceGen, pos: Coord, k: nat) returns (next: nat, result: bool)
    modifies dim`blocks, dim`biomes
    ensures (dim.blocks, dim.biomes, next, result) == GenerateAt(dim.env, g, old(dim.blocks), old(dim.biomes), pos, k)
  {
    next := k;
    result := false;
    match g
    case Standard(blocks, yMin, yMax) =>
      if InRange(g, pos.1) {
        result := WriteLayers(dim, pos, blocks);
      }
    case Perlin(blocks, yMin, yMax, noise, threshold) =>
      if noise(pos.0, pos.2) < threshold && InRange(g, pos.1) {
        result := WriteLayers(dim, pos, blocks);
      }
    case Instance(place, chance, isPlant, yMin, yMax, stream) =>
      if isPlant && (!(pos in dim.blocks && dim.blocks[pos].id in dim.env.plantSustaining) ||
                     !IsAirOrNull(dim.env, dim.blocks, Above(pos))) {
        return;
      }
      if !InRange(g, pos.1) {
        return;
      }
      var d := stream(k);
      next := k + 1;
      if d < chance / 128.0 {
        match place
        case PlaceSchematic(s) =>
          var b := s.build(dim.blocks, Above(pos), stream, k + 1);
          dim.blocks := b.0;
          next := k + 1 + b.1;
          result := b.2;
        case PlaceBlock(id) =>
          dim.SetBlock(Above(pos), Named(Resolve(id)));
          result := true;
      }
    case BiomeGen(biome, yMin, yMax) =>
      if InRange(g, pos.1) {
        dim.SetBiome(pos.0, pos.2, biome);
        result := true;
      }
  }

  /** The generator a `surface` element describes: `blocks` is required
      and split on ','; a missing or blank `type` or "standard" is a block
      layer, "perlin" a noise-gated one (defaults scale 1.0, threshold 0.5);
      `y-min`/`y-max` are applied when present; any other type is no
      generator. */
  function SurfaceGenOf(xml: Element, perlin: real -> ((int, int) -> real)): (r: Result<Option<SurfaceGen>>)
    ensures "blocks" !in xml.attrs ==> r.Err?
    ensures r.Ok? && r.value.Some? ==>
              var g := r.value.value;
              (g.Standard? || g.Perlin?) && g.blocks == Split(xml.attrs["blocks"], ',') &&
              ParseIntAttrOr(xml, "y-min", IntMin) == Ok(g.yMin) && ParseIntAttrOr(xml, "y-max", IntMax) == Ok(g.yMax)
    ensures r.Ok? && r.value.Some? && r.value.value.Perlin? ==>
              Attr(xml, "type") == Some("perlin") &&
              (Attr(xml, "scale").None? ==> r.value.value.noise == perlin(2.6)) &&
              (Attr(xml, "threshold").None? ==> r.value.value.threshold == 0.5)
    ensures "blocks" in xml.attrs && Attr(xml, "type").None? && Attr(xml, "y-min").None? && Attr(xml, "y-max").None? ==>
              r == Ok(Some(Standard(Split(xml.attrs["blocks"], ','), IntMin, IntMax)))
    ensures r == Ok(None) <==>
              "blocks" in xml.attrs && Attr(xml, "type").Some? &&
              var t := Attr(xml, "type").value; t != "standard" && !IsBlank(t) && t != "perlin"
  {
    var t := match Attr(xml, "type") case Some(v) => v case None => "standard";
    if "blocks" !in xml.attrs then Err("NullReferenceException: surface generator without blocks")
    else
      var blocks := Split(xml.attrs["blocks"], ',');
      var kind: Result<Option<Option<((int, int) -> real, real)>>> :=
        if t == "standard" || IsBlank(t) then Ok(Some(None))
        else if t == "perlin" then
          match ParseFloatAttrOr(xml, "scale", 1.0)
          case Err(e) => Err(e)
          case Ok(scale) =>
            match ParseFloatAttrOr(xml, "threshold", 0.5)
            case Err(e) => Err(e)
            case Ok(threshold) => Ok(Some(Some((perlin(scale * 2.6), threshold))))
        else Ok(None);
      match kind
      case Err(e) => Err(e)
      case Ok(None) => Ok(None)
      case Ok(Some(noise)) =>
        match ParseIntAttrOr(xml, "y-min", IntMin)
        case Err(e) => Err(e)
        case Ok(lo) =>
          match ParseIntAttrOr(xml, "y-max", IntMax)
          case Err(e) => Err(e)
          case Ok(hi) =>
            match noise
            case None => Ok(Some(Standard(blocks, lo, hi)))
            case Some(nt) => Ok(Some(Perlin(blocks, lo, hi, nt.0, nt.1)))
  }

  /** The generator a `gen` element describes: a structure named by `schem`
      (which must be registered) before a single `block`; `amount`
      defaults to 1 and `plant-check` to true; neither attribute is no
      generator. */
  function InstanceOf(xml: Element, schematics: map<string, Schematic>, stream: nat -> Unit): (r: Result<Option<SurfaceGen>>)
    ensures "schem" in xml.attrs ==>
              (r.Ok? <==> xml.attrs["schem"] in schematics) &&
              (r.Ok? ==> r.value.Some? && r.value.value.Instance? && r.value.value.place == PlaceSchematic(schematics[xml.attrs["schem"]]))
    ensures "schem" !in xml.attrs && "block" in xml.attrs ==>
              r.Ok? && r.value.Some? && r.value.value.Instance? && r.value.value.place == PlaceBlock(xml.attrs["block"])
    ensures r == Ok(None) <==> "schem" !in xml.attrs && "block" !in xml.attrs
    ensures r.Ok? && r.value.Some? ==>
              r.value.value.Instance? && r.value.value.stream == stream &&
              (Attr(xml, "amount").None? ==> r.value.value.chance == 1.0) &&
              (Attr(xml, "plant-check").None? ==> r.value.value.isPlant) &&
              r.value.value.yMin == IntMin && r.value.value.yMax == IntMax
  {
    var amount := TryParseFloatAttribute(xml, "amount", 1.0);
    var plantCheck := TryParseBoolAttribute(xml, "plant-check", true);
    if "schem" in xml.attrs then
      var key := xml.attrs["schem"];
      if key in schematics then Ok(Some(Instance(PlaceSchematic(schematics[key]), amount, plantCheck, IntMin, IntMax, stream)))
      else Err("KeyNotFoundException: " + key)
    else if "block" in xml.attrs then
      Ok(Some(Instance(PlaceBlock(xml.attrs["block"]), amount, plantCheck, IntMin, IntMax, stream)))
    else Ok(None)
  }

  /** The biome enum value of a number: its name, or for a value the enum
      does not name, the number's text (as the enum prints it). */
  function BiomeName(biomeIds: map<int, string>, n: nat): string
  {
    if n in biomeIds then biomeIds[n] else NatToString(n)
  }

  /** `Enum.Parse` reads an enum value as a number when its trimmed text
      starts with a digit or a sign. */
  predicate StartsNumber(t: string) { t != [] && (IsDigit(t[0]) || t[0] == '+' || t[0] == '-') }

  /** The number `Enum.Parse` reads: an optional sign, then decimal digits. */
  function EnumNumber(t: string): (r: Option<int>)
    ensures r.Some? ==> StartsNumber(t)
  {
    var signed := t != [] && (t[0] == '+' || t[0] == '-');
    var body := if signed then t[1..] else t;
    if !AllDigits(body) then None
    else if signed && t[0] == '-' then Some(0 - DigitsValue(body))
    else Some(DigitsValue(body))
  }

  /** `Enum.Parse(typeof(BiomeID), text)` for the byte-valued enum: the text
      is trimmed; a number must fit in a byte, and the enum prints it; text
      that is not a number must be a biome name. */
  function ParseBiome(text: string, biomeIds: map<int, string>): (r: Result<string>)
    ensures var t := Trim(text);
            r.Ok? <==> (EnumNumber(t).Some? && 0 <= EnumNumber(t).value <= 255) || (EnumNumber(t).None? && t != [] && t in biomeIds.Values)
    ensures var t := Trim(text);
            r.Ok? ==> if EnumNumber(t).Some? then r.value == BiomeName(biomeIds, EnumNumber(t).value) else r.value == t
  {
    var t := Trim(text);
    if t == [] then Err("ArgumentException: " + text)
    else match EnumNumber(t)
      case Some(n) =>
        if 0 <= n <= 255 then Ok(BiomeName(biomeIds, n)) else Err("OverflowException: " + text)
      case None =>
        if t in biomeIds.Values then Ok(t) else Err("ArgumentException: " + text)
  }

  /** The generator a `biome` element describes: an `id` starting with a
      digit is a byte value; any other is parsed as the biome enum; a
      missing or empty id is no generator. */
  function BiomeOf(xml: Element, biomeIds: map<int, string>): (r: Result<Option<SurfaceGen>>)
    ensures r == Ok(None) <==> "id" !in xml.attrs || xml.attrs["id"] == ""
    ensures r.Ok? && r.value.Some? ==>
              r.value.value.BiomeGen? && r.value.value.yMin == IntMin && r.value.value.yMax == IntMax
    ensures "id" in xml.attrs && xml.attrs["id"] != "" && !IsDigit(xml.attrs["id"][0]) ==>
              (r.Ok? <==> ParseBiome(xml.attrs["id"], biomeIds).Ok?) &&
              (r.Ok? ==> r.value.value.biome == ParseBiome(xml.attrs["id"], biomeIds).value)
    ensures "id" in xml.attrs && xml.attrs["id"] != "" && IsDigit(xml.attrs["id"][0]) ==>
              (r.Ok? <==> ParseInt(xml.attrs["id"]).Some? && 0 <= ParseInt(xml.attrs["id"]).value <= 255) &&
              (r.Ok? ==> r.value.value.biome == BiomeName(biomeIds, ParseInt(xml.attrs["id"]).value))
  {
    if "id" !in xml.attrs || xml.attrs["id"] == "" then Ok(None)
    else
      var id := xml.attrs["id"];
      if IsDigit(id[0]) then
        match ParseInt(id)
        case Some(n) =>
          if 0 <= n <= 255 then Ok(Some(BiomeGen(BiomeName(biomeIds, n), IntMin, IntMax)))
          else Err("OverflowException: " + id)
        case None => Err("FormatException: " + id)
      else
        match ParseBiome(id, biomeIds)
        case Ok(name) => Ok(Some(BiomeGen(name, IntMin, IntMax)))
        case Err(msg) => Err(msg)
  }

  lemma {:induction false} TrimStartBlank(w: string, s: string)
    requires IsBlank(w)
    ensures TrimStart(w + s) == TrimStart(s)
    decreases |w|
  {
    if w != [] {
      var x, v := w + s, w[1..];
      assert x[0] == w[0] && IsWhite(x[0]);
      assert x[1..] == v + s;
      assert TrimStart(x) == TrimStart(v + s);
      assert IsBlank(v) by {
        forall i | 0 <= i < |v| ensures IsWhite(v[i]) { assert v[i] == w[i + 1]; }
      }
      TrimStartBlank(v, s);
    } else {
      assert w + s == s;
    }
  }

  lemma {:induction false} TrimEndBlank(s: string, w: string)
    requires IsBlank(w)
    ensures TrimEnd(s + w) == TrimEnd(s)
    decreases |w|
  {
    if w != [] {
      var x, v := s + w, w[..|w| - 1];
      assert x[|x| - 1] == w[|w| - 1] && IsWhite(x[|x| - 1]);
      assert x[..|x| - 1] == s + v;
      assert TrimEnd(x) == TrimEnd(s + v);
      assert IsBlank(v) by {
        forall i | 0 <= i < |v| ensures IsWhite(v[i]) { assert v[i] == w[i]; }
      }
      TrimEndBlank(s, v);
    } else {
      assert s + w == s;
    }
  }

  /** A biome name padded with white space names the same biome. */
  lemma PaddedBiomeName(w: string, name: string, w': string, biomeIds: map<int, string>)
    requires IsBlank(w) && IsBlank(w')
    requires name in biomeIds.Values && name != [] && !IsWhite(name[0]) && !IsWhite(name[|name| - 1]) && !StartsNumber(name)
    ensures ParseBiome(w + name + w', biomeIds) == Ok(name)
  {
    TrimStartBlank(w, name + w');
    assert w + name + w' == w + (name + w');
    assert TrimStart(name + w') == name + w';
    TrimEndBlank(name, w');
    assert Trim(w + name + w') == name;
  }

  /** The generator a configuration element adds, if any. */
  function Added(spec: Result<Option<SurfaceGen>>): seq<SurfaceGen>
  {
    if spec.Ok? && spec.value.Some? then [spec.value.value] else []
  }

  /** The stream positions of generators that have not drawn yet. */
  function Zeros(n: nat): (z: seq<nat>)
    ensures |z| == n && forall i :: 0 <= i < n ==> z[i] == 0
  {
    if n == 0 then [] else Zeros(n - 1) + [0]
  }

  lemma ZerosAppend(a: nat, b: nat)
    ensures Zeros(a) + Zeros(b) == Zeros(a + b)
  {
  }

  /** A splat layer: its palette colour, optional name, and sub-generators
      in the order they were added, with each one's stream position. */
  class SurfaceLayer {
    const name: Option<string>
    const layerColor: PP.Color
    var generators: seq<SurfaceGen>
    var draws: seq<nat>

    ghost predicate Valid()
      reads this
    {
      |draws| == |generators|
    }

    constructor (color: PP.Color, name: Option<string>)
      ensures Valid() && layerColor == color && this.name == name && generators == []
    {
      layerColor := color;
      this.name := name;
      generators := [];
      draws := [];
    }

    /** Appends a sub-generator, its stream not yet read. */
    method Append(g: SurfaceGen)
      requires Valid()
      modifies this`generators, this`draws
      ensures Valid() && generators == old(generators) + [g] && draws == old(draws) + [0]
    {
      generators := generators + [g];
      draws := draws + [0];
    }

    /** The shared shape of the three `Add*Generator` methods: an error
      propagates, no generator reports false, a generator is appended. */
    method AddFrom(spec: Result<Option<SurfaceGen>>) returns (r: Result<bool>)
      requires Valid()
      modifies this`generators, this`draws
      ensures Valid()
      ensures r.Err? <==> spec.Err?
      ensures r.Ok? ==> (r.value <==> spec.value.Some?)
      ensures generators == old(generators) + Added(spec)
      ensures draws == old(draws) + Zeros(|Added(spec)|)
    {
      match spec
      case Err(e) => r := Err(e);
      case Ok(None) => r := Ok(false);
      case Ok(Some(g)) =>
        Append(g);
        r := Ok(true);
    }

    method AddSurfaceGenerator(xml: Element, perlin: real -> ((int, int) -> real)) returns (r: Result<bool>)
      requires Valid()
      modifies this`generators, this`draws
      ensures Valid()
      ensures r.Err? <==> SurfaceGenOf(xml, perlin).Err?
      ensures r.Ok? ==> (r.value <==> SurfaceGenOf(xml, perlin).value.Some?)
      ensures generators == old(generators) + Added(SurfaceGenOf(xml, perlin))
      ensures draws == old(draws) + Zeros(|Added(SurfaceGenOf(xml, perlin))|)
    {
      r := AddFrom(SurfaceGenOf(xml, perlin));
    }

    method AddSchematicGenerator(xml: Element, schematics: map<string, Schematic>, stream: nat -> Unit) returns (r: Result<bool>)
      requires Valid()
      modifies this`generators, this`draws
      ensures Valid()
      ensures r.Err? <==> InstanceOf(xml, schematics, stream).Err?
      ensures r.Ok? ==> (r.value <==> InstanceOf(xml, schematics, stream).value.Some?)
      ensures generators == old(generators) + Added(InstanceOf(xml, schematics, stream))
      ensures draws == old(draws) + Zeros(|Added(InstanceOf(xml, schematics, stream))|)
    {
      r := AddFrom(InstanceOf(xml, schematics, stream));
    }

    method AddBiomeGenerator(xml: Element, biomeIds: map<int, string>) returns (r: Result<bool>)
      requires Valid()
      modifies this`generators, this`draws
      ensures Valid()
      ensures r.Err? <==> BiomeOf(xml, biomeIds).Err?
      ensures r.Ok? ==> (r.value <==> BiomeOf(xml, biomeIds).value.Some?)
      ensures generators == old(generators) + Added(BiomeOf(xml, biomeIds))
      ensures draws == old(draws) + Zeros(|Added(BiomeOf(xml, biomeIds))|)
    {
      r := AddFrom(BiomeOf(xml, biomeIds));
    }

    /** `RunGenerator`: every sub-generator in insertion order. */
    method RunGenerator(dim: Dimension, pos: Coord)
      requires Valid()
      modifies dim`blocks, dim`biomes, this`draws
      ensures Valid()
      ensures (dim.blocks, dim.biomes, draws) ==
              RunUpTo(dim.env, generators, old(draws), old(dim.blocks), old(dim.biomes), pos, |generators|)
    {
      var i := 0;
      while i < |generators|
        invariant 0 <= i <= |generators| && |draws| == |generators|
        invariant (dim.blocks, dim.biomes, draws) ==
                  RunUpTo(dim.env, generators, old(draws), old(dim.blocks), old(dim.biomes), pos, i)
      {
        var next, _ := Generate(dim, generators[i], pos, draws[i]);
        draws := draws[i := next];
        i := i + 1;
      }
    }
  }
}
