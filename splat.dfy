/** The splat-mapped terrain generator: an indexed colour map selects, per
    column, which surface layer decorates it. */
module Splat {
  import opened Common
  import opened Xml
  import opened World
  import PP = PostProcessor
  import Paths
  import opened SurfaceLayers

  const Mode: PP.PostProcessType := PP.Surface

  /** A layer colour: "r,g,b" (opaque; the three parts must be integers
      the colour constructor accepts, further parts are ignored), or a
      splat colour name. */
  function ParseColor(input: string, colorNames: map<string, PP.Color>): Result<PP.Color>
  {
    var cs := Split(input, ',');
    if |cs| == 1 then
      if input in colorNames then Ok(colorNames[input]) else Err("unknown colour name: " + input)
    else if |cs| < 3 then Err("IndexOutOfRangeException: " + input)
    else
      match (Channel(cs[0]), Channel(cs[1]), Channel(cs[2]))
      case (Some(r), Some(g), Some(b)) => Ok(PP.Color(255, r, g, b))
      case _ => Err("FormatException: " + input)
  }

  /** Split yields one piece exactly when the separator does not occur. */
  lemma {:induction false} SplitSingle(s: string, sep: char)
    ensures |Split(s, sep)| == 1 <==> sep !in s
    decreases |s|
  {
    if s != [] {
      SplitSingle(s[1..], sep);
      assert forall c :: c in s <==> c == s[0] || c in s[1..];
    }
  }

  /** A text without a comma is a colour name; one with commas is three
      components, read as an opaque colour. */
  lemma ParseColorMeaning(input: string, colorNames: map<string, PP.Color>)
    ensures var r := ParseColor(input, colorNames);
            (',' !in input ==> (r.Ok? <==> input in colorNames) && (r.Ok? ==> r.value == colorNames[input])) &&
            (',' in input ==>
               var cs := Split(input, ',');
               (r.Ok? <==> |cs| >= 3 && Channel(cs[0]).Some? && Channel(cs[1]).Some? && Channel(cs[2]).Some?) &&
               (r.Ok? ==> r.value == PP.Color(255, Channel(cs[0]).value, Channel(cs[1]).value, Channel(cs[2]).value)))
  {
    SplitSingle(input, ',');
  }

  /** A colour component: an integer the colour constructor accepts. */
  function Channel(s: string): (v: Option<int>)
    ensures v.Some? ==> 0 <= v.value <= 255
  {
    match ParseInt(s)
    case Some(n) => if 0 <= n <= 255 then Some(n) else None
    case None => None
  }

  /** The "r,g,b" text of an opaque colour. */
  function ColorText(c: PP.Color): string
    requires 0 <= c.r && 0 <= c.g && 0 <= c.b
  {
    NatToString(c.r) + "," + NatToString(c.g) + "," + NatToString(c.b)
  }

  lemma {:induction false} SplitAfter(a: string, rest: string, sep: char)
    requires sep !in a
    ensures Split(a + [sep] + rest, sep) == [a] + Split(rest, sep)
    decreases |a|
  {
    if a == [] {
      assert a + [sep] + rest == [sep] + rest;
      assert ([sep] + rest)[1..] == rest;
    } else {
      SplitAfter(a[1..], rest, sep);
      assert (a + [sep] + rest)[0] == a[0] != sep;
      assert (a + [sep] + rest)[1..] == a[1..] + [sep] + rest;
      assert [a[0]] + a[1..] == a;
    }
  }

  lemma {:induction false} SplitNone(a: string, sep: char)
    requires sep !in a
    ensures Split(a, sep) == [a]
    decreases |a|
  {
    if a != [] {
      SplitNone(a[1..], sep);
      assert [a[0]] + a[1..] == a;
    }
  }

  lemma NoSeparatorInDigits(s: string, sep: char)
    requires AllDigits(s) && !IsDigit(sep)
    ensures sep !in s
  {
  }

  /** A number's decimal text parses back to the number. */
  lemma ParseIntNatToString(n: nat)
    requires n <= IntMax
    ensures ParseInt(NatToString(n)) == Some(n)
  {
    var s := NatToString(n);
    assert TrimStart(s) == s;
    assert TrimEnd(s) == s;
  }

  lemma ColorTextSplits(c: PP.Color)
    requires 0 <= c.r && 0 <= c.g && 0 <= c.b
    ensures Split(ColorText(c), ',') == [NatToString(c.r), NatToString(c.g), NatToString(c.b)]
    ensures ',' in ColorText(c)
  {
    var r, g, b := NatToString(c.r), NatToString(c.g), NatToString(c.b);
    NoSeparatorInDigits(r, ',');
    NoSeparatorInDigits(g, ',');
    NoSeparatorInDigits(b, ',');
    SplitThree(r, g, b);
    assert ColorText(c) == r + [','] + (g + "," + b);
    assert ColorText(c)[|r|] == ',';
  }

  /** Three comma-free texts joined by commas split back into themselves. */
  lemma SplitThree(r: string, g: string, b: string)
    requires ',' !in r && ',' !in g && ',' !in b
    ensures Split(r + [','] + (g + "," + b), ',') == [r, g, b]
  {
    SplitNone(b, ',');
    SplitAfter(g, b, ',');
    assert g + "," + b == g + [','] + b;
    SplitAfter(r, g + "," + b, ',');
  }

  lemma ChannelNatToString(n: nat)
    requires n <= 255
    ensures Channel(NatToString(n)) == Some(n)
  {
    ParseIntNatToString(n);
  }

  /** An opaque colour written as "r,g,b" reads back as itself. */
  lemma ColorRoundTrip(c: PP.Color, colorNames: map<string, PP.Color>)
    requires c.a == 255 && 0 <= c.r <= 255 && 0 <= c.g <= 255 && 0 <= c.b <= 255
    ensures ParseColor(ColorText(c), colorNames) == Ok(c)
  {
    ColorTextSplits(c);
    ParseColorMeaning(ColorText(c), colorNames);
    ChannelNatToString(c.r);
    ChannelNatToString(c.g);
    ChannelNatToString(c.b);
  }

  /** The generator one child element of a layer describes; j is its
      position, which selects its private random stream. */
  function ElementGen(e: Element, j: nat, layer: nat, res: PP.Resources, schematics: map<string, Schematic>)
    : Result<Option<SurfaceGen>>
  {
    if e.name == "surface" then SurfaceGenOf(e, res.perlin)
    else if e.name == "gen" then InstanceOf(e, schematics, res.streams(layer, j))
    else if e.name == "biome" then BiomeOf(e, res.biomeIds)
    else Ok(None)
  }

  /** What each child of the layer element with palette index `layer`
      describes, in order. */
  function ElementGens(cs: seq<Element>, layer: nat, res: PP.Resources, schematics: map<string, Schematic>)
    : (rs: seq<Result<Option<SurfaceGen>>>)
    ensures |rs| == |cs|
  {
    seq(|cs|, j requires 0 <= j < |cs| => ElementGen(cs[j], j, layer, res, schematics))
  }

  /** The generators the children add, in order; the first error ends
      the construction. */
  function Gathered(rs: seq<Result<Option<SurfaceGen>>>): Result<seq<SurfaceGen>>
  {
    if rs == [] then Ok([])
    else
      match Gathered(rs[..|rs| - 1])
      case Err(m) => Err(m)
      case Ok(prev) =>
        var g := rs[|rs| - 1];
        if g.Err? then Err(g.msg) else Ok(prev + Added(g))
  }

  /** Once a prefix of the children fails, the whole layer fails. */
  lemma {:induction false} GatheredSticks(rs: seq<Result<Option<SurfaceGen>>>, j: nat)
    requires j <= |rs| && Gathered(rs[..j]).Err?
    ensures Gathered(rs).Err?
    decreases |rs| - j
  {
    if j == |rs| {
      assert rs[..j] == rs;
    } else {
      assert rs[..j + 1][..j] == rs[..j];
      GatheredSticks(rs, j + 1);
    }
  }

  /** The generators fail exactly when one child's generator fails. */
  lemma {:induction false} GatheredFails(rs: seq<Result<Option<SurfaceGen>>>)
    ensures Gathered(rs).Err? <==> exists j :: 0 <= j < |rs| && rs[j].Err?
  {
    if rs != [] {
      var p := rs[..|rs| - 1];
      GatheredFails(p);
      assert forall j :: 0 <= j < |p| ==> p[j] == rs[j];
    }
  }

  /** A generator is in the layer exactly when some child describes it. */
  lemma {:induction false} GatheredFrom(rs: seq<Result<Option<SurfaceGen>>>, g: SurfaceGen)
    requires Gathered(rs).Ok?
    ensures g in Gathered(rs).value <==> exists j :: 0 <= j < |rs| && rs[j] == Ok(Some(g))
  {
    if rs != [] {
      var p := rs[..|rs| - 1];
      GatheredFrom(p, g);
      assert forall j :: 0 <= j < |p| ==> p[j] == rs[j];
      assert Gathered(rs).value == Gathered(p).value + Added(rs[|rs| - 1]);
    }
  }

  lemma GatheredStop(rs: seq<Result<Option<SurfaceGen>>>, j: nat)
    requires j < |rs| && Gathered(rs[..j]).Ok? && rs[j].Err?
    ensures Gathered(rs).Err?
  {
    assert rs[..j + 1][..j] == rs[..j];
    GatheredSticks(rs, j + 1);
  }

  /** Adding the generator of child j to the first j. */
  lemma GatheredSnoc(rs: seq<Result<Option<SurfaceGen>>>, j: nat)
    requires j < |rs| && Gathered(rs[..j]).Ok? && rs[j].Ok?
    ensures Gathered(rs[..j + 1]) == Ok(Gathered(rs[..j]).value + Added(rs[j]))
  {
    assert rs[..j + 1][..j] == rs[..j];
  }

  /** The generators of a layer element. */
  function GensOf(e: Element, layer: nat, res: PP.Resources, schematics: map<string, Schematic>): Result<seq<SurfaceGen>>
  {
    Gathered(ElementGens(e.children, layer, res, schematics))
  }

  /** A layer element's generators fail exactly when one child's fails,
      and otherwise are what the children describe. */
  lemma GensOfMeaning(e: Element, layer: nat, res: PP.Resources, schematics: map<string, Schematic>, g: SurfaceGen)
    ensures GensOf(e, layer, res, schematics).Err? <==>
            exists j :: 0 <= j < |e.children| && ElementGen(e.children[j], j, layer, res, schematics).Err?
    ensures GensOf(e, layer, res, schematics).Ok? ==>
              (g in GensOf(e, layer, res, schematics).value <==>
               exists j :: 0 <= j < |e.children| && ElementGen(e.children[j], j, layer, res, schematics) == Ok(Some(g)))
  {
    var rs := ElementGens(e.children, layer, res, schematics);
    forall j | 0 <= j < |rs| ensures rs[j] == ElementGen(e.children[j], j, layer, res, schematics) { }
    GatheredFails(rs);
    if Gathered(rs).Ok? {
      GatheredFrom(rs, g);
    }
  }

  /** What a layer is built from: its colour, its name and its generators. */
  datatype LayerSpec = LayerSpec(color: PP.Color, name: Option<string>, gens: seq<SurfaceGen>)

  /** The `layer` elements that carry a colour; the others are skipped. */
  function Coloured(ls: seq<Element>): (r: seq<Element>)
    ensures |r| <= |ls|
    ensures forall e :: e in r <==> e in ls && "color" in e.attrs
  {
    if ls == [] then []
    else (if "color" in ls[0].attrs then [ls[0]] else []) + Coloured(ls[1..])
  }

  /** The layer a layer element with palette index i describes: its
      colour is read first, then its generators. */
  function LayerOf(e: Element, i: nat, res: PP.Resources, schematics: map<string, Schematic>): Result<LayerSpec>
  {
    if "color" !in e.attrs then Err("layer is missing required attribute 'color'")
    else
      match ParseColor(e.attrs["color"], res.colorNames)
      case Err(m) => Err(m)
      case Ok(c) =>
        match GensOf(e, i, res, schematics)
        case Err(m) => Err(m)
        case Ok(gs) => Ok(LayerSpec(c, Attr(e, "name"), gs))
  }

  /** The layers the elements describe, one per element, in order. */
  function LayerResults(ls: seq<Element>, res: PP.Resources, schematics: map<string, Schematic>)
    : (rs: seq<Result<LayerSpec>>)
    ensures |rs| == |ls|
  {
    seq(|ls|, i requires 0 <= i < |ls| => LayerOf(ls[i], i, res, schematics))
  }

  /** The values of a sequence of results, in order, or its first error. */
  function AllOk<T>(rs: seq<Result<T>>): Result<seq<T>>
  {
    if rs == [] then Ok([])
    else
      match AllOk(rs[..|rs| - 1])
      case Err(m) => Err(m)
      case Ok(prev) =>
        match rs[|rs| - 1]
        case Err(m) => Err(m)
        case Ok(v) => Ok(prev + [v])
  }

  lemma {:induction false} AllOkSticks<T>(rs: seq<Result<T>>, j: nat)
    requires j <= |rs| && AllOk(rs[..j]).Err?
    ensures AllOk(rs).Err?
    decreases |rs| - j
  {
    if j == |rs| {
      assert rs[..j] == rs;
    } else {
      assert rs[..j + 1][..j] == rs[..j];
      AllOkSticks(rs, j + 1);
    }
  }

  /** The values are the results one by one; there is an error exactly
      when one result is an error. */
  lemma {:induction false} AllOkAt<T>(rs: seq<Result<T>>)
    ensures AllOk(rs).Err? <==> exists i :: 0 <= i < |rs| && rs[i].Err?
    ensures AllOk(rs).Ok? ==> |AllOk(rs).value| == |rs| && forall i :: 0 <= i < |rs| ==> rs[i] == Ok(AllOk(rs).value[i])
  {
    if rs != [] {
      var p := rs[..|rs| - 1];
      AllOkAt(p);
      assert forall i :: 0 <= i < |p| ==> p[i] == rs[i];
    }
  }

  lemma AllOkStop<T>(rs: seq<Result<T>>, i: nat)
    requires i < |rs| && AllOk(rs[..i]).Ok? && rs[i].Err?
    ensures AllOk(rs).Err?
  {
    assert rs[..i + 1][..i] == rs[..i];
    AllOkSticks(rs, i + 1);
  }

  lemma AllOkSnoc<T>(rs: seq<Result<T>>, i: nat)
    requires i < |rs| && AllOk(rs[..i]).Ok? && rs[i].Ok?
    ensures AllOk(rs[..i + 1]) == Ok(AllOk(rs[..i]).value + [rs[i].value])
  {
    assert rs[..i + 1][..i] == rs[..i];
  }

  /** The layers of a splat configuration, in palette order. */
  function LayerSpecs(ls: seq<Element>, res: PP.Resources, schematics: map<string, Schematic>): Result<seq<LayerSpec>>
  {
    AllOk(LayerResults(ls, res, schematics))
  }

  /** Layer i is built from the i-th coloured layer element, with its
      colour, name and generators; building fails exactly when some
      layer's colour or generators fail. */
  lemma LayerSpecsMeaning(ls: seq<Element>, res: PP.Resources, schematics: map<string, Schematic>)
    requires forall e :: e in ls ==> "color" in e.attrs
    ensures LayerSpecs(ls, res, schematics).Err? <==>
            exists i :: 0 <= i < |ls| &&
              (ParseColor(ls[i].attrs["color"], res.colorNames).Err? || GensOf(ls[i], i, res, schematics).Err?)
    ensures var r := LayerSpecs(ls, res, schematics);
            r.Ok? ==> |r.value| == |ls| &&
                      forall i :: 0 <= i < |ls| ==>
                        Ok(r.value[i].color) == ParseColor(ls[i].attrs["color"], res.colorNames) &&
                        r.value[i].name == Attr(ls[i], "name") &&
                        Ok(r.value[i].gens) == GensOf(ls[i], i, res, schematics)
  {
    var rs := LayerResults(ls, res, schematics);
    AllOkAt(rs);
    forall i | 0 <= i < |ls|
      ensures "color" in ls[i].attrs
      ensures rs[i].Err? <==>
              ParseColor(ls[i].attrs["color"], res.colorNames).Err? || GensOf(ls[i], i, res, schematics).Err?
      ensures rs[i].Ok? ==>
                Ok(rs[i].value.color) == ParseColor(ls[i].attrs["color"], res.colorNames) &&
                rs[i].value.name == Attr(ls[i], "name") && Ok(rs[i].value.gens) == GensOf(ls[i], i, res, schematics)
    {
      assert ls[i] in ls;
    }
  }

  function Palette(specs: seq<LayerSpec>): (p: seq<PP.Color>)
    ensures |p| == |specs| && forall i :: 0 <= i < |specs| ==> p[i] == specs[i].color
  {
    if specs == [] then [] else [specs[0].color] + Palette(specs[1..])
  }

  /** The configured generator: the palette-index map (in map coordinates,
      which the world origin offsets), and the layers in palette order. */
  class SplatmappedTerrain {
    const indexMap: (int, int) -> PP.Byte
    const layers: seq<SurfaceLayer>
    const originX: int
    const originZ: int

    ghost predicate Valid()
      reads this, layers
    {
      (forall i, j :: 0 <= i < j < |layers| ==> layers[i] != layers[j]) &&
      (forall i :: 0 <= i < |layers| ==> layers[i].Valid())
    }

    /** The layers hold what the specs describe, with no stream read yet. */
    ghost predicate Built(specs: seq<LayerSpec>)
      reads this, layers
    {
      BuiltFrom(layers, specs)
    }

    constructor (indexMap: (int, int) -> PP.Byte, layers: seq<SurfaceLayer>, originX: int, originZ: int)
      ensures this.indexMap == indexMap && this.layers == layers && this.originX == originX && this.originZ == originZ
    {
      this.indexMap := indexMap;
      this.layers := layers;
      this.originX := originX;
      this.originZ := originZ;
    }

    /** `OnProcessSurface`: the palette index of the column selects the
      layer to run; 255 is no layer. An index beyond the palette is the
      list's out-of-range exception, reported as an error. */
    method OnProcessSurface(dim: Dimension, pos: Coord) returns (r: Result<Option<nat>>)
      requires Valid()
      modifies dim`blocks, dim`biomes, layers
      ensures Valid()
      ensures var i := indexMap(pos.0 - originX, pos.2 - originZ);
              (i == 255 ==> r == Ok(None)) &&
              (i < 255 && i < |layers| ==> r == Ok(Some(i))) &&
              (|layers| <= i < 255 ==> r.Err?) &&
              (r.Ok? && r.value.Some? ==> r.value.value == i < |layers|)
      ensures forall j :: 0 <= j < |layers| ==> layers[j].generators == old(layers[j].generators)
      ensures r.Ok? && r.value.Some? ==>
                var l := layers[r.value.value];
                (dim.blocks, dim.biomes, l.draws) ==
                RunUpTo(dim.env, l.generators, old(l.draws), old(dim.blocks), old(dim.biomes), pos, |l.generators|)
      ensures !(r.Ok? && r.value.Some?) ==> dim.blocks == old(dim.blocks) && dim.biomes == old(dim.biomes)
      ensures forall j :: 0 <= j < |layers| && r != Ok(Some(j)) ==> layers[j].draws == old(layers[j].draws)
    {
      var i := indexMap(pos.0 - originX, pos.2 - originZ);
      if i == 255 {
        return Ok(None);
      }
      if i >= |layers| {
        return Err("ArgumentOutOfRangeException: palette index beyond the layers");
      }
      layers[i].RunGenerator(dim, pos);
      r := Ok(Some(i));
    }
  }

  /** `AddSurfaceGenerator`, `AddSchematicGenerator` or `AddBiomeGenerator`
      by the element's name; other elements are ignored. */
  method AddChild(sl: SurfaceLayer, cs: seq<Element>, j: nat, layer: nat, res: PP.Resources, schematics: map<string, Schematic>,
                  ghost rs: seq<Result<Option<SurfaceGen>>>)
    returns (r: Result<bool>)
    requires rs == ElementGens(cs, layer, res, schematics)
    requires j < |cs| && sl.Valid() && Gathered(rs[..j]) == Ok(sl.generators) && sl.draws == Zeros(|sl.generators|)
    modifies sl
    ensures sl.Valid()
    ensures r.Err? ==> Gathered(rs).Err?
    ensures r.Ok? ==> Gathered(rs[..j + 1]) == Ok(sl.generators) && sl.draws == Zeros(|sl.generators|)
  {
    var c := cs[j];
    ghost var g := ElementGen(c, j, layer, res, schematics);
    assert rs[j] == g;
    if c.name == "surface" {
      r := sl.AddSurfaceGenerator(c, res.perlin);
    } else if c.name == "gen" {
      r := sl.AddSchematicGenerator(c, schematics, res.streams(layer, j));
    } else if c.name == "biome" {
      r := sl.AddBiomeGenerator(c, res.biomeIds);
    } else {
      r := Ok(false);
    }
    assert (r.Err? <==> g.Err?) && sl.generators == old(sl.generators) + Added(g) &&
           sl.draws == old(sl.draws) + Zeros(|Added(g)|);
    ZerosAppend(|old(sl.generators)|, |Added(g)|);
    if r.Err? {
      GatheredStop(rs, j);
    } else {
      GatheredSnoc(rs, j);
    }
  }

  /** Builds one layer from its element (after its colour has been read). */
  method BuildLayer(sl: SurfaceLayer, e: Element, layer: nat, res: PP.Resources, schematics: map<string, Schematic>)
    returns (r: Result<bool>)
    requires sl.Valid() && sl.generators == [] && sl.draws == []
    modifies sl
    ensures sl.Valid()
    ensures r.Err? <==> GensOf(e, layer, res, schematics).Err?
    ensures r.Ok? ==> Ok(sl.generators) == GensOf(e, layer, res, schematics) && sl.draws == Zeros(|sl.generators|)
  {
    ghost var rs := ElementGens(e.children, layer, res, schematics);
    var j := 0;
    while j < |e.children|
      invariant 0 <= j <= |e.children|
      invariant sl.Valid()
      invariant Gathered(rs[..j]) == Ok(sl.generators)
      invariant sl.draws == Zeros(|sl.generators|)
    {
      var a := AddChild(sl, e.children, j, layer, res, schematics, rs);
      if a.Err? {
        return Err(a.msg);
      }
      j := j + 1;
    }
    assert rs[..j] == rs;
    return Ok(true);
  }

  /** The constructor: the map file is required; every coloured layer is
      built in order (a layer without a colour is reported and skipped);
      the index map is the image's palette indexing with the layer colours
      and the dither limit. */
  method Create(xml: Element, rootPath: string, res: PP.Resources, schematics: map<string, Schematic>,
                ditherLimit: int, offsetX: int, offsetZ: int)
    returns (r: Result<SplatmappedTerrain>)
    ensures "file" !in xml.attrs ==> r.Err?
    ensures "file" in xml.attrs ==>
              var path := Paths.Combine(rootPath, xml.attrs["file"]);
              var ls := Coloured(ChildrenNamed(xml.children, "layer"));
              (r.Ok? <==> LayerSpecs(ls, res, schematics).Ok? && path in res.images)
    ensures r.Ok? ==>
              "file" in xml.attrs &&
              var path := Paths.Combine(rootPath, xml.attrs["file"]);
              var ls := Coloured(ChildrenNamed(xml.children, "layer"));
              var specs := LayerSpecs(ls, res, schematics);
              specs.Ok? && path in res.images &&
              fresh(r.value) && r.value.Valid() && r.value.Built(specs.value) &&
              r.value.originX == offsetX && r.value.originZ == offsetZ &&
              forall x, z :: r.value.indexMap(x, z) == res.images[path].indexed(Palette(specs.value), ditherLimit, x, z)
  {
    if "file" !in xml.attrs {
      return Err("NullReferenceException: splat map without 'file'");
    }
    var path := Paths.Combine(rootPath, xml.attrs["file"]);
    var built := BuildLayers(Coloured(ChildrenNamed(xml.children, "layer")), res, schematics);
    if built.Err? {
      return Err(built.msg);
    }
    var (layers, specs) := built.value;
    if path !in res.images {
      return Err("FileNotFoundException: " + path);
    }
    var img := res.images[path];
    var palette := Palette(specs);
    var st := new SplatmappedTerrain((x, z) => img.indexed(palette, ditherLimit, x, z), layers, offsetX, offsetZ);
    r := Ok(st);
  }

  /** One iteration of the constructor's layer loop: a new layer with the
      colour and name of element i, and its generators. */
  method NewLayer(ls: seq<Element>, i: nat, res: PP.Resources, schematics: map<string, Schematic>,
                  ghost rs: seq<Result<LayerSpec>>, ghost others: seq<SurfaceLayer>)
    returns (r: Result<SurfaceLayer>)
    requires i < |ls| && rs == LayerResults(ls, res, schematics)
    ensures r.Err? <==> rs[i].Err?
    ensures r.Ok? ==> fresh(r.value) && r.value !in others && r.value.Valid() &&
                      rs[i] == Ok(LayerSpec(r.value.layerColor, r.value.name, r.value.generators)) &&
                      r.value.draws == Zeros(|r.value.generators|)
  {
    var e := ls[i];
    assert rs[i] == LayerOf(e, i, res, schematics);
    if "color" !in e.attrs {
      return Err("layer is missing required attribute 'color'");
    }
    var c := ParseColor(e.attrs["color"], res.colorNames);
    if c.Err? {
      return Err(c.msg);
    }
    var sl := new SurfaceLayer(c.value, Attr(e, "name"));
    var b := BuildLayer(sl, e, i, res, schematics);
    if b.Err? {
      return Err(b.msg);
    }
    r := Ok(sl);
  }

  /** The layer loop of the constructor. */
  method BuildLayers(ls: seq<Element>, res: PP.Resources, schematics: map<string, Schematic>)
    returns (r: Result<(seq<SurfaceLayer>, seq<LayerSpec>)>)
    ensures r.Err? <==> LayerSpecs(ls, res, schematics).Err?
    ensures r.Ok? ==> LayerSpecs(ls, res, schematics) == Ok(r.value.1) && BuiltFrom(r.value.0, r.value.1) &&
                      forall a :: 0 <= a < |r.value.0| ==> fresh(r.value.0[a])
  {
    ghost var rs := LayerResults(ls, res, schematics);
    var layers: seq<SurfaceLayer> := [];
    var specs: seq<LayerSpec> := [];
    var i := 0;
    while i < |ls|
      invariant 0 <= i <= |ls|
      invariant AllOk(rs[..i]) == Ok(specs)
      invariant BuiltFrom(layers, specs)
      invariant forall a :: 0 <= a < |layers| ==> fresh(layers[a])
    {
      var sl := NewLayer(ls, i, res, schematics, rs, layers);
      if sl.Err? {
        AllOkStop(rs, i);
        return Err(sl.msg);
      }
      var spec := LayerSpec(sl.value.layerColor, sl.value.name, sl.value.generators);
      AllOkSnoc(rs, i);
      BuiltFromSnoc(layers, specs, sl.value, spec);
      specs := specs + [spec];
      layers := layers + [sl.value];
      i := i + 1;
    }
    assert rs[..i] == rs;
    return Ok((layers, specs));
  }

  lemma BuiltFromSnoc(layers: seq<SurfaceLayer>, specs: seq<LayerSpec>, sl: SurfaceLayer, spec: LayerSpec)
    requires BuiltFrom(layers, specs) && sl !in layers && sl.Valid()
    requires spec == LayerSpec(sl.layerColor, sl.name, sl.generators) && sl.draws == Zeros(|sl.generators|)
    ensures BuiltFrom(layers + [sl], specs + [spec])
  {
  }

  /** Distinct, valid layers holding what the specs describe, with no
      stream read yet. */
  ghost predicate BuiltFrom(layers: seq<SurfaceLayer>, specs: seq<LayerSpec>)
    reads layers
  {
    |layers| == |specs| &&
    (forall a, b :: 0 <= a < b < |layers| ==> layers[a] != layers[b]) &&
    forall a :: 0 <= a < |layers| ==>
      layers[a].Valid() && layers[a].layerColor == specs[a].color && layers[a].name == specs[a].name &&
      layers[a].generators == specs[a].gens && layers[a].draws == Zeros(|specs[a].gens|)
  }
}
