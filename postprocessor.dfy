/** What every generator of the decoration chain shares: its run mode and
    priority, its defaults, the optional single-channel mask that gates its
    hooks, and the weightmap that dispatches its splat layers. */
module PostProcessor {
  import opened Common
  import opened Xml
  import Paths
  import W = World

  /** Which sweeps of the chain call a generator's hooks. */
  datatype PostProcessType = RegionOnly | Block | Surface | Both

  predicate RunsBlockHook(t: PostProcessType) { t == Block || t == Both }
  predicate RunsSurfaceHook(t: PostProcessType) { t == Surface || t == Both }

  datatype Priority = First | AfterFirst | BeforeDefault | Default | AfterDefault | BeforeLast | Last

  /** The enum's underlying value. */
  function Ordinal(p: Priority): (n: nat)
    ensures n <= 6
    ensures n == 0 <==> p == First
    ensures n == 6 <==> p == Last
  {
    match p
    case First => 0
    case AfterFirst => 1
    case BeforeDefault => 2
    case Default => 3
    case AfterDefault => 4
    case BeforeLast => 5
    case Last => 6
  }

  /** Distinct priorities have distinct values, and the values follow the
      order in which the enum lists them. */
  lemma OrdinalsOrdered(p: Priority, q: Priority)
    ensures Ordinal(p) == Ordinal(q) ==> p == q
    ensures Ordinal(First) < Ordinal(AfterFirst) < Ordinal(BeforeDefault) < Ordinal(Default)
            < Ordinal(AfterDefault) < Ordinal(BeforeLast) < Ordinal(Last)
  {
  }

  /** The values a generator has unless it overrides them. */
  const DefaultPriority: Priority := Default
  const DefaultYMin: int := 0
  const DefaultYMax: int := 255
  const DefaultPasses: nat := 1

  datatype ColorChannel = Red | Green | Blue | Alpha

  function ChannelIndex(c: ColorChannel): (i: nat)
    ensures i < 4
  {
    match c
    case Red => 0
    case Green => 1
    case Blue => 2
    case Alpha => 3
  }

  /** A loaded image file, as the image library presents it: the value in
      [0, 1] of each channel at each pixel, and the palette index it
      assigns each pixel given a palette and a dither limit (255 where no
      palette colour matches). */
  datatype Image = Image(
    channel: (int, int, int) -> real,
    indexed: (seq<Color>, int, int, int) -> Byte)

  type Byte = b: int | 0 <= b < 256

  datatype Color = Color(a: int, r: int, g: int, b: int)

  /** Everything the configuration reader loads from disk or from the
      libraries, as given inputs: parsed XML files, images, raw heightmaps
      and structure files by path; the biome enum's names by value; the
      splat colour names; the noise field of a Perlin generator of a given
      scale; and the private random stream of the j-th structure generator
      of the i-th splat layer. */
  datatype Resources = Resources(
    xmlFiles: map<string, Element>,
    images: map<string, Image>,
    heightmaps: map<string, (int, int) -> Byte>,
    schematicFiles: map<string, W.Schematic>,
    biomeIds: map<int, string>,
    colorNames: map<string, Color>,
    perlin: real -> ((int, int) -> real),
    streams: (nat, nat) -> (nat -> W.Unit))

  /** A float weightmap: a value per column and channel, in world-origin
      relative coordinates for a mask, in the coordinates the map was
      created for otherwise. */
  datatype Weightmap = Weightmap(value: (int, int, int) -> real)

  /** The configuration attribute of a mask, lower-cased, selects a
      channel; a missing or unknown value selects red. */
  function MaskChannel(attr: Option<string>): (c: ColorChannel)
    ensures c == Green <==> attr.Some? && Lower(attr.value) in {"g", "green"}
    ensures c == Blue <==> attr.Some? && Lower(attr.value) in {"b", "blue"}
    ensures c == Alpha <==> attr.Some? && Lower(attr.value) in {"a", "alpha"}
  {
    var a := if attr.Some? then Lower(attr.value) else "";
    if a == "g" || a == "green" then Green
    else if a == "b" || a == "blue" then Blue
    else if a == "a" || a == "alpha" then Alpha
    else Red
  }

  /** Channel names are matched without regard to case. */
  lemma {:induction false} LowerIdempotent(s: string)
    ensures Lower(Lower(s)) == Lower(s)
  {
    if s != [] {
      LowerIdempotent(s[1..]);
      assert Lower(Lower(s)) == [LowerChar(LowerChar(s[0]))] + Lower(Lower(s[1..]));
    }
  }

  lemma MaskChannelIgnoresCase(s: string)
    ensures MaskChannel(Some(Lower(s))) == MaskChannel(Some(s))
  {
    LowerIdempotent(s);
  }

  /** The mask a generator loads: only when there is a `mask` element and a
      root path; the element's text names the image relative to the root. */
  function LoadMask(xml: Element, rootPath: Option<string>, images: map<string, Image>): (r: Result<Option<Weightmap>>)
    ensures (Child(xml, "mask").None? || rootPath.None?) ==> r == Ok(None)
    ensures r.Ok? && r.value.Some? ==>
              Child(xml, "mask").Some? && rootPath.Some? &&
              Paths.Combine(rootPath.value, Child(xml, "mask").value.text) in images &&
              var img := images[Paths.Combine(rootPath.value, Child(xml, "mask").value.text)];
              var ch := ChannelIndex(MaskChannel(Attr(Child(xml, "mask").value, "channel")));
              forall x, z :: r.value.value.value(x, z, 0) == img.channel(x, z, ch)
  {
    match Child(xml, "mask")
    case None => Ok(None)
    case Some(m) =>
      if rootPath.None? then Ok(None)
      else
        var path := Paths.Combine(rootPath.value, m.text);
        if path !in images then Err("FileNotFoundException: " + path)
        else
          var ch := ChannelIndex(MaskChannel(Attr(m, "channel")));
          Ok(Some(SingleChannelMap(images[path], ch)))
  }

  /** The map of one channel of an image, created at offset zero. */
  function SingleChannelMap(img: Image, ch: nat): (wm: Weightmap)
    ensures forall x, z :: wm.value(x, z, 0) == img.channel(x, z, ch)
  {
    Weightmap((x, z, c) => img.channel(x, z, ch))
  }

  /** The mask and world-origin offset every generator carries. */
  datatype Base = Base(mask: Option<Weightmap>, originX: int, originZ: int)

  /** The value a hook receives: 1 with no mask, otherwise the mask at the
      column relative to the world origin. */
  function MaskValue(b: Base, x: int, z: int): (v: real)
    ensures b.mask.None? ==> v == 1.0
    ensures b.mask.Some? ==> v == b.mask.value.value(x - b.originX, z - b.originZ, 0)
  {
    match b.mask
    case None => 1.0
    case Some(m) => m.value(x - b.originX, z - b.originZ, 0)
  }

  /** A hook runs only where the mask value is positive. */
  predicate HookRuns(b: Base, x: int, z: int)
  {
    MaskValue(b, x, z) > 0.0
  }

  lemma UnmaskedAlwaysRuns(b: Base, x: int, z: int)
    requires b.mask.None?
    ensures HookRuns(b, x, z)
  {
  }

  /** The weightmap layer key of a child element's lower-cased name. */
  function LayerChannel(name: string): (k: Option<int>)
    ensures k.Some? ==> -1 <= k.value <= 3
  {
    if name == "r" || name == "red" then Some(0)
    else if name == "g" || name == "green" then Some(1)
    else if name == "b" || name == "blue" then Some(2)
    else if name == "a" || name == "alpha" then Some(3)
    else if name == "n" || name == "none" then Some(-1)
    else None
  }

  /** The keys of a layer list. */
  function Keys<L>(ls: seq<(int, L)>): (ks: seq<int>)
    ensures |ks| == |ls| && forall i :: 0 <= i < |ls| ==> ks[i] == ls[i].0
  {
    if ls == [] then [] else [ls[0].0] + Keys(ls[1..])
  }

  /** The key a child element registers under. */
  function ChildKey(e: Element): Option<int>
  {
    LayerChannel(Lower(e.name))
  }

  /** The registration loop: each child's key in turn, rejecting unknown
      names and keys registered before. */
  function RegisterLayers<L>(cs: seq<L>, key: L -> Option<int>, acc: seq<(int, L)>): Result<seq<(int, L)>>
    decreases |cs|
  {
    if cs == [] then Ok(acc)
    else
      match key(cs[0])
      case None => Err("Unknown channel name")
      case Some(k) =>
        if k in Keys(acc) then Err("An item with the same key has already been added")
        else RegisterLayers(cs[1..], key, acc + [(k, cs[0])])
  }

  predicate DistinctKeys<L>(ls: seq<(int, L)>)
  {
    forall i, j :: 0 <= i < j < |ls| ==> ls[i].0 != ls[j].0
  }

  /** A successful registration keeps every element, in order, under keys
      that are distinct and are the elements' own keys. */
  lemma {:induction false} RegisterLayersOk<L>(cs: seq<L>, key: L -> Option<int>, acc: seq<(int, L)>)
    requires DistinctKeys(acc)
    requires RegisterLayers(cs, key, acc).Ok?
    ensures var ls := RegisterLayers(cs, key, acc).value;
            |ls| == |acc| + |cs| && ls[..|acc|] == acc && DistinctKeys(ls) &&
            forall i :: 0 <= i < |cs| ==> ls[|acc| + i].1 == cs[i] && key(cs[i]) == Some(ls[|acc| + i].0)
  {
    if cs != [] {
      var k := key(cs[0]).value;
      var acc' := acc + [(k, cs[0])];
      KeysAppend(acc, k, cs[0]);
      RegisterLayersOk(cs[1..], key, acc');
      var ls := RegisterLayers(cs, key, acc).value;
      assert ls == RegisterLayers(cs[1..], key, acc').value;
      forall i | 0 <= i < |cs|
        ensures ls[|acc| + i].1 == cs[i] && key(cs[i]) == Some(ls[|acc| + i].0)
      {
        if i > 0 {
          assert cs[1..][i - 1] == cs[i];
          assert |acc'| + (i - 1) == |acc| + i;
        } else {
          assert ls[..|acc'|] == acc';
          assert ls[|acc|] == acc'[|acc|];
        }
      }
      assert ls[..|acc|] == ls[..|acc'|][..|acc|];
    }
  }

  /** A child with an unknown name makes the registration fail. */
  lemma {:induction false} RegisterLayersUnknown<L>(cs: seq<L>, key: L -> Option<int>, acc: seq<(int, L)>, i: nat)
    requires i < |cs| && key(cs[i]).None?
    ensures RegisterLayers(cs, key, acc).Err?
  {
    if i > 0 && key(cs[0]).Some? && key(cs[0]).value !in Keys(acc) {
      var acc' := acc + [(key(cs[0]).value, cs[0])];
      assert cs[1..][i - 1] == cs[i];
      RegisterLayersUnknown(cs[1..], key, acc', i - 1);
    }
  }

  /** Two children naming the same channel make the registration fail. */
  lemma {:induction false} RegisterLayersDuplicate<L>(cs: seq<L>, key: L -> Option<int>, acc: seq<(int, L)>, i: nat, j: nat)
    requires i < j < |cs|
    requires key(cs[i]).Some? && key(cs[i]) == key(cs[j])
    ensures RegisterLayers(cs, key, acc).Err?
  {
    var k0 := key(cs[0]);
    if k0.Some? && k0.value !in Keys(acc) {
      var acc' := acc + [(k0.value, cs[0])];
      assert cs[1..][j - 1] == cs[j];
      if i == 0 {
        assert Keys(acc')[|acc|] == k0.value;
        RegisterLayersKeyKept(cs[1..], key, acc', |acc|, j - 1);
      } else {
        assert cs[1..][i - 1] == cs[i];
        RegisterLayersDuplicate(cs[1..], key, acc', i - 1, j - 1);
      }
    }
  }

  /** A key already registered stays registered: a later child naming it fails. */
  lemma {:induction false} RegisterLayersKeyKept<L>(cs: seq<L>, key: L -> Option<int>, acc: seq<(int, L)>, p: nat, j: nat)
    requires p < |acc| && j < |cs|
    requires key(cs[j]) == Some(acc[p].0)
    ensures RegisterLayers(cs, key, acc).Err?
  {
    var k0 := key(cs[0]);
    if j == 0 {
      assert Keys(acc)[p] == acc[p].0;
    } else if k0.Some? && k0.value !in Keys(acc) {
      var acc' := acc + [(k0.value, cs[0])];
      assert cs[1..][j - 1] == cs[j];
      RegisterLayersKeyKept(cs[1..], key, acc', p, j - 1);
    }
  }

  /** The outcome of reading a weightmap configuration: no `weightmap`
      element gives no map and no layers; otherwise the RGBA map its `file`
      attribute names (relative to the root) and the registered layers. */
  function WeightmapLayers(rootPath: Option<string>, xml: Element, offX: int, offZ: int, images: map<string, Image>)
    : Result<Option<(Weightmap, seq<(int, Element)>)>>
  {
    match Child(xml, "weightmap")
    case None => Ok(None)
    case Some(m) =>
      if "file" !in m.attrs then Err("NullReferenceException: weightmap without file")
      else if rootPath.None? then Err("ArgumentNullException: path")
      else
        var path := Paths.Combine(rootPath.value, m.attrs["file"]);
        if path !in images then Err("FileNotFoundException: " + path)
        else
          var img := images[path];
          var wm := RgbaMap(img, offX, offZ);
          match RegisterLayers(m.children, ChildKey, [])
          case Err(e) => Err(e)
          case Ok(ls) => Ok(Some((wm, ls)))
  }

  /** The RGBA weightmap of an image created at the given offsets. */
  function RgbaMap(img: Image, offX: int, offZ: int): (wm: Weightmap)
    ensures forall x, z, c :: wm.value(x, z, c) == img.channel(x - offX, z - offZ, c)
  {
    Weightmap((x, z, c) => img.channel(x - offX, z - offZ, c))
  }

  /** `LoadWeightmapAndLayers`: the configuration checks, then the layer
      dictionary filled one child at a time. */
  method LoadWeightmapAndLayers(rootPath: Option<string>, xml: Element, offX: int, offZ: int, images: map<string, Image>)
    returns (r: Result<Option<(Weightmap, seq<(int, Element)>)>>)
    ensures r == WeightmapLayers(rootPath, xml, offX, offZ, images)
    ensures Child(xml, "weightmap").None? ==> r == Ok(None)
  {
    var m := Child(xml, "weightmap");
    if m.None? {
      return Ok(None);
    }
    var e := m.value;
    if "file" !in e.attrs {
      return Err("NullReferenceException: weightmap without file");
    }
    if rootPath.None? {
      return Err("ArgumentNullException: path");
    }
    var path := Paths.Combine(rootPath.value, e.attrs["file"]);
    if path !in images {
      return Err("FileNotFoundException: " + path);
    }
    var wm := RgbaMap(images[path], offX, offZ);
    var layers := RegisterLayerLoop(e.children);
    match layers
    case Err(msg) => r := Err(msg);
    case Ok(ls) => r := Ok(Some((wm, ls)));
  }

  /** Appending a new key keeps the keys distinct. */
  lemma KeysAppend<L>(acc: seq<(int, L)>, k: int, e: L)
    requires DistinctKeys(acc) && k !in Keys(acc)
    ensures DistinctKeys(acc + [(k, e)]) && Keys(acc + [(k, e)]) == Keys(acc) + [k]
  {
    forall p | 0 <= p < |acc| ensures acc[p].0 != k { assert Keys(acc)[p] == acc[p].0; }
  }

  /** The registration loop, whose keys come out distinct and in range. */
  method RegisterLayerLoop(cs: seq<Element>) returns (r: Result<seq<(int, Element)>>)
    ensures r == RegisterLayers(cs, ChildKey, [])
    ensures r.Ok? ==> DistinctKeys(r.value) && forall k :: k in Keys(r.value) ==> -1 <= k <= 3
  {
    var layers: seq<(int, Element)> := [];
    var i := 0;
    while i < |cs|
      invariant 0 <= i <= |cs|
      invariant RegisterLayers(cs[i..], ChildKey, layers) == RegisterLayers(cs, ChildKey, [])
      invariant DistinctKeys(layers) && forall k :: k in Keys(layers) ==> -1 <= k <= 3
    {
      var child := cs[i];
      var name := Lower(child.name);
      var key := LayerChannel(name);
      assert cs[i..][0] == child && cs[i..][1..] == cs[i + 1..];
      assert key == ChildKey(cs[i..][0]);
      if key.None? {
        return Err("Unknown channel name");
      }
      if key.value in Keys(layers) {
        return Err("An item with the same key has already been added");
      }
      KeysAppend(layers, key.value, child);
      layers := layers + [(key.value, child)];
      i := i + 1;
    }
    assert cs[i..] == [];
    r := Ok(layers);
  }

  /** The mask a splat layer runs with: the generator's own for the "none"
      key, scaled by the layer's channel of the weightmap otherwise. */
  function LayerMask(key: int, mask: real, wm: Option<Weightmap>, x: int, z: int): (v: real)
    ensures key <= -1 ==> v == mask
    ensures key > -1 && wm.Some? ==> v == mask * wm.value.value(x, z, key)
  {
    if key > -1 && wm.Some? then mask * wm.value.value(x, z, key) else mask
  }

  const LayerThreshold: real := 0.001

  /** The positions, in dictionary order from `from`, of the layers that run
      in a column. */
  function ActiveLayers(keys: seq<int>, from: nat, mask: real, wm: Option<Weightmap>, x: int, z: int): (r: seq<nat>)
    requires from <= |keys|
    ensures forall i :: i in r <==> from <= i < |keys| && LayerMask(keys[i], mask, wm, x, z) > LayerThreshold
    ensures forall a :: 0 <= a < |r| ==> from <= r[a] < |keys|
    ensures forall a, b :: 0 <= a < b < |r| ==> r[a] < r[b]
    decreases |keys| - from
  {
    if from == |keys| then []
    else
      var rest := ActiveLayers(keys, from + 1, mask, wm, x, z);
      if LayerMask(keys[from], mask, wm, x, z) > LayerThreshold then [from] + rest else rest
  }
}
