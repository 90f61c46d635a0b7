/** The decoration chain: the configuration's tags become generators in
    list order, an include splices one further file in (one level only),
    schematics are registered by key, and decoration runs every generator's
    passes, each a block sweep, a surface sweep and a region pass, before
    every generator is finished in list order. */
module Chain {
  import opened Common
  import opened Xml
  import Paths
  import opened World
  import PP = PostProcessor
  import Bedrock
  import Torches
  import Natural
  import WaterLevel
  import Snow
  import Thaw
  import Vegetation
  import Splat
  import OreGen
  import Caves

  /** The generator classes the configuration can name. */
  datatype Kind =
    | SplatGen | WaterGen | MergerGen | OresGen | SnowGen | DeiceGen
    | NaturalizeGen | VegetationGen | TorchesGen | CavesGen | BedrockGen | AnalysisGen

  /** The lower-case tag that creates a generator of each kind. */
  function TagName(k: Kind): string
  {
    match k
    case SplatGen => "splat"
    case WaterGen => "water"
    case MergerGen => "merger"
    case OresGen => "ores"
    case SnowGen => "snow"
    case DeiceGen => "deice"
    case NaturalizeGen => "naturalize"
    case VegetationGen => "vegetation"
    case TorchesGen => "torches"
    case CavesGen => "caves"
    case BedrockGen => "bedrock"
    case AnalysisGen => "analysis"
  }

  /** The kind a lower-cased tag names, if any. */
  function KindOf(name: string): (r: Option<Kind>)
    ensures r.Some? ==> TagName(r.value) == name
    ensures r.None? ==> forall k: Kind :: TagName(k) != name
  {
    if name == "splat" then Some(SplatGen)
    else if name == "water" then Some(WaterGen)
    else if name == "merger" then Some(MergerGen)
    else if name == "ores" then Some(OresGen)
    else if name == "snow" then Some(SnowGen)
    else if name == "deice" then Some(DeiceGen)
    else if name == "naturalize" then Some(NaturalizeGen)
    else if name == "vegetation" then Some(VegetationGen)
    else if name == "torches" then Some(TorchesGen)
    else if name == "caves" then Some(CavesGen)
    else if name == "bedrock" then Some(BedrockGen)
    else if name == "analysis" then Some(AnalysisGen)
    else None
  }

  /** Every kind has its own tag, and no tag is "include". */
  lemma TagsDistinct(k: Kind, g: Kind)
    ensures KindOf(TagName(k)) == Some(k)
    ensures TagName(k) == TagName(g) ==> k == g
    ensures TagName(k) != "include"
  {
  }

  /** The settings the chain reads from a generator: which sweeps call it,
      how many passes it gets and the y-range of its block sweep. */
  datatype Settings = Settings(mode: PP.PostProcessType, passes: nat, yMin: int, yMax: int)

  datatype Generator = Generator(kind: Kind, settings: Settings, base: PP.Base)

  /** What loading needs from outside: the exception a generator's own
      constructor throws, given its element, its root path and the
      schematics registered so far (a splat layer's `schem` lookup reads
      them; the constructors' cases are modelled in their own modules and
      are not composed here), the settings of the merger generator (its class is not part of this
      model), reading and parsing an XML file, loading a schematic file,
      the bundled default configuration, the images masks are read from and
      the world-origin offset handed to every generator. */
  datatype Loader = Loader(
    fails: (Kind, Element, string, map<string, Schematic>) -> Option<string>,
    merger: Settings,
    readXml: string -> Result<Element>,
    schematic: string -> Option<Schematic>,
    defaultConfig: Result<Element>,
    images: map<string, PP.Image>,
    offX: int,
    offZ: int)

  /** The block-analysis generator: region passes only, no mask. */
  const AnalysisSettings: Settings := Settings(PP.RegionOnly, PP.DefaultPasses, PP.DefaultYMin, PP.DefaultYMax)
  const Analysis: Generator := Generator(AnalysisGen, AnalysisSettings, PP.Base(None, 0, 0))

  /** Each kind's overrides of the generator defaults. */
  function SettingsOf(ld: Loader, k: Kind): Settings
  {
    var d := PP.DefaultPasses;
    match k
    case SplatGen => Settings(Splat.Mode, d, PP.DefaultYMin, PP.DefaultYMax)
    case WaterGen => Settings(WaterLevel.Mode, d, PP.DefaultYMin, PP.DefaultYMax)
    case MergerGen => ld.merger
    case OresGen => Settings(OreGen.Mode, d, PP.DefaultYMin, PP.DefaultYMax)
    case SnowGen => Settings(Snow.Mode, d, PP.DefaultYMin, PP.DefaultYMax)
    case DeiceGen => Settings(Thaw.Mode, d, PP.DefaultYMin, PP.DefaultYMax)
    case NaturalizeGen => Settings(Natural.Mode, d, PP.DefaultYMin, PP.DefaultYMax)
    case VegetationGen => Settings(Vegetation.Mode, d, PP.DefaultYMin, PP.DefaultYMax)
    case TorchesGen => Settings(Torches.Mode, d, PP.DefaultYMin, PP.DefaultYMax)
    case CavesGen => Settings(Caves.Mode, d, Caves.BlockProcessYMin, Caves.BlockProcessYMax)
    case BedrockGen => Settings(Bedrock.Mode, d, Bedrock.YMin, Bedrock.YMax(Bedrock.Default))
    case AnalysisGen => AnalysisSettings
  }

  /** A generator's constructor: the shared part loads the mask first, then
      the generator's own part may throw. The analysis generator is built
      without a root path, so it never has a mask, and it cannot fail. The
      own part sees the schematics registered before the element. */
  function Construct(ld: Loader, k: Kind, e: Element, root: string, s: map<string, Schematic>): (r: Result<Generator>)
    ensures r.Ok? ==> r.value.kind == k && r.value.settings == SettingsOf(ld, k)
    ensures k == AnalysisGen ==> r == Ok(Analysis)
    ensures k != AnalysisGen && PP.LoadMask(e, Some(root), ld.images).Err? ==> r.Err?
    ensures k != AnalysisGen && ld.fails(k, e, root, s).Some? ==> r.Err?
  {
    if k == AnalysisGen then Ok(Analysis)
    else
      match PP.LoadMask(e, Some(root), ld.images)
      case Err(msg) => Err(msg)
      case Ok(mask) =>
        match ld.fails(k, e, root, s)
        case Some(msg) => Err(msg)
        case None => Ok(Generator(k, SettingsOf(ld, k), PP.Base(mask, ld.offX, ld.offZ)))
  }

  // ---------------------------------------------------------------------
  // Schematics

  /** `RegisterStructure`: a key already taken or a file that does not load
      is skipped (the exception is caught and only warned about). */
  function Register(ld: Loader, s: map<string, Schematic>, filename: string, key: string): (r: map<string, Schematic>)
    ensures forall k :: k in s ==> k in r && r[k] == s[k]
    ensures forall k :: k in r ==> k in s || k == key
    ensures key in r <==> key in s || ld.schematic(filename).Some?
    ensures key !in s && ld.schematic(filename).Some? ==> r[key] == ld.schematic(filename).value
  {
    match ld.schematic(filename)
    case None => s
    case Some(sc) => if key in s then s else s[key := sc]
  }

  /** A child element per schematic: its name is the key, its text the file
      relative to the root. */
  function RegisterAll(ld: Loader, s: map<string, Schematic>, es: seq<Element>, root: string): map<string, Schematic>
    decreases |es|
  {
    if es == [] then s
    else RegisterAll(ld, Register(ld, s, Paths.Combine(root, es[0].text), es[0].name), es[1..], root)
  }

  /** Every container's children, container by container. */
  function RegisterContainers(ld: Loader, s: map<string, Schematic>, cs: seq<Element>, root: string): map<string, Schematic>
    decreases |cs|
  {
    if cs == [] then s else RegisterContainers(ld, RegisterAll(ld, s, cs[0].children, root), cs[1..], root)
  }

  /** Registration never drops or replaces a schematic, and it only adds
      keys that some element names. */
  lemma {:induction false} RegisterAllKeeps(ld: Loader, s: map<string, Schematic>, es: seq<Element>, root: string)
    ensures var r := RegisterAll(ld, s, es, root);
            (forall k :: k in s ==> k in r && r[k] == s[k]) &&
            (forall k :: k in r && k !in s ==> exists i :: 0 <= i < |es| && es[i].name == k)
    decreases |es|
  {
    if es != [] {
      var s1 := Register(ld, s, Paths.Combine(root, es[0].text), es[0].name);
      RegisterAllKeeps(ld, s1, es[1..], root);
      var r := RegisterAll(ld, s, es, root);
      forall k | k in r && k !in s ensures exists i :: 0 <= i < |es| && es[i].name == k
      {
        if k in s1 {
          assert es[0].name == k;
        } else {
          var i :| 0 <= i < |es[1..]| && es[1..][i].name == k;
          assert es[i + 1].name == k;
        }
      }
    }
  }

  lemma {:induction false} RegisterContainersKeeps(ld: Loader, s: map<string, Schematic>, cs: seq<Element>, root: string)
    ensures var r := RegisterContainers(ld, s, cs, root);
            forall k :: k in s ==> k in r && r[k] == s[k]
    decreases |cs|
  {
    if cs != [] {
      RegisterAllKeeps(ld, s, cs[0].children, root);
      RegisterContainersKeeps(ld, RegisterAll(ld, s, cs[0].children, root), cs[1..], root);
    }
  }

  // ---------------------------------------------------------------------
  // Loading

  /** The generators and schematics after a step of loading, and the
      exception, if one was thrown, that ended it. */
  datatype Load = Load(gens: seq<Generator>, schematics: map<string, Schematic>, error: Option<string>)

  const MissingFile: string := "KeyNotFoundException: The include's file must be specified with a 'file' attribute"
  const MissingPostprocess: string := "NullReferenceException: no postprocess element"

  /** `LoadGenerator`: a recognised tag appends the generator it names; an
      include (only at the top level) loads the children of another file,
      whose paths are relative to that file's folder; anything else is
      warned about and skipped. */
  function GeneratorLoad(ld: Loader, gens: seq<Generator>, s: map<string, Schematic>, e: Element, fromInclude: bool, root: string): Load
    decreases if fromInclude then 0 else 2, 0
  {
    var name := Lower(e.name);
    match KindOf(name)
    case Some(k) =>
      (match Construct(ld, k, e, root, s)
       case Err(msg) => Load(gens, s, Some(msg))
       case Ok(g) => Load(gens + [g], s, None))
    case None =>
      if name != "include" || fromInclude then Load(gens, s, None)
      else
        match Attr(e, "file")
        case None => Load(gens, s, Some(MissingFile))
        case Some(file) =>
          var path := Paths.Combine(root, file);
          match ld.readXml(path)
          case Err(msg) => Load(gens, s, Some(msg))
          case Ok(inc) => IncludeLoad(ld, gens, s, inc.children, root, Paths.DirectoryName(path))
  }

  /** The children of an included file: a `schematics` child registers its
      children relative to the including root; every other child is loaded
      as coming from an include. */
  function IncludeLoad(ld: Loader, gens: seq<Generator>, s: map<string, Schematic>, cs: seq<Element>, root: string, dir: string): Load
    decreases 1, |cs|
  {
    if cs == [] then Load(gens, s, None)
    else if cs[0].name == "schematics" then
      IncludeLoad(ld, gens, RegisterAll(ld, s, cs[0].children, root), cs[1..], root, dir)
    else
      var l := GeneratorLoad(ld, gens, s, cs[0], true, dir);
      if l.error.Some? then l else IncludeLoad(ld, l.gens, l.schematics, cs[1..], root, dir)
  }

  /** The children of the `postprocess` element, in order, until one throws. */
  function GeneratorsLoad(ld: Loader, gens: seq<Generator>, s: map<string, Schematic>, cs: seq<Element>, root: string): Load
    decreases |cs|
  {
    if cs == [] then Load(gens, s, None)
    else
      var l := GeneratorLoad(ld, gens, s, cs[0], false, root);
      if l.error.Some? then l else GeneratorsLoad(ld, l.gens, l.schematics, cs[1..], root)
  }

  /** `LoadSettings`: every `schematics` element anywhere below the root,
      then the generators of the `postprocess` element. */
  function SettingsLoad(ld: Loader, gens: seq<Generator>, s: map<string, Schematic>, root: Element, folder: string): Load
  {
    var s' := RegisterContainers(ld, s, Descendants(root, "schematics"), folder);
    match Child(root, "postprocess")
    case None => Load(gens, s', Some(MissingPostprocess))
    case Some(p) => GeneratorsLoad(ld, gens, s', p.children, folder)
  }

  /** A recognised tag appends exactly the one generator its constructor
      builds, of the kind the tag names, or throws and appends nothing. */
  lemma TagAppendsOne(ld: Loader, gens: seq<Generator>, s: map<string, Schematic>, e: Element, fromInclude: bool, root: string, k: Kind)
    requires Lower(e.name) == TagName(k)
    ensures var r := GeneratorLoad(ld, gens, s, e, fromInclude, root);
            r.schematics == s &&
            (r.error.None? <==> Construct(ld, k, e, root, s).Ok?) &&
            (r.error.None? ==> |r.gens| == |gens| + 1 && r.gens[..|gens|] == gens && r.gens[|gens|].kind == k) &&
            (r.error.Some? ==> r.gens == gens)
  {
    assert KindOf(Lower(e.name)) == Some(k);
    var r := GeneratorLoad(ld, gens, s, e, fromInclude, root);
    if r.error.None? {
      assert r.gens[..|gens|] == gens;
    }
  }

  /** A tag that names no generator and is no include changes nothing. */
  lemma UnknownTagIgnored(ld: Loader, gens: seq<Generator>, s: map<string, Schematic>, e: Element, fromInclude: bool, root: string)
    requires Lower(e.name) != "include"
    requires forall k: Kind :: TagName(k) != Lower(e.name)
    ensures GeneratorLoad(ld, gens, s, e, fromInclude, root) == Load(gens, s, None)
  {
  }

  /** An include inside an included file is refused: nothing changes and
      nothing is thrown. */
  lemma NestedIncludeIgnored(ld: Loader, gens: seq<Generator>, s: map<string, Schematic>, e: Element, root: string)
    requires Lower(e.name) == "include"
    ensures GeneratorLoad(ld, gens, s, e, true, root) == Load(gens, s, None)
  {
    assert KindOf("include").None?;
  }

  /** A top-level include without a `file` attribute throws and changes
      nothing. */
  lemma IncludeWithoutFileThrows(ld: Loader, gens: seq<Generator>, s: map<string, Schematic>, e: Element, root: string)
    requires Lower(e.name) == "include" && "file" !in e.attrs
    ensures GeneratorLoad(ld, gens, s, e, false, root) == Load(gens, s, Some(MissingFile))
  {
    assert KindOf("include").None?;
  }

  /** The generators the children of an included file append when no
      constructor throws: one per recognised tag, in order; nested includes
      and unknown tags append none, `schematics` children none but register
      their children, relative to the including root, for the children
      after them. */
  function IncludedGens(ld: Loader, s: map<string, Schematic>, cs: seq<Element>, root: string, dir: string): seq<Generator>
    decreases |cs|
  {
    if cs == [] then []
    else if cs[0].name == "schematics" then IncludedGens(ld, RegisterAll(ld, s, cs[0].children, root), cs[1..], root, dir)
    else
      var rest := IncludedGens(ld, s, cs[1..], root, dir);
      match KindOf(Lower(cs[0].name))
      case None => rest
      case Some(k) => if Construct(ld, k, cs[0], dir, s).Ok? then [Construct(ld, k, cs[0], dir, s).value] + rest else rest
  }

  /** Inside an include no constructor throws, each seeing the schematics
      registered by the `schematics` children before it. */
  predicate NoneThrows(ld: Loader, s: map<string, Schematic>, cs: seq<Element>, root: string, dir: string)
    decreases |cs|
  {
    if cs == [] then true
    else if cs[0].name == "schematics" then NoneThrows(ld, RegisterAll(ld, s, cs[0].children, root), cs[1..], root, dir)
    else
      (KindOf(Lower(cs[0].name)).Some? ==> Construct(ld, KindOf(Lower(cs[0].name)).value, cs[0], dir, s).Ok?) &&
      NoneThrows(ld, s, cs[1..], root, dir)
  }

  lemma {:induction false} IncludeAppendsChildren(ld: Loader, gens: seq<Generator>, s: map<string, Schematic>, cs: seq<Element>, root: string, dir: string)
    requires NoneThrows(ld, s, cs, root, dir)
    ensures var r := IncludeLoad(ld, gens, s, cs, root, dir);
            r.error.None? && r.gens == gens + IncludedGens(ld, s, cs, root, dir)
    decreases |cs|
  {
    if cs != [] {
      if cs[0].name == "schematics" {
        IncludeAppendsChildren(ld, gens, RegisterAll(ld, s, cs[0].children, root), cs[1..], root, dir);
      } else {
        IncludeChildStep(ld, gens, s, cs, root, dir);
        var l := GeneratorLoad(ld, gens, s, cs[0], true, dir);
        IncludeAppendsChildren(ld, l.gens, s, cs[1..], root, dir);
      }
    }
  }

  /** One child of an included file that is not `schematics`: it loads
      without throwing and appends what `IncludedGens` counts for it. */
  lemma IncludeChildStep(ld: Loader, gens: seq<Generator>, s: map<string, Schematic>, cs: seq<Element>, root: string, dir: string)
    requires cs != [] && cs[0].name != "schematics" && NoneThrows(ld, s, cs, root, dir)
    ensures var l := GeneratorLoad(ld, gens, s, cs[0], true, dir);
            l.error.None? && l.schematics == s && NoneThrows(ld, s, cs[1..], root, dir) &&
            l.gens + IncludedGens(ld, s, cs[1..], root, dir) == gens + IncludedGens(ld, s, cs, root, dir)
  {
    match KindOf(Lower(cs[0].name))
    case None =>
      if Lower(cs[0].name) == "include" {
        NestedIncludeIgnored(ld, gens, s, cs[0], dir);
      }
    case Some(k) =>
      assert Construct(ld, k, cs[0], dir, s).Ok?;
      var g := Construct(ld, k, cs[0], dir, s).value;
      assert IncludedGens(ld, s, cs, root, dir) == [g] + IncludedGens(ld, s, cs[1..], root, dir);
      AppendAssoc(gens, [g], IncludedGens(ld, s, cs[1..], root, dir));
  }

  /** Order matters inside an include: a splat element whose constructor
      looks up a schematic key throws before the `schematics` child that
      registers the key and loads after it. */
  lemma IncludeSchematicsOrder(ld: Loader, gens: seq<Generator>, sp: Element, key: string, file: string, root: string, dir: string)
    requires Lower(sp.name) == "splat" && Child(sp, "mask").None?
    requires ld.schematic(Paths.Combine(root, file)).Some?
    requires forall s: map<string, Schematic> :: ld.fails(SplatGen, sp, dir, s).None? <==> key in s
    ensures var sc := Element("schematics", map[], "", [Element(key, map[], file, [])]);
            var before := IncludeLoad(ld, gens, map[], [sp, sc], root, dir);
            var after := IncludeLoad(ld, gens, map[], [sc, sp], root, dir);
            before.gens == gens && before.error == ld.fails(SplatGen, sp, dir, map[]) && before.error.Some? &&
            after.error.None? && |after.gens| == |gens| + 1 && after.gens[..|gens|] == gens &&
            key in after.schematics
  {
    var sc := Element("schematics", map[], "", [Element(key, map[], file, [])]);
    assert |sp.name| == |Lower(sp.name)| == 5;
    var s1 := RegisterAll(ld, map[], sc.children, root);
    assert RegisterAll(ld, map[], sc.children, root) == RegisterAll(ld, Register(ld, map[], Paths.Combine(root, file), key), [], root);
    assert key in s1;
    TagAppendsOne(ld, gens, map[], sp, true, dir, SplatGen);
    TagAppendsOne(ld, gens, s1, sp, true, dir, SplatGen);
    assert ld.fails(SplatGen, sp, dir, s1).None?;
    assert Construct(ld, SplatGen, sp, dir, s1).Ok?;
    var l := GeneratorLoad(ld, gens, s1, sp, true, dir);
    assert l.error.None? && l.schematics == s1;
    assert IncludeLoad(ld, gens, s1, [sp], root, dir) == IncludeLoad(ld, l.gens, s1, [], root, dir);
    assert IncludeLoad(ld, gens, map[], [sc, sp], root, dir) == IncludeLoad(ld, gens, s1, [sp], root, dir);
    assert [sp][1..] == [] && [sp, sc][1..] == [sc];
  }

  /** What loading keeps: the generators loaded before stay in place, in
      front, every new one was built by its kind's constructor, and no
      schematic is dropped or replaced. This is how a thrown exception
      leaves the generators appended before it. */
  ghost predicate Extends(ld: Loader, gens: seq<Generator>, s: map<string, Schematic>, r: Load)
  {
    |gens| <= |r.gens| && r.gens[..|gens|] == gens &&
    (forall j :: |gens| <= j < |r.gens| ==> r.gens[j].settings == SettingsOf(ld, r.gens[j].kind)) &&
    (forall k :: k in s ==> k in r.schematics && r.schematics[k] == s[k])
  }

  lemma ExtendsTrans(ld: Loader, gens: seq<Generator>, s: map<string, Schematic>, l: Load, r: Load)
    requires Extends(ld, gens, s, l) && Extends(ld, l.gens, l.schematics, r)
    ensures Extends(ld, gens, s, r)
  {
    assert r.gens[..|gens|] == r.gens[..|l.gens|][..|gens|];
    forall j | |gens| <= j < |r.gens| ensures r.gens[j].settings == SettingsOf(ld, r.gens[j].kind)
    {
      if j < |l.gens| {
        assert r.gens[j] == r.gens[..|l.gens|][j] == l.gens[j];
      }
    }
  }

  lemma {:induction false} GeneratorLoadExtends(ld: Loader, gens: seq<Generator>, s: map<string, Schematic>, e: Element, fromInclude: bool, root: string)
    ensures Extends(ld, gens, s, GeneratorLoad(ld, gens, s, e, fromInclude, root))
    decreases if fromInclude then 0 else 2, 0
  {
    var name := Lower(e.name);
    var r := GeneratorLoad(ld, gens, s, e, fromInclude, root);
    match KindOf(name)
    case Some(k) =>
      if r.error.None? {
        assert r.gens == gens + [Construct(ld, k, e, root, s).value];
        assert r.gens[..|gens|] == gens;
      }
    case None =>
      if name == "include" && !fromInclude && Attr(e, "file").Some? {
        var path := Paths.Combine(root, Attr(e, "file").value);
        if ld.readXml(path).Ok? {
          IncludeLoadExtends(ld, gens, s, ld.readXml(path).value.children, root, Paths.DirectoryName(path));
        }
      }
  }

  lemma {:induction false} IncludeLoadExtends(ld: Loader, gens: seq<Generator>, s: map<string, Schematic>, cs: seq<Element>, root: string, dir: string)
    ensures Extends(ld, gens, s, IncludeLoad(ld, gens, s, cs, root, dir))
    decreases 1, |cs|
  {
    if cs == [] {
      assert gens[..|gens|] == gens;
    } else if cs[0].name == "schematics" {
      var s1 := RegisterAll(ld, s, cs[0].children, root);
      RegisterAllKeeps(ld, s, cs[0].children, root);
      IncludeLoadExtends(ld, gens, s1, cs[1..], root, dir);
      assert gens[..|gens|] == gens;
      ExtendsTrans(ld, gens, s, Load(gens, s1, None), IncludeLoad(ld, gens, s1, cs[1..], root, dir));
    } else {
      var l := GeneratorLoad(ld, gens, s, cs[0], true, dir);
      GeneratorLoadExtends(ld, gens, s, cs[0], true, dir);
      if l.error.None? {
        IncludeLoadExtends(ld, l.gens, l.schematics, cs[1..], root, dir);
        ExtendsTrans(ld, gens, s, l, IncludeLoad(ld, l.gens, l.schematics, cs[1..], root, dir));
      }
    }
  }

  lemma {:induction false} GeneratorsLoadExtends(ld: Loader, gens: seq<Generator>, s: map<string, Schematic>, cs: seq<Element>, root: string)
    ensures Extends(ld, gens, s, GeneratorsLoad(ld, gens, s, cs, root))
    decreases |cs|
  {
    if cs == [] {
      assert gens[..|gens|] == gens;
    } else {
      var l := GeneratorLoad(ld, gens, s, cs[0], false, root);
      GeneratorLoadExtends(ld, gens, s, cs[0], false, root);
      if l.error.None? {
        GeneratorsLoadExtends(ld, l.gens, l.schematics, cs[1..], root);
        ExtendsTrans(ld, gens, s, l, GeneratorsLoad(ld, l.gens, l.schematics, cs[1..], root));
      }
    }
  }

  /** Loading the settings, whether or not it throws part way. */
  lemma SettingsLoadExtends(ld: Loader, gens: seq<Generator>, s: map<string, Schematic>, root: Element, folder: string)
    ensures Extends(ld, gens, s, SettingsLoad(ld, gens, s, root, folder))
  {
    var s' := RegisterContainers(ld, s, Descendants(root, "schematics"), folder);
    RegisterContainersKeeps(ld, s, Descendants(root, "schematics"), folder);
    assert gens[..|gens|] == gens;
    match Child(root, "postprocess")
    case None =>
    case Some(p) =>
      GeneratorsLoadExtends(ld, gens, s', p.children, folder);
      ExtendsTrans(ld, gens, s, Load(gens, s', None), GeneratorsLoad(ld, gens, s', p.children, folder));
  }

  // ---------------------------------------------------------------------
  // Decoration

  /** A hook invocation during decoration: the generator's position in the
      list, the pass, and for the column hooks the world cell and the mask
      value the hook receives. */
  datatype Call =
    | BlockCall(gen: nat, pass: nat, pos: Coord, mask: real)
    | SurfaceCall(gen: nat, pass: nat, pos: Coord, mask: real)
    | RegionCall(gen: nat, pass: nat)
    | FinishCall(gen: nat)
    | WorldFilesCall(gen: nat, folder: string)

  /** The world coordinate of a heightmap index in a region offset. */
  function WorldX(off: int, x: int): int { x + off * 512 }

  /** `ProcessBlock`: the block hook runs, with the mask value, only where
      that value is positive. */
  function BlockGate(i: nat, p: nat, b: PP.Base, pos: Coord): (t: seq<Call>)
    ensures t != [] <==> PP.HookRuns(b, pos.0, pos.2)
    ensures t != [] ==> t == [BlockCall(i, p, pos, PP.MaskValue(b, pos.0, pos.2))]
  {
    var mask := PP.MaskValue(b, pos.0, pos.2);
    if mask > 0.0 then [BlockCall(i, p, pos, mask)] else []
  }

  /** `ProcessSurface`: the same gate for the surface hook. */
  function SurfaceGate(i: nat, p: nat, b: PP.Base, pos: Coord): (t: seq<Call>)
    ensures t != [] <==> PP.HookRuns(b, pos.0, pos.2)
    ensures t != [] ==> t == [SurfaceCall(i, p, pos, PP.MaskValue(b, pos.0, pos.2))]
  {
    var mask := PP.MaskValue(b, pos.0, pos.2);
    if mask > 0.0 then [SurfaceCall(i, p, pos, mask)] else []
  }

  /** The block calls of one column, y from `yMin` up to `n` exclusive. */
  function ColumnCalls(i: nat, p: nat, b: PP.Base, x: int, z: int, yMin: int, n: int): seq<Call>
    decreases n - yMin
  {
    if n <= yMin then [] else ColumnCalls(i, p, b, x, z, yMin, n - 1) + BlockGate(i, p, b, (x, n - 1, z))
  }

  /** The columns of one x, z from 0 up to `zEnd` exclusive. */
  function RowCalls(i: nat, p: nat, g: Generator, x: int, offZ: int, zEnd: nat): seq<Call>
  {
    if zEnd == 0 then []
    else RowCalls(i, p, g, x, offZ, zEnd - 1) + ColumnCalls(i, p, g.base, x, WorldX(offZ, zEnd - 1), g.settings.yMin, g.settings.yMax + 1)
  }

  /** The block sweep of one pass, x from 0 up to `xEnd` exclusive. */
  function BlockSweep(i: nat, p: nat, g: Generator, offX: int, offZ: int, lenZ: nat, xEnd: nat): seq<Call>
  {
    if xEnd == 0 then []
    else BlockSweep(i, p, g, offX, offZ, lenZ, xEnd - 1) + RowCalls(i, p, g, WorldX(offX, xEnd - 1), offZ, lenZ)
  }

  /** The surface calls of one x, z from 0 up to `zEnd` exclusive, each at
      the heightmap's height. */
  function SurfaceRow(i: nat, p: nat, g: Generator, hm: array2<PP.Byte>, offX: int, offZ: int, x: nat, zEnd: nat): seq<Call>
    requires x < hm.Length0 && zEnd <= hm.Length1
    reads hm
  {
    if zEnd == 0 then []
    else SurfaceRow(i, p, g, hm, offX, offZ, x, zEnd - 1) +
         SurfaceGate(i, p, g.base, (WorldX(offX, x), hm[x, zEnd - 1] as int, WorldX(offZ, zEnd - 1)))
  }

  function SurfaceSweep(i: nat, p: nat, g: Generator, hm: array2<PP.Byte>, offX: int, offZ: int, xEnd: nat): seq<Call>
    requires xEnd <= hm.Length0
    reads hm
  {
    if xEnd == 0 then []
    else SurfaceSweep(i, p, g, hm, offX, offZ, xEnd - 1) + SurfaceRow(i, p, g, hm, offX, offZ, xEnd - 1, hm.Length1)
  }

  /** The block sweep of a pass, if it has one. */
  function BlockPart(i: nat, p: nat, g: Generator, hm: array2<PP.Byte>, offX: int, offZ: int): seq<Call>
    reads hm
  {
    if PP.RunsBlockHook(g.settings.mode) then BlockSweep(i, p, g, offX, offZ, hm.Length1, hm.Length0) else []
  }

  /** The surface sweep of a pass, if it has one. */
  function SurfacePart(i: nat, p: nat, g: Generator, hm: array2<PP.Byte>, offX: int, offZ: int): seq<Call>
    reads hm
  {
    if PP.RunsSurfaceHook(g.settings.mode) then SurfaceSweep(i, p, g, hm, offX, offZ, hm.Length0) else []
  }

  /** One pass of a generator: its block sweep if its mode has one, then its
      surface sweep if its mode has one, then its region pass. */
  function PassCalls(i: nat, p: nat, g: Generator, hm: array2<PP.Byte>, offX: int, offZ: int): seq<Call>
    reads hm
  {
    (if PP.RunsBlockHook(g.settings.mode) then BlockSweep(i, p, g, offX, offZ, hm.Length1, hm.Length0) else []) +
    (if PP.RunsSurfaceHook(g.settings.mode) then SurfaceSweep(i, p, g, hm, offX, offZ, hm.Length0) else []) +
    [RegionCall(i, p)]
  }

  function PassesUpTo(i: nat, g: Generator, hm: array2<PP.Byte>, offX: int, offZ: int, n: nat): seq<Call>
    reads hm
  {
    if n == 0 then [] else PassesUpTo(i, g, hm, offX, offZ, n - 1) + PassCalls(i, n - 1, g, hm, offX, offZ)
  }

  function GensUpTo(gens: seq<Generator>, hm: array2<PP.Byte>, offX: int, offZ: int, n: nat): seq<Call>
    requires n <= |gens|
    reads hm
  {
    if n == 0 then []
    else GensUpTo(gens, hm, offX, offZ, n - 1) + PassesUpTo(n - 1, gens[n - 1], hm, offX, offZ, gens[n - 1].settings.passes)
  }

  /** `OnFinish` for every generator, in list order. */
  function Finishes(n: nat): (t: seq<Call>)
    ensures |t| == n && forall j :: 0 <= j < n ==> t[j] == FinishCall(j)
  {
    if n == 0 then [] else Finishes(n - 1) + [FinishCall(n - 1)]
  }

  /** `DecorateTerrain`: every generator's passes in list order, then every
      generator's `OnFinish`. */
  function Schedule(gens: seq<Generator>, hm: array2<PP.Byte>, offX: int, offZ: int): seq<Call>
    reads hm
  {
    GensUpTo(gens, hm, offX, offZ, |gens|) + Finishes(|gens|)
  }

  // How often each call occurs.

  /** A block call of generator i, pass p, in column (x, z), with the mask
      value of that column, which lets the hook run. */
  predicate BlockHookAt(c: Call, i: nat, p: nat, b: PP.Base, x: int, z: int)
  {
    c.BlockCall? && c.gen == i && c.pass == p && c.pos.0 == x && c.pos.2 == z &&
    c.mask == PP.MaskValue(b, x, z) && PP.HookRuns(b, x, z)
  }

  predicate SurfaceHookAt(c: Call, i: nat, p: nat, b: PP.Base, x: int, z: int)
  {
    c.SurfaceCall? && c.gen == i && c.pass == p && c.pos.0 == x && c.pos.2 == z &&
    c.mask == PP.MaskValue(b, x, z) && PP.HookRuns(b, x, z)
  }

  /** The heightmap index a world coordinate comes from, when it is inside. */
  predicate InRange(off: int, len: nat, w: int) { 0 <= w - off * 512 < len }

  /** Whether a call belongs to pass p of generator i, and where. */
  predicate InPass(c: Call, i: nat, p: nat, g: Generator, hm: array2<PP.Byte>, offX: int, offZ: int)
    reads hm
  {
    (PP.RunsBlockHook(g.settings.mode) && InBlockSweep(c, i, p, g, offX, offZ, hm.Length1, hm.Length0)) ||
    (PP.RunsSurfaceHook(g.settings.mode) && InSurfaceSweep(c, i, p, g, hm, offX, offZ, hm.Length0)) ||
    c == RegionCall(i, p)
  }

  /** Whether a call is one of the block calls of row x below `zEnd`. */
  predicate InRow(c: Call, i: nat, p: nat, g: Generator, x: int, offZ: int, zEnd: nat)
  {
    c.BlockCall? && InRange(offZ, zEnd, c.pos.2) && g.settings.yMin <= c.pos.1 <= g.settings.yMax &&
    BlockHookAt(c, i, p, g.base, x, c.pos.2)
  }

  /** Whether a call is one of the block calls of the rows below `xEnd`. */
  predicate InBlockSweep(c: Call, i: nat, p: nat, g: Generator, offX: int, offZ: int, lenZ: nat, xEnd: nat)
  {
    c.BlockCall? && InRange(offX, xEnd, c.pos.0) && InRow(c, i, p, g, c.pos.0, offZ, lenZ)
  }

  /** Whether a call is one of the surface calls of row x below `zEnd`. */
  predicate InSurfaceRow(c: Call, i: nat, p: nat, g: Generator, hm: array2<PP.Byte>, offX: int, offZ: int, x: nat, zEnd: nat)
    reads hm
  {
    c.SurfaceCall? && x < hm.Length0 && zEnd <= hm.Length1 && InRange(offZ, zEnd, c.pos.2) &&
    c.pos.1 == hm[x, c.pos.2 - offZ * 512] as int && SurfaceHookAt(c, i, p, g.base, WorldX(offX, x), c.pos.2)
  }

  predicate InSurfaceSweep(c: Call, i: nat, p: nat, g: Generator, hm: array2<PP.Byte>, offX: int, offZ: int, xEnd: nat)
    reads hm
  {
    c.SurfaceCall? && InRange(offX, xEnd, c.pos.0) && InSurfaceRow(c, i, p, g, hm, offX, offZ, c.pos.0 - offX * 512, hm.Length1)
  }

  /** The pass a call belongs to; -1 for the calls outside the passes. */
  function PassOf(c: Call): int
  {
    match c
    case BlockCall(_, p, _, _) => p
    case SurfaceCall(_, p, _, _) => p
    case RegionCall(_, p) => p
    case FinishCall(_) => -1
    case WorldFilesCall(_, _) => -1
  }

  /** Whether decoration makes the call: a block call for every cell of the
      heightmap's area in the generator's y-range, a surface call for every
      column at its height, both only where the mask lets the hook run and
      only for generators whose mode has that sweep, a region call per pass
      and a finish per generator. */
  predicate Scheduled(c: Call, gens: seq<Generator>, hm: array2<PP.Byte>, offX: int, offZ: int)
    reads hm
  {
    if c.FinishCall? then c.gen < |gens| else InGens(c, gens, hm, offX, offZ, |gens|)
  }

  /** How often a call occurs in a trace. */
  function Count(t: seq<Call>, c: Call): nat
  {
    if |t| == 0 then 0 else (if t[0] == c then 1 else 0) + Count(t[1..], c)
  }

  lemma {:induction false} CountConcat(a: seq<Call>, b: seq<Call>, c: Call)
    ensures Count(a + b, c) == Count(a, c) + Count(b, c)
  {
    if a == [] {
      assert a + b == b;
    } else {
      assert (a + b)[1..] == a[1..] + b;
      CountConcat(a[1..], b, c);
    }
  }

  /** The count is the multiplicity in the trace's multiset. */
  lemma {:induction false} CountIsMultiplicity(t: seq<Call>, c: Call)
    ensures Count(t, c) == multiset(t)[c]
  {
    if t != [] {
      CountIsMultiplicity(t[1..], c);
      assert t == [t[0]] + t[1..];
      assert multiset(t) == multiset{t[0]} + multiset(t[1..]);
    }
  }

  lemma {:induction false} ColumnCount(i: nat, p: nat, b: PP.Base, x: int, z: int, yMin: int, n: int, c: Call)
    ensures Count(ColumnCalls(i, p, b, x, z, yMin, n), c) ==
            if BlockHookAt(c, i, p, b, x, z) && yMin <= c.pos.1 < n then 1 else 0
    decreases n - yMin
  {
    if n > yMin {
      ColumnCount(i, p, b, x, z, yMin, n - 1, c);
      var gate := BlockGate(i, p, b, (x, n - 1, z));
      CountConcat(ColumnCalls(i, p, b, x, z, yMin, n - 1), gate, c);
    }
  }

  /** Adding the next column to a row adds exactly that column's calls. */
  lemma RowSplit(i: nat, p: nat, g: Generator, x: int, offZ: int, zEnd: nat, c: Call)
    requires zEnd > 0
    ensures var z := WorldX(offZ, zEnd - 1);
            var inB := BlockHookAt(c, i, p, g.base, x, z) && g.settings.yMin <= c.pos.1 < g.settings.yMax + 1;
            (InRow(c, i, p, g, x, offZ, zEnd) <==> InRow(c, i, p, g, x, offZ, zEnd - 1) || inB) &&
            !(InRow(c, i, p, g, x, offZ, zEnd - 1) && inB)
  {
  }

  lemma {:induction false} RowCount(i: nat, p: nat, g: Generator, x: int, offZ: int, zEnd: nat, c: Call)
    ensures Count(RowCalls(i, p, g, x, offZ, zEnd), c) == if InRow(c, i, p, g, x, offZ, zEnd) then 1 else 0
  {
    if zEnd > 0 {
      var z := WorldX(offZ, zEnd - 1);
      var a := RowCalls(i, p, g, x, offZ, zEnd - 1);
      var b := ColumnCalls(i, p, g.base, x, z, g.settings.yMin, g.settings.yMax + 1);
      RowCount(i, p, g, x, offZ, zEnd - 1, c);
      ColumnCount(i, p, g.base, x, z, g.settings.yMin, g.settings.yMax + 1, c);
      RowSplit(i, p, g, x, offZ, zEnd, c);
      assert RowCalls(i, p, g, x, offZ, zEnd) == a + b;
      CountConcat(a, b, c);
    }
  }

  lemma BlockSweepSplit(i: nat, p: nat, g: Generator, offX: int, offZ: int, lenZ: nat, xEnd: nat, c: Call)
    requires xEnd > 0
    ensures var inB := InRow(c, i, p, g, WorldX(offX, xEnd - 1), offZ, lenZ);
            (InBlockSweep(c, i, p, g, offX, offZ, lenZ, xEnd) <==> InBlockSweep(c, i, p, g, offX, offZ, lenZ, xEnd - 1) || inB) &&
            !(InBlockSweep(c, i, p, g, offX, offZ, lenZ, xEnd - 1) && inB)
  {
  }

  lemma {:induction false} BlockSweepCount(i: nat, p: nat, g: Generator, offX: int, offZ: int, lenZ: nat, xEnd: nat, c: Call)
    ensures Count(BlockSweep(i, p, g, offX, offZ, lenZ, xEnd), c) == if InBlockSweep(c, i, p, g, offX, offZ, lenZ, xEnd) then 1 else 0
  {
    if xEnd > 0 {
      var a := BlockSweep(i, p, g, offX, offZ, lenZ, xEnd - 1);
      var b := RowCalls(i, p, g, WorldX(offX, xEnd - 1), offZ, lenZ);
      BlockSweepCount(i, p, g, offX, offZ, lenZ, xEnd - 1, c);
      RowCount(i, p, g, WorldX(offX, xEnd - 1), offZ, lenZ, c);
      BlockSweepSplit(i, p, g, offX, offZ, lenZ, xEnd, c);
      assert BlockSweep(i, p, g, offX, offZ, lenZ, xEnd) == a + b;
      CountConcat(a, b, c);
    }
  }

  lemma SurfaceRowSplit(i: nat, p: nat, g: Generator, hm: array2<PP.Byte>, offX: int, offZ: int, x: nat, zEnd: nat, c: Call)
    requires x < hm.Length0 && 0 < zEnd <= hm.Length1
    ensures var pos := (WorldX(offX, x), hm[x, zEnd - 1] as int, WorldX(offZ, zEnd - 1));
            var inB := c.SurfaceCall? && c.pos == pos && SurfaceHookAt(c, i, p, g.base, WorldX(offX, x), c.pos.2);
            (InSurfaceRow(c, i, p, g, hm, offX, offZ, x, zEnd) <==> InSurfaceRow(c, i, p, g, hm, offX, offZ, x, zEnd - 1) || inB) &&
            !(InSurfaceRow(c, i, p, g, hm, offX, offZ, x, zEnd - 1) && inB)
  {
  }

  lemma {:induction false} SurfaceRowCount(i: nat, p: nat, g: Generator, hm: array2<PP.Byte>, offX: int, offZ: int, x: nat, zEnd: nat, c: Call)
    requires x < hm.Length0 && zEnd <= hm.Length1
    ensures Count(SurfaceRow(i, p, g, hm, offX, offZ, x, zEnd), c) == if InSurfaceRow(c, i, p, g, hm, offX, offZ, x, zEnd) then 1 else 0
  {
    if zEnd > 0 {
      var pos := (WorldX(offX, x), hm[x, zEnd - 1] as int, WorldX(offZ, zEnd - 1));
      var a := SurfaceRow(i, p, g, hm, offX, offZ, x, zEnd - 1);
      var b := SurfaceGate(i, p, g.base, pos);
      SurfaceRowCount(i, p, g, hm, offX, offZ, x, zEnd - 1, c);
      SurfaceRowSplit(i, p, g, hm, offX, offZ, x, zEnd, c);
      assert SurfaceRow(i, p, g, hm, offX, offZ, x, zEnd) == a + b;
      CountConcat(a, b, c);
      var inB := c.SurfaceCall? && c.pos == pos && SurfaceHookAt(c, i, p, g.base, WorldX(offX, x), c.pos.2);
      assert Count(b, c) == if inB then 1 else 0 by {
        if b != [] { assert b[..0] == []; }
      }
    }
  }

  lemma SurfaceSweepSplit(i: nat, p: nat, g: Generator, hm: array2<PP.Byte>, offX: int, offZ: int, xEnd: nat, c: Call)
    requires 0 < xEnd <= hm.Length0
    ensures var inB := InSurfaceRow(c, i, p, g, hm, offX, offZ, xEnd - 1, hm.Length1);
            (InSurfaceSweep(c, i, p, g, hm, offX, offZ, xEnd) <==> InSurfaceSweep(c, i, p, g, hm, offX, offZ, xEnd - 1) || inB) &&
            !(InSurfaceSweep(c, i, p, g, hm, offX, offZ, xEnd - 1) && inB)
  {
  }

  lemma {:induction false} SurfaceSweepCount(i: nat, p: nat, g: Generator, hm: array2<PP.Byte>, offX: int, offZ: int, xEnd: nat, c: Call)
    requires xEnd <= hm.Length0
    ensures Count(SurfaceSweep(i, p, g, hm, offX, offZ, xEnd), c) == if InSurfaceSweep(c, i, p, g, hm, offX, offZ, xEnd) then 1 else 0
  {
    if xEnd > 0 {
      var a := SurfaceSweep(i, p, g, hm, offX, offZ, xEnd - 1);
      var b := SurfaceRow(i, p, g, hm, offX, offZ, xEnd - 1, hm.Length1);
      SurfaceSweepCount(i, p, g, hm, offX, offZ, xEnd - 1, c);
      SurfaceRowCount(i, p, g, hm, offX, offZ, xEnd - 1, hm.Length1, c);
      SurfaceSweepSplit(i, p, g, hm, offX, offZ, xEnd, c);
      assert SurfaceSweep(i, p, g, hm, offX, offZ, xEnd) == a + b;
      CountConcat(a, b, c);
    }
  }

  /** The three parts of a pass hold calls of different shapes. */
  lemma PassSplit(i: nat, p: nat, g: Generator, hm: array2<PP.Byte>, offX: int, offZ: int, c: Call)
    ensures var inB := InBlockSweep(c, i, p, g, offX, offZ, hm.Length1, hm.Length0);
            var inS := InSurfaceSweep(c, i, p, g, hm, offX, offZ, hm.Length0);
            !(inB && inS) && !(inB && c == RegionCall(i, p)) && !(inS && c == RegionCall(i, p)) &&
            (InPass(c, i, p, g, hm, offX, offZ) ==> PassOf(c) == p)
  {
  }

  lemma PassCount(i: nat, p: nat, g: Generator, hm: array2<PP.Byte>, offX: int, offZ: int, c: Call)
    ensures Count(PassCalls(i, p, g, hm, offX, offZ), c) == if InPass(c, i, p, g, hm, offX, offZ) then 1 else 0
  {
    var bs := if PP.RunsBlockHook(g.settings.mode) then BlockSweep(i, p, g, offX, offZ, hm.Length1, hm.Length0) else [];
    var ss := if PP.RunsSurfaceHook(g.settings.mode) then SurfaceSweep(i, p, g, hm, offX, offZ, hm.Length0) else [];
    BlockSweepCount(i, p, g, offX, offZ, hm.Length1, hm.Length0, c);
    SurfaceSweepCount(i, p, g, hm, offX, offZ, hm.Length0, c);
    PassSplit(i, p, g, hm, offX, offZ, c);
    assert PassCalls(i, p, g, hm, offX, offZ) == bs + ss + [RegionCall(i, p)];
    CountConcat(bs, ss, c);
    CountConcat(bs + ss, [RegionCall(i, p)], c);
    assert Count([RegionCall(i, p)], c) == if c == RegionCall(i, p) then 1 else 0 by {
      assert [RegionCall(i, p)][..0] == [];
    }
  }

  /** Whether a call belongs to one of the first n passes of generator i. */
  predicate InPasses(c: Call, i: nat, g: Generator, hm: array2<PP.Byte>, offX: int, offZ: int, n: nat)
    reads hm
  {
    0 <= PassOf(c) < n && InPass(c, i, PassOf(c), g, hm, offX, offZ)
  }

  lemma PassesSplit(i: nat, g: Generator, hm: array2<PP.Byte>, offX: int, offZ: int, n: nat, c: Call)
    requires n > 0
    ensures var inB := InPass(c, i, n - 1, g, hm, offX, offZ);
            (InPasses(c, i, g, hm, offX, offZ, n) <==> InPasses(c, i, g, hm, offX, offZ, n - 1) || inB) &&
            !(InPasses(c, i, g, hm, offX, offZ, n - 1) && inB)
  {
    PassSplit(i, n - 1, g, hm, offX, offZ, c);
  }

  lemma PassesUnfold(i: nat, g: Generator, hm: array2<PP.Byte>, offX: int, offZ: int, n: nat, c: Call)
    requires n > 0
    ensures Count(PassesUpTo(i, g, hm, offX, offZ, n), c) ==
            Count(PassesUpTo(i, g, hm, offX, offZ, n - 1), c) + Count(PassCalls(i, n - 1, g, hm, offX, offZ), c)
  {
    CountConcat(PassesUpTo(i, g, hm, offX, offZ, n - 1), PassCalls(i, n - 1, g, hm, offX, offZ), c);
  }

  lemma {:induction false} PassesCount(i: nat, g: Generator, hm: array2<PP.Byte>, offX: int, offZ: int, n: nat, c: Call)
    ensures Count(PassesUpTo(i, g, hm, offX, offZ, n), c) == if InPasses(c, i, g, hm, offX, offZ, n) then 1 else 0
  {
    if n > 0 {
      PassesUnfold(i, g, hm, offX, offZ, n, c);
      PassesCount(i, g, hm, offX, offZ, n - 1, c);
      PassesSplit(i, g, hm, offX, offZ, n, c);
      PassCount(i, n - 1, g, hm, offX, offZ, c);
    }
  }

  /** Whether a call belongs to one of the passes of the first n generators. */
  predicate InGens(c: Call, gens: seq<Generator>, hm: array2<PP.Byte>, offX: int, offZ: int, n: nat)
    requires n <= |gens|
    reads hm
  {
    !c.FinishCall? && c.gen < n && InPasses(c, c.gen, gens[c.gen], hm, offX, offZ, gens[c.gen].settings.passes)
  }

  lemma GensSplit(gens: seq<Generator>, hm: array2<PP.Byte>, offX: int, offZ: int, n: nat, c: Call)
    requires 0 < n <= |gens|
    ensures var g := gens[n - 1];
            var inB := InPasses(c, n - 1, g, hm, offX, offZ, g.settings.passes);
            (InGens(c, gens, hm, offX, offZ, n) <==> InGens(c, gens, hm, offX, offZ, n - 1) || inB) &&
            !(InGens(c, gens, hm, offX, offZ, n - 1) && inB)
  {
  }

  lemma {:induction false} GensCount(gens: seq<Generator>, hm: array2<PP.Byte>, offX: int, offZ: int, n: nat, c: Call)
    requires n <= |gens|
    ensures Count(GensUpTo(gens, hm, offX, offZ, n), c) == if InGens(c, gens, hm, offX, offZ, n) then 1 else 0
  {
    if n > 0 {
      var g := gens[n - 1];
      var a := GensUpTo(gens, hm, offX, offZ, n - 1);
      var b := PassesUpTo(n - 1, g, hm, offX, offZ, g.settings.passes);
      GensCount(gens, hm, offX, offZ, n - 1, c);
      PassesCount(n - 1, g, hm, offX, offZ, g.settings.passes, c);
      GensSplit(gens, hm, offX, offZ, n, c);
      assert GensUpTo(gens, hm, offX, offZ, n) == a + b;
      CountConcat(a, b, c);
    }
  }

  lemma {:induction false} FinishesCount(n: nat, c: Call)
    ensures Count(Finishes(n), c) == if c.FinishCall? && c.gen < n then 1 else 0
  {
    if n > 0 {
      FinishesCount(n - 1, c);
      CountConcat(Finishes(n - 1), [FinishCall(n - 1)], c);
    }
  }

  /** Decoration makes every scheduled call exactly once and no other. */
  lemma ScheduleExactlyOnce(gens: seq<Generator>, hm: array2<PP.Byte>, offX: int, offZ: int, c: Call)
    ensures multiset(Schedule(gens, hm, offX, offZ))[c] == if Scheduled(c, gens, hm, offX, offZ) then 1 else 0
  {
    GensCount(gens, hm, offX, offZ, |gens|, c);
    FinishesCount(|gens|, c);
    CountConcat(GensUpTo(gens, hm, offX, offZ, |gens|), Finishes(|gens|), c);
    CountIsMultiplicity(Schedule(gens, hm, offX, offZ), c);
  }

  // In what order the calls come.

  /** A call's place in decoration order: the passes before the finishes,
      then generator, pass, sweep (block sweep, surface sweep, region pass),
      x, z and y. */
  datatype Key = Key(stage: int, gen: int, pass: int, sweep: int, x: int, z: int, y: int)

  function KeyOf(c: Call): Key
  {
    match c
    case BlockCall(i, p, pos, _) => Key(0, i, p, 0, pos.0, pos.2, pos.1)
    case SurfaceCall(i, p, pos, _) => Key(0, i, p, 1, pos.0, pos.2, 0)
    case RegionCall(i, p) => Key(0, i, p, 2, 0, 0, 0)
    case FinishCall(i) => Key(1, i, 0, 0, 0, 0, 0)
    case WorldFilesCall(i, _) => Key(2, i, 0, 0, 0, 0, 0)
  }

  /** Lexicographic order of keys. */
  predicate KeyLess(a: Key, b: Key)
  {
    a.stage < b.stage || (a.stage == b.stage &&
    (a.gen < b.gen || (a.gen == b.gen &&
    (a.pass < b.pass || (a.pass == b.pass &&
    (a.sweep < b.sweep || (a.sweep == b.sweep &&
    (a.x < b.x || (a.x == b.x &&
    (a.z < b.z || (a.z == b.z && a.y < b.y)))))))))))
  }

  predicate Before(c: Call, d: Call) { KeyLess(KeyOf(c), KeyOf(d)) }

  /** The call at position j of the trace comes before the one at k. */
  predicate BeforeAt(t: seq<Call>, j: int, k: int)
  {
    0 <= j < |t| && 0 <= k < |t| && Before(t[j], t[k])
  }

  /** Every call of the trace comes before every later one. */
  predicate Ordered(t: seq<Call>)
  {
    forall j, k :: 0 <= j < k < |t| ==> BeforeAt(t, j, k)
  }

  /** The call at position j of a comes before the one at position k of b. */
  predicate CrossAt(a: seq<Call>, b: seq<Call>, j: int, k: int)
  {
    0 <= j < |a| && 0 <= k < |b| && Before(a[j], b[k])
  }

  /** Every call of a comes before every call of b. */
  predicate Precedes(a: seq<Call>, b: seq<Call>)
  {
    forall j, k :: 0 <= j < |a| && 0 <= k < |b| ==> CrossAt(a, b, j, k)
  }

  /** The fields of a key before field d; the others are zero. */
  function Prefix(k: Key, d: nat): Key
  {
    Key(if d > 0 then k.stage else 0, if d > 1 then k.gen else 0, if d > 2 then k.pass else 0,
        if d > 3 then k.sweep else 0, if d > 4 then k.x else 0, if d > 5 then k.z else 0, 0)
  }

  /** Field d of a key: stage, generator, pass, sweep, x, z, y. */
  function Field(k: Key, d: nat): int
  {
    if d == 0 then k.stage else if d == 1 then k.gen else if d == 2 then k.pass
    else if d == 3 then k.sweep else if d == 4 then k.x else if d == 5 then k.z else k.y
  }

  /** Keys that agree before field d are ordered by field d. */
  lemma KeyLessAt(a: Key, b: Key, d: nat)
    requires d <= 6 && Prefix(a, d) == Prefix(b, d) && Field(a, d) < Field(b, d)
    ensures KeyLess(a, b)
  {
  }

  /** Every call of t has the fields `pre` before field d, and field d below m. */
  predicate KeysBelow(t: seq<Call>, pre: Key, d: nat, m: int)
  {
    forall c :: c in t ==> Prefix(KeyOf(c), d) == pre && Field(KeyOf(c), d) < m
  }

  /** Every call of t has the fields `pre` before field d, and field d at least m. */
  predicate KeysFrom(t: seq<Call>, pre: Key, d: nat, m: int)
  {
    forall c :: c in t ==> Prefix(KeyOf(c), d) == pre && m <= Field(KeyOf(c), d)
  }

  lemma PrecedesAt(a: seq<Call>, b: seq<Call>, pre: Key, d: nat, m: int)
    requires d <= 6 && KeysBelow(a, pre, d, m) && KeysFrom(b, pre, d, m)
    ensures Precedes(a, b)
  {
    forall j, k | 0 <= j < |a| && 0 <= k < |b| ensures CrossAt(a, b, j, k)
    {
      KeyLessAt(KeyOf(a[j]), KeyOf(b[k]), d);
    }
  }

  lemma OrderedConcat(a: seq<Call>, b: seq<Call>)
    requires Ordered(a) && Ordered(b) && Precedes(a, b)
    ensures Ordered(a + b)
  {
    forall j, k | 0 <= j < k < |a + b| ensures BeforeAt(a + b, j, k)
    {
      if k < |a| {
        assert BeforeAt(a, j, k);
        assert (a + b)[j] == a[j] && (a + b)[k] == a[k];
      } else if j >= |a| {
        assert BeforeAt(b, j - |a|, k - |a|);
        assert (a + b)[j] == b[j - |a|] && (a + b)[k] == b[k - |a|];
      } else {
        assert CrossAt(a, b, j, k - |a|);
        assert (a + b)[j] == a[j] && (a + b)[k] == b[k - |a|];
      }
    }
  }

  lemma {:induction false} CountMember(t: seq<Call>, c: Call)
    ensures c in t <==> Count(t, c) > 0
  {
    if t != [] {
      CountMember(t[1..], c);
      assert t == [t[0]] + t[1..];
    }
  }

  lemma {:induction false} ColumnOrdered(i: nat, p: nat, b: PP.Base, x: int, z: int, yMin: int, n: int)
    ensures Ordered(ColumnCalls(i, p, b, x, z, yMin, n))
    decreases n - yMin
  {
    if n > yMin {
      var a := ColumnCalls(i, p, b, x, z, yMin, n - 1);
      var g := BlockGate(i, p, b, (x, n - 1, z));
      ColumnOrdered(i, p, b, x, z, yMin, n - 1);
      forall j, k | 0 <= j < |a| && 0 <= k < |g| ensures CrossAt(a, g, j, k)
      {
        CountMember(a, a[j]);
        ColumnCount(i, p, b, x, z, yMin, n - 1, a[j]);
      }
      OrderedConcat(a, g);
    }
  }

  /** The earlier columns of a row come before column zEnd - 1. */
  lemma RowCross(i: nat, p: nat, g: Generator, x: int, offZ: int, zEnd: nat)
    requires zEnd > 0
    ensures Precedes(RowCalls(i, p, g, x, offZ, zEnd - 1),
                     ColumnCalls(i, p, g.base, x, WorldX(offZ, zEnd - 1), g.settings.yMin, g.settings.yMax + 1))
  {
    var z := WorldX(offZ, zEnd - 1);
    var a := RowCalls(i, p, g, x, offZ, zEnd - 1);
    var b := ColumnCalls(i, p, g.base, x, z, g.settings.yMin, g.settings.yMax + 1);
    var pre := Key(0, i, p, 0, x, 0, 0);
    forall c | c in a ensures Prefix(KeyOf(c), 5) == pre && Field(KeyOf(c), 5) < z
    {
      CountMember(a, c);
      RowCount(i, p, g, x, offZ, zEnd - 1, c);
    }
    forall e | e in b ensures Prefix(KeyOf(e), 5) == pre && z <= Field(KeyOf(e), 5)
    {
      CountMember(b, e);
      ColumnCount(i, p, g.base, x, z, g.settings.yMin, g.settings.yMax + 1, e);
    }
    PrecedesAt(a, b, pre, 5, z);
  }

  lemma {:induction false} RowOrdered(i: nat, p: nat, g: Generator, x: int, offZ: int, zEnd: nat)
    ensures Ordered(RowCalls(i, p, g, x, offZ, zEnd))
  {
    if zEnd > 0 {
      var z := WorldX(offZ, zEnd - 1);
      var a := RowCalls(i, p, g, x, offZ, zEnd - 1);
      var b := ColumnCalls(i, p, g.base, x, z, g.settings.yMin, g.settings.yMax + 1);
      RowOrdered(i, p, g, x, offZ, zEnd - 1);
      ColumnOrdered(i, p, g.base, x, z, g.settings.yMin, g.settings.yMax + 1);
      RowCross(i, p, g, x, offZ, zEnd);
      OrderedConcat(a, b);
    }
  }

  /** The block calls of the rows below xEnd lie left of x = WorldX(offX, xEnd). */
  lemma BlockSweepKeys(i: nat, p: nat, g: Generator, offX: int, offZ: int, lenZ: nat, xEnd: nat)
    ensures KeysBelow(BlockSweep(i, p, g, offX, offZ, lenZ, xEnd), Key(0, i, p, 0, 0, 0, 0), 4, WorldX(offX, xEnd))
  {
    var a := BlockSweep(i, p, g, offX, offZ, lenZ, xEnd);
    forall c | c in a ensures Prefix(KeyOf(c), 4) == Key(0, i, p, 0, 0, 0, 0) && Field(KeyOf(c), 4) < WorldX(offX, xEnd)
    {
      CountMember(a, c);
      BlockSweepCount(i, p, g, offX, offZ, lenZ, xEnd, c);
      SweptKey(c, i, p, g, offX, offZ, lenZ, xEnd);
    }
  }

  /** A block call of the rows below xEnd has its key left of them. */
  lemma SweptKey(c: Call, i: nat, p: nat, g: Generator, offX: int, offZ: int, lenZ: nat, xEnd: nat)
    requires InBlockSweep(c, i, p, g, offX, offZ, lenZ, xEnd)
    ensures Prefix(KeyOf(c), 4) == Key(0, i, p, 0, 0, 0, 0) && Field(KeyOf(c), 4) < WorldX(offX, xEnd)
  {
  }

  /** The block calls of row x lie at x. */
  lemma RowKeys(i: nat, p: nat, g: Generator, x: int, offZ: int, lenZ: nat)
    ensures KeysFrom(RowCalls(i, p, g, x, offZ, lenZ), Key(0, i, p, 0, 0, 0, 0), 4, x)
  {
    var b := RowCalls(i, p, g, x, offZ, lenZ);
    forall e | e in b ensures Prefix(KeyOf(e), 4) == Key(0, i, p, 0, 0, 0, 0) && x <= Field(KeyOf(e), 4)
    {
      CountMember(b, e);
      RowCount(i, p, g, x, offZ, lenZ, e);
    }
  }

  /** The earlier rows come before row xEnd - 1. */
  lemma BlockSweepCross(i: nat, p: nat, g: Generator, offX: int, offZ: int, lenZ: nat, xEnd: nat)
    requires xEnd > 0
    ensures Precedes(BlockSweep(i, p, g, offX, offZ, lenZ, xEnd - 1), RowCalls(i, p, g, WorldX(offX, xEnd - 1), offZ, lenZ))
  {
    BlockSweepKeys(i, p, g, offX, offZ, lenZ, xEnd - 1);
    RowKeys(i, p, g, WorldX(offX, xEnd - 1), offZ, lenZ);
    PrecedesAt(BlockSweep(i, p, g, offX, offZ, lenZ, xEnd - 1), RowCalls(i, p, g, WorldX(offX, xEnd - 1), offZ, lenZ),
               Key(0, i, p, 0, 0, 0, 0), 4, WorldX(offX, xEnd - 1));
  }

  lemma {:induction false} BlockSweepOrdered(i: nat, p: nat, g: Generator, offX: int, offZ: int, lenZ: nat, xEnd: nat)
    ensures Ordered(BlockSweep(i, p, g, offX, offZ, lenZ, xEnd))
  {
    if xEnd > 0 {
      var x := WorldX(offX, xEnd - 1);
      var a := BlockSweep(i, p, g, offX, offZ, lenZ, xEnd - 1);
      var b := RowCalls(i, p, g, x, offZ, lenZ);
      BlockSweepOrdered(i, p, g, offX, offZ, lenZ, xEnd - 1);
      RowOrdered(i, p, g, x, offZ, lenZ);
      BlockSweepCross(i, p, g, offX, offZ, lenZ, xEnd);
      OrderedConcat(a, b);
    }
  }

  lemma {:induction false} SurfaceRowOrdered(i: nat, p: nat, g: Generator, hm: array2<PP.Byte>, offX: int, offZ: int, x: nat, zEnd: nat)
    requires x < hm.Length0 && zEnd <= hm.Length1
    ensures Ordered(SurfaceRow(i, p, g, hm, offX, offZ, x, zEnd))
  {
    if zEnd > 0 {
      var a := SurfaceRow(i, p, g, hm, offX, offZ, x, zEnd - 1);
      var b := SurfaceGate(i, p, g.base, (WorldX(offX, x), hm[x, zEnd - 1] as int, WorldX(offZ, zEnd - 1)));
      SurfaceRowOrdered(i, p, g, hm, offX, offZ, x, zEnd - 1);
      forall j, k | 0 <= j < |a| && 0 <= k < |b| ensures CrossAt(a, b, j, k)
      {
        CountMember(a, a[j]);
        SurfaceRowCount(i, p, g, hm, offX, offZ, x, zEnd - 1, a[j]);
      }
      OrderedConcat(a, b);
    }
  }

  /** The surface calls of the earlier rows come before those of row xEnd - 1. */
  lemma SurfaceSweepCross(i: nat, p: nat, g: Generator, hm: array2<PP.Byte>, offX: int, offZ: int, xEnd: nat)
    requires 0 < xEnd <= hm.Length0
    ensures Precedes(SurfaceSweep(i, p, g, hm, offX, offZ, xEnd - 1), SurfaceRow(i, p, g, hm, offX, offZ, xEnd - 1, hm.Length1))
  {
    var x := WorldX(offX, xEnd - 1);
    var a := SurfaceSweep(i, p, g, hm, offX, offZ, xEnd - 1);
    var b := SurfaceRow(i, p, g, hm, offX, offZ, xEnd - 1, hm.Length1);
    var pre := Key(0, i, p, 1, 0, 0, 0);
    forall c | c in a ensures Prefix(KeyOf(c), 4) == pre && Field(KeyOf(c), 4) < x
    {
      CountMember(a, c);
      SurfaceSweepCount(i, p, g, hm, offX, offZ, xEnd - 1, c);
    }
    forall e | e in b ensures Prefix(KeyOf(e), 4) == pre && x <= Field(KeyOf(e), 4)
    {
      CountMember(b, e);
      SurfaceRowCount(i, p, g, hm, offX, offZ, xEnd - 1, hm.Length1, e);
    }
    PrecedesAt(a, b, pre, 4, x);
  }

  lemma {:induction false} SurfaceSweepOrdered(i: nat, p: nat, g: Generator, hm: array2<PP.Byte>, offX: int, offZ: int, xEnd: nat)
    requires xEnd <= hm.Length0
    ensures Ordered(SurfaceSweep(i, p, g, hm, offX, offZ, xEnd))
  {
    if xEnd > 0 {
      var a := SurfaceSweep(i, p, g, hm, offX, offZ, xEnd - 1);
      var b := SurfaceRow(i, p, g, hm, offX, offZ, xEnd - 1, hm.Length1);
      SurfaceSweepOrdered(i, p, g, hm, offX, offZ, xEnd - 1);
      SurfaceRowOrdered(i, p, g, hm, offX, offZ, xEnd - 1, hm.Length1);
      SurfaceSweepCross(i, p, g, hm, offX, offZ, xEnd);
      OrderedConcat(a, b);
    }
  }

  /** Every call of pass p of generator i has that generator and pass. */
  lemma InPassShape(c: Call, i: nat, p: nat, g: Generator, hm: array2<PP.Byte>, offX: int, offZ: int)
    requires InPass(c, i, p, g, hm, offX, offZ)
    ensures KeyOf(c).stage == 0 && KeyOf(c).gen == i && KeyOf(c).pass == p
  {
  }

  /** Within a pass, the block sweep comes before the surface sweep. */
  lemma SweepsCross(i: nat, p: nat, g: Generator, hm: array2<PP.Byte>, offX: int, offZ: int)
    ensures Precedes(BlockPart(i, p, g, hm, offX, offZ), SurfacePart(i, p, g, hm, offX, offZ))
  {
    var bs := BlockPart(i, p, g, hm, offX, offZ);
    var ss := SurfacePart(i, p, g, hm, offX, offZ);
    var pre := Key(0, i, p, 0, 0, 0, 0);
    forall c | c in bs ensures Prefix(KeyOf(c), 3) == pre && Field(KeyOf(c), 3) < 1
    {
      CountMember(bs, c);
      BlockSweepCount(i, p, g, offX, offZ, hm.Length1, hm.Length0, c);
    }
    forall e | e in ss ensures Prefix(KeyOf(e), 3) == pre && 1 <= Field(KeyOf(e), 3)
    {
      CountMember(ss, e);
      SurfaceSweepCount(i, p, g, hm, offX, offZ, hm.Length0, e);
    }
    PrecedesAt(bs, ss, pre, 3, 1);
  }

  /** Within a pass, both sweeps come before the region pass. */
  lemma RegionCross(i: nat, p: nat, g: Generator, hm: array2<PP.Byte>, offX: int, offZ: int)
    ensures Precedes(BlockPart(i, p, g, hm, offX, offZ) + SurfacePart(i, p, g, hm, offX, offZ), [RegionCall(i, p)])
  {
    var bs := BlockPart(i, p, g, hm, offX, offZ);
    var ss := SurfacePart(i, p, g, hm, offX, offZ);
    var pre := Key(0, i, p, 0, 0, 0, 0);
    forall c | c in bs + ss ensures Prefix(KeyOf(c), 3) == pre && Field(KeyOf(c), 3) < 2
    {
      CountMember(bs, c);
      BlockSweepCount(i, p, g, offX, offZ, hm.Length1, hm.Length0, c);
      CountMember(ss, c);
      SurfaceSweepCount(i, p, g, hm, offX, offZ, hm.Length0, c);
    }
    PrecedesAt(bs + ss, [RegionCall(i, p)], pre, 3, 2);
  }

  lemma PassOrdered(i: nat, p: nat, g: Generator, hm: array2<PP.Byte>, offX: int, offZ: int)
    ensures Ordered(PassCalls(i, p, g, hm, offX, offZ))
  {
    var bs := BlockPart(i, p, g, hm, offX, offZ);
    var ss := SurfacePart(i, p, g, hm, offX, offZ);
    BlockSweepOrdered(i, p, g, offX, offZ, hm.Length1, hm.Length0);
    SurfaceSweepOrdered(i, p, g, hm, offX, offZ, hm.Length0);
    SweepsCross(i, p, g, hm, offX, offZ);
    OrderedConcat(bs, ss);
    RegionCross(i, p, g, hm, offX, offZ);
    OrderedConcat(bs + ss, [RegionCall(i, p)]);
  }

  lemma PassMember(i: nat, p: nat, g: Generator, hm: array2<PP.Byte>, offX: int, offZ: int, c: Call)
    requires c in PassCalls(i, p, g, hm, offX, offZ)
    ensures KeyOf(c).stage == 0 && KeyOf(c).gen == i && KeyOf(c).pass == p
  {
    CountMember(PassCalls(i, p, g, hm, offX, offZ), c);
    PassCount(i, p, g, hm, offX, offZ, c);
    InPassShape(c, i, p, g, hm, offX, offZ);
  }

  lemma PassesMember(i: nat, g: Generator, hm: array2<PP.Byte>, offX: int, offZ: int, n: nat, c: Call)
    requires c in PassesUpTo(i, g, hm, offX, offZ, n)
    ensures KeyOf(c).stage == 0 && KeyOf(c).gen == i && 0 <= KeyOf(c).pass < n
  {
    CountMember(PassesUpTo(i, g, hm, offX, offZ, n), c);
    PassesCount(i, g, hm, offX, offZ, n, c);
    InPassShape(c, i, PassOf(c), g, hm, offX, offZ);
  }

  lemma GensMember(gens: seq<Generator>, hm: array2<PP.Byte>, offX: int, offZ: int, n: nat, c: Call)
    requires n <= |gens| && c in GensUpTo(gens, hm, offX, offZ, n)
    ensures KeyOf(c).stage == 0 && 0 <= KeyOf(c).gen < n
  {
    CountMember(GensUpTo(gens, hm, offX, offZ, n), c);
    GensCount(gens, hm, offX, offZ, n, c);
    InPassShape(c, c.gen, PassOf(c), gens[c.gen], hm, offX, offZ);
  }

  /** The calls of the earlier passes come before those of pass n - 1. */
  lemma PassesCross(i: nat, g: Generator, hm: array2<PP.Byte>, offX: int, offZ: int, n: nat)
    requires n > 0
    ensures Precedes(PassesUpTo(i, g, hm, offX, offZ, n - 1), PassCalls(i, n - 1, g, hm, offX, offZ))
  {
    var a := PassesUpTo(i, g, hm, offX, offZ, n - 1);
    var b := PassCalls(i, n - 1, g, hm, offX, offZ);
    var pre := Key(0, i, 0, 0, 0, 0, 0);
    forall c | c in a ensures Prefix(KeyOf(c), 2) == pre && Field(KeyOf(c), 2) < n - 1
    {
      PassesMember(i, g, hm, offX, offZ, n - 1, c);
    }
    forall e | e in b ensures Prefix(KeyOf(e), 2) == pre && n - 1 <= Field(KeyOf(e), 2)
    {
      PassMember(i, n - 1, g, hm, offX, offZ, e);
    }
    PrecedesAt(a, b, pre, 2, n - 1);
  }

  lemma {:induction false} PassesOrdered(i: nat, g: Generator, hm: array2<PP.Byte>, offX: int, offZ: int, n: nat)
    ensures Ordered(PassesUpTo(i, g, hm, offX, offZ, n))
  {
    if n > 0 {
      var a := PassesUpTo(i, g, hm, offX, offZ, n - 1);
      var b := PassCalls(i, n - 1, g, hm, offX, offZ);
      PassesOrdered(i, g, hm, offX, offZ, n - 1);
      PassOrdered(i, n - 1, g, hm, offX, offZ);
      PassesCross(i, g, hm, offX, offZ, n);
      OrderedConcat(a, b);
    }
  }

  /** The calls of the earlier generators come before those of generator n - 1. */
  lemma GensCross(gens: seq<Generator>, hm: array2<PP.Byte>, offX: int, offZ: int, n: nat)
    requires 0 < n <= |gens|
    ensures Precedes(GensUpTo(gens, hm, offX, offZ, n - 1), PassesUpTo(n - 1, gens[n - 1], hm, offX, offZ, gens[n - 1].settings.passes))
  {
    var g := gens[n - 1];
    var a := GensUpTo(gens, hm, offX, offZ, n - 1);
    var b := PassesUpTo(n - 1, g, hm, offX, offZ, g.settings.passes);
    var pre := Key(0, 0, 0, 0, 0, 0, 0);
    forall c | c in a ensures Prefix(KeyOf(c), 1) == pre && Field(KeyOf(c), 1) < n - 1
    {
      GensMember(gens, hm, offX, offZ, n - 1, c);
    }
    forall e | e in b ensures Prefix(KeyOf(e), 1) == pre && n - 1 <= Field(KeyOf(e), 1)
    {
      PassesMember(n - 1, g, hm, offX, offZ, g.settings.passes, e);
    }
    PrecedesAt(a, b, pre, 1, n - 1);
  }

  lemma {:induction false} GensOrdered(gens: seq<Generator>, hm: array2<PP.Byte>, offX: int, offZ: int, n: nat)
    requires n <= |gens|
    ensures Ordered(GensUpTo(gens, hm, offX, offZ, n))
  {
    if n > 0 {
      var g := gens[n - 1];
      var a := GensUpTo(gens, hm, offX, offZ, n - 1);
      var b := PassesUpTo(n - 1, g, hm, offX, offZ, g.settings.passes);
      GensOrdered(gens, hm, offX, offZ, n - 1);
      PassesOrdered(n - 1, g, hm, offX, offZ, g.settings.passes);
      GensCross(gens, hm, offX, offZ, n);
      OrderedConcat(a, b);
    }
  }

  /** Decoration runs the generators in list order, each generator's passes
      in order, in each pass the block sweep (x, then z, then y upwards),
      then the surface sweep (x, then z), then the region pass, and finishes
      every generator, in list order, after all the passes. */
  lemma ScheduleOrdered(gens: seq<Generator>, hm: array2<PP.Byte>, offX: int, offZ: int)
    ensures Ordered(Schedule(gens, hm, offX, offZ))
  {
    var a := GensUpTo(gens, hm, offX, offZ, |gens|);
    var b := Finishes(|gens|);
    GensOrdered(gens, hm, offX, offZ, |gens|);
    forall j, k | 0 <= j < |a| && 0 <= k < |b| ensures CrossAt(a, b, j, k)
    {
      GensMember(gens, hm, offX, offZ, |gens|, a[j]);
    }
    OrderedConcat(a, b);
  }

  // ---------------------------------------------------------------------
  // The sweeps, as loops

  /** The y loop of one column: `ProcessBlock` for y from `yMin` to `yMax`. */
  method SweepColumn(i: nat, p: nat, b: PP.Base, x: int, z: int, yMin: int, yMax: int) returns (t: seq<Call>)
    ensures t == ColumnCalls(i, p, b, x, z, yMin, yMax + 1)
  {
    t := [];
    var y := yMin;
    while y <= yMax
      invariant yMin <= y && (y <= yMax + 1 || y == yMin)
      invariant t == ColumnCalls(i, p, b, x, z, yMin, y)
      decreases yMax + 1 - y
    {
      t := t + BlockGate(i, p, b, (x, y, z));
      y := y + 1;
    }
  }

  /** The block sweep of one pass: x, then z, then the column. */
  method SweepBlocks(i: nat, p: nat, g: Generator, offX: int, offZ: int, lenX: nat, lenZ: nat) returns (t: seq<Call>)
    ensures t == BlockSweep(i, p, g, offX, offZ, lenZ, lenX)
  {
    t := [];
    var x := 0;
    while x < lenX
      invariant 0 <= x <= lenX
      invariant t == BlockSweep(i, p, g, offX, offZ, lenZ, x)
    {
      var row := [];
      var z := 0;
      while z < lenZ
        invariant 0 <= z <= lenZ
        invariant row == RowCalls(i, p, g, WorldX(offX, x), offZ, z)
      {
        var column := SweepColumn(i, p, g.base, WorldX(offX, x), WorldX(offZ, z), g.settings.yMin, g.settings.yMax);
        row := row + column;
        z := z + 1;
      }
      t := t + row;
      x := x + 1;
    }
  }

  /** The surface sweep of one pass: x, then z, at the heightmap's height. */
  method SweepSurface(i: nat, p: nat, g: Generator, hm: array2<PP.Byte>, offX: int, offZ: int) returns (t: seq<Call>)
    ensures t == SurfaceSweep(i, p, g, hm, offX, offZ, hm.Length0)
  {
    t := [];
    var x := 0;
    while x < hm.Length0
      invariant 0 <= x <= hm.Length0
      invariant t == SurfaceSweep(i, p, g, hm, offX, offZ, x)
    {
      var row := [];
      var z := 0;
      while z < hm.Length1
        invariant 0 <= z <= hm.Length1
        invariant row == SurfaceRow(i, p, g, hm, offX, offZ, x, z)
      {
        row := row + SurfaceGate(i, p, g.base, (WorldX(offX, x), hm[x, z] as int, WorldX(offZ, z)));
        z := z + 1;
      }
      t := t + row;
      x := x + 1;
    }
  }

  /** One pass of one generator. */
  method RunPass(i: nat, p: nat, g: Generator, hm: array2<PP.Byte>, offX: int, offZ: int) returns (t: seq<Call>)
    ensures t == PassCalls(i, p, g, hm, offX, offZ)
  {
    t := [];
    if PP.RunsBlockHook(g.settings.mode) {
      t := SweepBlocks(i, p, g, offX, offZ, hm.Length0, hm.Length1);
    }
    if PP.RunsSurfaceHook(g.settings.mode) {
      var s := SweepSurface(i, p, g, hm, offX, offZ);
      t := t + s;
    }
    t := t + [RegionCall(i, p)];
  }

  /** Making a pass's calls one at a time after `made`, none of which
      threw: either every call is made, or the calls up to and including
      the first one that throws are made and the rest are not. */
  method MakeCalls(made: seq<Call>, t: seq<Call>, throws: Call -> bool) returns (r: seq<Call>, thrown: bool)
    requires forall j :: 0 <= j < |made| ==> !throws(made[j])
    ensures made <= r && r <= made + t
    ensures !thrown ==> r == made + t
    ensures forall j :: 0 <= j < |r| ==> (throws(r[j]) <==> thrown && j == |r| - 1)
  {
    r := made;
    var k := 0;
    while k < |t|
      invariant 0 <= k <= |t|
      invariant r == made + t[..k]
      invariant forall j :: 0 <= j < |r| ==> !throws(r[j])
    {
      r := r + [t[k]];
      if throws(t[k]) {
        assert t[..k + 1] == t[..k] + [t[k]];
        return r, true;
      }
      assert t[..k + 1] == t[..k] + [t[k]];
      k := k + 1;
    }
    assert t[..k] == t;
    thrown := false;
  }

  /** The passes of a generator up to `p` come before those up to any later `q`. */
  lemma {:induction false} PassesPrefix(i: nat, g: Generator, hm: array2<PP.Byte>, offX: int, offZ: int, p: nat, q: nat)
    requires p <= q
    ensures PassesUpTo(i, g, hm, offX, offZ, p) <= PassesUpTo(i, g, hm, offX, offZ, q)
    decreases q
  {
    if p < q {
      PassesPrefix(i, g, hm, offX, offZ, p, q - 1);
    }
  }

  /** The generators up to `a` come before those up to any later `b`. */
  lemma {:induction false} GensPrefix(gens: seq<Generator>, hm: array2<PP.Byte>, offX: int, offZ: int, a: nat, b: nat)
    requires a <= b <= |gens|
    ensures GensUpTo(gens, hm, offX, offZ, a) <= GensUpTo(gens, hm, offX, offZ, b)
    decreases b
  {
    if a < b {
      GensPrefix(gens, hm, offX, offZ, a, b - 1);
    }
  }

  /** A prefix stays a prefix behind a common front. */
  lemma PrefixFront<T>(c: seq<T>, a: seq<T>, b: seq<T>)
    requires a <= b
    ensures c + a <= c + b
  {
    assert (c + b)[..|c + a|] == c + a;
  }

  lemma AppendAssoc<T>(a: seq<T>, b: seq<T>, c: seq<T>)
    ensures a + b + c == a + (b + c)
  {
  }

  lemma PrefixTrans<T>(a: seq<T>, b: seq<T>, c: seq<T>)
    requires a <= b && b <= c
    ensures a <= c
  {
  }

  /** One more pass. */
  lemma PassesStep(i: nat, g: Generator, hm: array2<PP.Byte>, offX: int, offZ: int, p: nat)
    ensures PassesUpTo(i, g, hm, offX, offZ, p + 1) == PassesUpTo(i, g, hm, offX, offZ, p) + PassCalls(i, p, g, hm, offX, offZ)
  {
  }

  /** One more generator. */
  lemma GensStep(gens: seq<Generator>, hm: array2<PP.Byte>, offX: int, offZ: int, i: nat)
    requires i < |gens|
    ensures GensUpTo(gens, hm, offX, offZ, i + 1) ==
            GensUpTo(gens, hm, offX, offZ, i) + PassesUpTo(i, gens[i], hm, offX, offZ, gens[i].settings.passes)
  {
  }

  /** The passes of generator i, with everything before them, start the schedule. */
  lemma GenInSchedule(gens: seq<Generator>, hm: array2<PP.Byte>, offX: int, offZ: int, i: nat)
    requires i < |gens|
    ensures GensUpTo(gens, hm, offX, offZ, i) + PassesUpTo(i, gens[i], hm, offX, offZ, gens[i].settings.passes)
            <= Schedule(gens, hm, offX, offZ)
  {
    var last := GensUpTo(gens, hm, offX, offZ, |gens|);
    GensStep(gens, hm, offX, offZ, i);
    GensPrefix(gens, hm, offX, offZ, i + 1, |gens|);
    assert last <= Schedule(gens, hm, offX, offZ);
    PrefixTrans(GensUpTo(gens, hm, offX, offZ, i + 1), last, Schedule(gens, hm, offX, offZ));
  }

  /** Every pass of generator i after the calls `made`, none of which
      threw: all of its calls, or those up to the first that throws. */
  method RunPasses(made: seq<Call>, i: nat, g: Generator, hm: array2<PP.Byte>, offX: int, offZ: int, throws: Call -> bool)
    returns (r: seq<Call>, thrown: bool)
    requires forall j :: 0 <= j < |made| ==> !throws(made[j])
    ensures r <= made + PassesUpTo(i, g, hm, offX, offZ, g.settings.passes)
    ensures !thrown ==> r == made + PassesUpTo(i, g, hm, offX, offZ, g.settings.passes)
    ensures forall j :: 0 <= j < |r| ==> (throws(r[j]) <==> thrown && j == |r| - 1)
  {
    r := made;
    var p := 0;
    while p < g.settings.passes
      invariant 0 <= p <= g.settings.passes
      invariant r == made + PassesUpTo(i, g, hm, offX, offZ, p)
      invariant forall j :: 0 <= j < |r| ==> !throws(r[j])
    {
      var t := RunPass(i, p, g, hm, offX, offZ);
      ghost var before := r;
      r, thrown := MakeCalls(r, t, throws);
      PassesStep(i, g, hm, offX, offZ, p);
      AppendAssoc(made, PassesUpTo(i, g, hm, offX, offZ, p), t);
      if thrown {
        PassesPrefix(i, g, hm, offX, offZ, p + 1, g.settings.passes);
        PrefixFront(made, PassesUpTo(i, g, hm, offX, offZ, p + 1), PassesUpTo(i, g, hm, offX, offZ, g.settings.passes));
        PrefixTrans(r, before + t, made + PassesUpTo(i, g, hm, offX, offZ, g.settings.passes));
        return;
      }
      p := p + 1;
    }
    thrown := false;
  }

  /** `OnFinish` for each of the n generators after the calls `made`, none
      of which threw: all of them, or those up to the first that throws. */
  method RunFinishes(made: seq<Call>, n: nat, throws: Call -> bool) returns (r: seq<Call>, thrown: bool)
    requires forall j :: 0 <= j < |made| ==> !throws(made[j])
    ensures r <= made + Finishes(n)
    ensures !thrown ==> r == made + Finishes(n)
    ensures forall j :: 0 <= j < |r| ==> (throws(r[j]) <==> thrown && j == |r| - 1)
  {
    r := made;
    var j := 0;
    while j < n
      invariant 0 <= j <= n
      invariant r == made + Finishes(j)
      invariant forall m :: 0 <= m < |r| ==> !throws(r[m])
    {
      AppendAssoc(made, Finishes(j), [FinishCall(j)]);
      r := r + [FinishCall(j)];
      if throws(FinishCall(j)) {
        assert Finishes(j + 1) <= Finishes(n);
        PrefixFront(made, Finishes(j + 1), Finishes(n));
        return r, true;
      }
      j := j + 1;
    }
    thrown := false;
  }

  // ---------------------------------------------------------------------
  // The stack

  /** `WorldPostProcessingStack`: the generators in list order and the
      schematics by key, both filled while loading. */
  class Stack {
    const loader: Loader
    var generators: seq<Generator>
    var schematics: map<string, Schematic>

    constructor(loader: Loader)
      ensures this.loader == loader && generators == [] && schematics == map[]
    {
      this.loader := loader;
      generators := [];
      schematics := map[];
    }

    method RegisterStructure(filename: string, key: string)
      modifies this`schematics
      ensures schematics == Register(loader, old(schematics), filename, key)
    {
      var sc := loader.schematic(filename);
      if sc.Some? && key !in schematics {
        schematics := schematics[key := sc.value];
      }
    }

    /** The children of one `schematics` element. */
    method RegisterStructures(es: seq<Element>, root: string)
      modifies this`schematics
      ensures schematics == RegisterAll(loader, old(schematics), es, root)
    {
      var i := 0;
      while i < |es|
        invariant 0 <= i <= |es|
        invariant RegisterAll(loader, schematics, es[i..], root) == RegisterAll(loader, old(schematics), es, root)
      {
        assert es[i..][1..] == es[i + 1..];
        RegisterStructure(Paths.Combine(root, es[i].text), es[i].name);
        i := i + 1;
      }
    }

    /** Returns the exception that ends loading, if one is thrown. */
    method LoadGenerator(e: Element, fromInclude: bool, root: string) returns (error: Option<string>)
      modifies this`generators, this`schematics
      ensures Load(generators, schematics, error) == GeneratorLoad(loader, old(generators), old(schematics), e, fromInclude, root)
      decreases if fromInclude then 0 else 1
    {
      var name := Lower(e.name);
      var kind := KindOf(name);
      if kind.Some? {
        var r := Construct(loader, kind.value, e, root, schematics);
        if r.Err? {
          return Some(r.msg);
        }
        generators := generators + [r.value];
        return None;
      }
      if name != "include" || fromInclude {
        return None;
      }
      var file := Attr(e, "file");
      if file.None? {
        return Some(MissingFile);
      }
      var path := Paths.Combine(root, file.value);
      var inc := loader.readXml(path);
      if inc.Err? {
        return Some(inc.msg);
      }
      var cs := inc.value.children;
      var dir := Paths.DirectoryName(path);
      var i := 0;
      while i < |cs|
        invariant 0 <= i <= |cs|
        invariant IncludeLoad(loader, generators, schematics, cs[i..], root, dir) ==
                  IncludeLoad(loader, old(generators), old(schematics), cs, root, dir)
      {
        assert cs[i..][1..] == cs[i + 1..];
        if cs[i].name == "schematics" {
          RegisterStructures(cs[i].children, root);
        } else {
          var err := LoadGenerator(cs[i], true, dir);
          if err.Some? {
            return err;
          }
        }
        i := i + 1;
      }
      return None;
    }

    /** Returns the exception that was caught (and only reported). */
    method LoadSettings(root: Element, folder: string) returns (error: Option<string>)
      modifies this`generators, this`schematics
      ensures Load(generators, schematics, error) == SettingsLoad(loader, old(generators), old(schematics), root, folder)
    {
      var containers := Descendants(root, "schematics");
      var i := 0;
      while i < |containers|
        invariant 0 <= i <= |containers|
        invariant generators == old(generators)
        invariant RegisterContainers(loader, schematics, containers[i..], folder) ==
                  RegisterContainers(loader, old(schematics), containers, folder)
      {
        assert containers[i..][1..] == containers[i + 1..];
        RegisterStructures(containers[i].children, folder);
        i := i + 1;
      }
      var post := Child(root, "postprocess");
      if post.None? {
        return Some(MissingPostprocess);
      }
      var cs := post.value.children;
      ghost var gens0, s0 := generators, schematics;
      var j := 0;
      while j < |cs|
        invariant 0 <= j <= |cs|
        invariant GeneratorsLoad(loader, generators, schematics, cs[j..], folder) ==
                  GeneratorsLoad(loader, gens0, s0, cs, folder)
      {
        assert cs[j..][1..] == cs[j + 1..];
        var err := LoadGenerator(cs[j], false, folder);
        if err.Some? {
          return err;
        }
        j := j + 1;
      }
      return None;
    }

    /** `CreateFromXML`: reading or parsing the file throws out of the call
        and leaves the stack as it was; otherwise the settings load with the
        imported file's folder as root, and an exception while loading is
        caught and reported. */
    method CreateFromXML(importedFilePath: string, xmlFilePath: string) returns (thrown: Option<string>, reported: Option<string>)
      modifies this`generators, this`schematics
      ensures loader.readXml(xmlFilePath).Err? ==>
                thrown == Some(loader.readXml(xmlFilePath).msg) && reported.None? &&
                generators == old(generators) && schematics == old(schematics)
      ensures loader.readXml(xmlFilePath).Ok? ==>
                thrown.None? &&
                Load(generators, schematics, reported) ==
                SettingsLoad(loader, old(generators), old(schematics), loader.readXml(xmlFilePath).value, Paths.DirectoryName(importedFilePath))
    {
      var doc := loader.readXml(xmlFilePath);
      if doc.Err? {
        return Some(doc.msg), None;
      }
      reported := LoadSettings(doc.value, Paths.DirectoryName(importedFilePath));
      thrown := None;
    }

    /** `CreateDefaultPostProcessor`: the same with the bundled configuration. */
    method CreateDefaultPostProcessor(importedFilePath: string) returns (thrown: Option<string>, reported: Option<string>)
      modifies this`generators, this`schematics
      ensures loader.defaultConfig.Err? ==>
                thrown == Some(loader.defaultConfig.msg) && reported.None? &&
                generators == old(generators) && schematics == old(schematics)
      ensures loader.defaultConfig.Ok? ==>
                thrown.None? &&
                Load(generators, schematics, reported) ==
                SettingsLoad(loader, old(generators), old(schematics), loader.defaultConfig.value, Paths.DirectoryName(importedFilePath))
    {
      var doc := loader.defaultConfig;
      if doc.Err? {
        return Some(doc.msg), None;
      }
      reported := LoadSettings(doc.value, Paths.DirectoryName(importedFilePath));
      thrown := None;
    }

    /** `ContinsGeneratorOfType`: whether some generator has exactly the kind. */
    method ContainsGeneratorOfType(k: Kind) returns (b: bool)
      ensures b <==> exists j :: 0 <= j < |generators| && generators[j].kind == k
    {
      var j := 0;
      while j < |generators|
        invariant 0 <= j <= |generators|
        invariant forall m :: 0 <= m < j ==> generators[m].kind != k
      {
        if generators[j].kind == k {
          return true;
        }
        j := j + 1;
      }
      return false;
    }

    /** `DecorateTerrain`: the hook calls, in the order they are made.
        `throws` tells which calls raise an exception; nothing in the loop
        catches one, so the first call that throws is the last one made, and
        no later pass, sweep or `OnFinish` runs. */
    method DecorateTerrain(hm: array2<PP.Byte>, offX: int, offZ: int, throws: Call -> bool) returns (calls: seq<Call>, thrown: bool)
      ensures calls <= Schedule(generators, hm, offX, offZ)
      ensures !thrown ==> calls == Schedule(generators, hm, offX, offZ)
      ensures forall j :: 0 <= j < |calls| ==> (throws(calls[j]) <==> thrown && j == |calls| - 1)
    {
      var gens := generators;
      calls := [];
      var i := 0;
      while i < |gens|
        invariant 0 <= i <= |gens|
        invariant calls == GensUpTo(gens, hm, offX, offZ, i)
        invariant forall j :: 0 <= j < |calls| ==> !throws(calls[j])
      {
        ghost var before := calls;
        calls, thrown := RunPasses(calls, i, gens[i], hm, offX, offZ, throws);
        GenInSchedule(gens, hm, offX, offZ, i);
        if thrown {
          PrefixTrans(calls, before + PassesUpTo(i, gens[i], hm, offX, offZ, gens[i].settings.passes), Schedule(gens, hm, offX, offZ));
          return;
        }
        GensStep(gens, hm, offX, offZ, i);
        i := i + 1;
      }
      calls, thrown := RunFinishes(calls, |gens|, throws);
    }

    /** `OnCreateWorldFiles`: every generator once, in list order. */
    method OnCreateWorldFiles(folder: string) returns (calls: seq<Call>)
      ensures |calls| == |generators|
      ensures forall j :: 0 <= j < |calls| ==> calls[j] == WorldFilesCall(j, folder)
    {
      calls := [];
      var j := 0;
      while j < |generators|
        invariant 0 <= j <= |generators|
        invariant |calls| == j && forall m :: 0 <= m < j ==> calls[m] == WorldFilesCall(m, folder)
      {
        calls := calls + [WorldFilesCall(j, folder)];
        j := j + 1;
      }
    }
  }
}
