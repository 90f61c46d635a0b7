/** The world exporter: it quantises the input heightmap into bytes, places
    it in the world by region offset, and picks the decoration chain — a
    custom configuration file, the bundled default, or none — before adding
    the block analysis on request. */
module Exporter {
  import opened Common
  import opened Xml
  import Paths
  import opened World
  import PP = PostProcessor
  import Chain

  // ---------------------------------------------------------------------
  // Heightmap and placement

  /** `Math.Round(v, MidpointRounding.AwayFromZero)`. */
  function RoundHalfAway(r: real): int
  {
    if r >= 0.0 then (r + 0.5).Floor else -((-r + 0.5).Floor)
  }

  /** The rounded value is the nearest integer, and a value halfway between
      two integers goes to the one farther from zero. */
  lemma RoundHalfAwayMeaning(r: real)
    ensures var n := RoundHalfAway(r) as real;
            n - 0.5 <= r <= n + 0.5 &&
            (r == n - 0.5 ==> r > 0.0) && (r == n + 0.5 ==> r < 0.0)
  {
    var n := RoundHalfAway(r);
    if r >= 0.0 {
      assert n as real <= r + 0.5 < n as real + 1.0;
    } else {
      var f := (-r + 0.5).Floor;
      assert f as real <= -r + 0.5 < f as real + 1.0;
      assert n == -f;
    }
  }

  function Clamp(n: int, lo: int, hi: int): int
  {
    if n < lo then lo else if n > hi then hi else n
  }

  /** `(byte)Clamp(Round(v), 0, 255)`: one heightmap cell. */
  function Quantize(r: real): PP.Byte
  {
    Clamp(RoundHalfAway(r), 0, 255)
  }

  /** A cell is the height rounded to the nearest integer when that is in
      the byte range, 0 below it and 255 above it; and a higher input never
      gives a lower cell. */
  lemma QuantizeMeaning(r: real, s: real)
    ensures -0.5 < r < 255.5 ==> -0.5 <= Quantize(r) as real - r <= 0.5
    ensures r <= 0.0 ==> Quantize(r) == 0
    ensures r >= 255.0 ==> Quantize(r) == 255
    ensures r <= s ==> Quantize(r) <= Quantize(s)
  {
    RoundHalfAwayMeaning(r);
    RoundHalfAwayMeaning(s);
    if r <= s {
      RoundMonotone(r, s);
    }
  }

  lemma RoundMonotone(r: real, s: real)
    requires r <= s
    ensures RoundHalfAway(r) <= RoundHalfAway(s)
  {
    if r >= 0.0 {
      assert (r + 0.5).Floor <= (s + 0.5).Floor;
    } else if s < 0.0 {
      assert (-s + 0.5).Floor <= (-r + 0.5).Floor;
    } else {
      assert (-r + 0.5).Floor >= 0;
    }
  }

  /** `(int)Math.Ceiling(len / 512f)`: how many regions the heightmap spans. */
  function RegionNum(len: nat): nat { (len + 511) / 512 }

  /** The regions cover the heightmap, and none of them is left empty. */
  lemma RegionNumCovers(len: nat)
    ensures RegionNum(len) * 512 >= len
    ensures len > 0 ==> (RegionNum(len) - 1) * 512 < len
    ensures len == 0 ==> RegionNum(len) == 0
  {
  }

  /** The world area in blocks, both ends included. */
  datatype Bounds = Bounds(xMin: int, zMin: int, xMax: int, zMax: int)

  /** The heightmap's area, starting at its region offset. */
  function WorldBounds(offX: int, offZ: int, lenX: nat, lenZ: nat): (b: Bounds)
    ensures b.xMin == 512 * offX && b.zMin == 512 * offZ
    ensures b.xMax - b.xMin + 1 == lenX && b.zMax - b.zMin + 1 == lenZ
  {
    var xMin := offX * 512;
    var zMin := offZ * 512;
    Bounds(xMin, zMin, xMin + lenX - 1, zMin + lenZ - 1)
  }

  /** The warning about void borders: a side that is not a multiple of 16. */
  predicate BorderWarning(lenX: nat, lenZ: nat)
  {
    lenX % 16 > 0 || lenZ % 16 > 0
  }

  /** The export settings the exporter reads. A setting given as None takes
      its default. The game version arrives parsed: the version parser is
      not part of this model. */
  datatype Task = Task(
    exportNumX: int,
    exportNumZ: int,
    mcaOffsetX: Option<int>,
    mcaOffsetZ: Option<int>,
    voidGen: Option<bool>,
    mcVersion: Option<Version>,
    mcpostfile: Option<string>,
    analyzeBlocks: Option<bool>,
    filePath: string,
    sourceFileName: string)

  function Setting<T>(o: Option<T>, d: T): T
  {
    if o.Some? then o.value else d
  }

  /** The heightmap, cell by cell, in a new array. */
  method QuantizeGrid(grid: array2<real>) returns (hm: array2<PP.Byte>)
    ensures fresh(hm)
    ensures hm.Length0 == grid.Length0 && hm.Length1 == grid.Length1
    ensures forall x, z :: 0 <= x < hm.Length0 && 0 <= z < hm.Length1 ==> hm[x, z] == Quantize(grid[x, z])
  {
    hm := new PP.Byte[grid.Length0, grid.Length1];
    var x := 0;
    while x < grid.Length0
      invariant 0 <= x <= grid.Length0
      invariant forall i, k :: 0 <= i < x && 0 <= k < hm.Length1 ==> hm[i, k] == Quantize(grid[i, k])
    {
      var z := 0;
      while z < grid.Length1
        invariant 0 <= z <= grid.Length1
        invariant forall i, k :: 0 <= i < x && 0 <= k < hm.Length1 ==> hm[i, k] == Quantize(grid[i, k])
        invariant forall k :: 0 <= k < z ==> hm[x, k] == Quantize(grid[x, k])
      {
        hm[x, z] := Quantize(grid[x, z]);
        z := z + 1;
      }
      x := x + 1;
    }
  }

  // ---------------------------------------------------------------------
  // Choosing the decoration chain

  /** The custom configuration file: `mcpostfile` next to the source file,
      with ".xml" added when it has no extension, or else the export path
      without its extension followed by "-postprocess.xml". */
  function XmlPath(t: Task): string
  {
    match t.mcpostfile
    case Some(f) =>
      var p := Paths.Combine(Paths.DirectoryName(t.sourceFileName), f);
      if |Paths.Extension(p)| == 0 then p + ".xml" else p
    case None => Paths.WithoutExtension(t.filePath) + "-postprocess.xml"
  }

  /** Appending ".xml" does give the path an extension, so every custom
      configuration path has one. */
  lemma XmlPathHasExtension(t: Task)
    requires t.mcpostfile.Some?
    ensures |Paths.Extension(XmlPath(t))| > 0
  {
    var p := Paths.Combine(Paths.DirectoryName(t.sourceFileName), t.mcpostfile.value);
    if |Paths.Extension(p)| == 0 {
      var q := p + ".xml";
      NameStartAppend(p, ".xml");
      assert q[|q| - 1] != '.' && q[|p|] == '.';
      LastDotAppend(q, Paths.NameStart(q), |p|);
    }
  }

  /** A suffix without '/' leaves the file name's start where it was. */
  lemma {:induction false} NameStartAppend(p: string, s: string)
    requires forall j :: 0 <= j < |s| ==> s[j] != '/'
    ensures Paths.NameStart(p + s) == Paths.NameStart(p)
    decreases |s|
  {
    if s != [] {
      var q := p + s;
      assert q[..|q| - 1] == p + s[..|s| - 1];
      NameStartAppend(p, s[..|s| - 1]);
    } else {
      assert p + s == p;
    }
  }

  /** The last '.' is at or after a known one. */
  lemma LastDotAppend(q: string, from: nat, i: nat)
    requires from <= i < |q| && q[i] == '.'
    ensures Paths.LastDot(q, from).Some? && Paths.LastDot(q, from).value >= i
  {
  }

  /** What a stack holds once it has loaded. */
  datatype Contents = Contents(gens: seq<Chain.Generator>, schematics: map<string, Schematic>)

  const Empty: Contents := Contents([], map[])

  /** What `CreateFromXML` or `CreateDefaultPostProcessor` leaves in a new
      stack (an exception while loading is caught and reported inside) and
      the exception that escapes it, from reading or parsing the file. */
  function CreateFrom(ld: Chain.Loader, doc: Result<Element>, importedFilePath: string): (Contents, Option<string>)
  {
    match doc
    case Err(msg) => (Empty, Some(msg))
    case Ok(root) =>
      var l := Chain.SettingsLoad(ld, [], map[], root, Paths.DirectoryName(importedFilePath));
      (Contents(l.gens, l.schematics), None)
  }

  /** The chain an exporter ends up with (None for `null`) and the exception
      that escapes construction. */
  datatype Setup = Setup(stack: Option<Contents>, thrown: Option<string>)

  const NullReference: string := "NullReferenceException: no post-processing stack to add the analysis to"

  /** The custom file first; when reading it throws, the default with
      fallback, else the empty stack created before the attempt stays;
      without a custom file the default, or no stack at all. */
  function Chosen(ld: Chain.Loader, filePath: string, xmlPath: string, custom: bool, useDefault: bool): (r: Setup)
    ensures r.stack.None? <==> !custom && !useDefault
    ensures r.thrown.Some? <==> useDefault && ld.defaultConfig.Err? && (!custom || ld.readXml(xmlPath).Err?)
    ensures custom && ld.readXml(xmlPath).Ok? ==> r.stack == Some(CreateFrom(ld, ld.readXml(xmlPath), filePath).0)
    ensures custom && ld.readXml(xmlPath).Err? && !useDefault ==> r.stack == Some(Empty)
    ensures useDefault && (!custom || ld.readXml(xmlPath).Err?) ==> r.stack == Some(CreateFrom(ld, ld.defaultConfig, filePath).0)
  {
    var d := CreateFrom(ld, ld.defaultConfig, filePath);
    if custom then
      var c := CreateFrom(ld, ld.readXml(xmlPath), filePath);
      if c.1.None? then Setup(Some(c.0), None)
      else if useDefault then Setup(Some(d.0), d.1)
      else Setup(Some(Empty), None)
    else if useDefault then Setup(Some(d.0), d.1)
    else Setup(None, None)
  }

  predicate HasAnalysis(gens: seq<Chain.Generator>)
  {
    exists j :: 0 <= j < |gens| && gens[j].kind == Chain.AnalysisGen
  }

  /** `mcAnalyzeBlocks`: the analysis is appended unless one is there; with
      no stack the lookup throws. */
  function WithAnalysis(s: Setup, analyze: bool): (r: Setup)
    ensures !analyze || s.thrown.Some? ==> r == s
    ensures analyze && s.thrown.None? && s.stack.None? ==> r.thrown == Some(NullReference)
    ensures analyze && s.thrown.None? && s.stack.Some? ==>
              r.thrown.None? && r.stack.Some? && HasAnalysis(r.stack.value.gens) &&
              r.stack.value.schematics == s.stack.value.schematics &&
              |r.stack.value.gens| == |s.stack.value.gens| + (if HasAnalysis(s.stack.value.gens) then 0 else 1) &&
              r.stack.value.gens[..|s.stack.value.gens|] == s.stack.value.gens
  {
    if !analyze || s.thrown.Some? then s
    else if s.stack.None? then Setup(None, Some(NullReference))
    else if HasAnalysis(s.stack.value.gens) then s
    else
      var gens := s.stack.value.gens + [Chain.Analysis];
      assert gens[|gens| - 1].kind == Chain.AnalysisGen;
      assert gens[..|s.stack.value.gens|] == s.stack.value.gens;
      Setup(Some(s.stack.value.(gens := gens)), None)
  }

  /** Asking for the analysis twice adds it once. */
  lemma AnalysisIdempotent(s: Setup, analyze: bool)
    ensures WithAnalysis(WithAnalysis(s, analyze), analyze) == WithAnalysis(s, analyze)
  {
  }

  // ---------------------------------------------------------------------
  // The exporter

  /** `MCWorldExporter`. */
  class MCExporter {
    const task: Task
    var targetVersion: Version
    var heightmap: array2<PP.Byte>
    var regionNumX: nat
    var regionNumZ: nat
    var regionOffsetX: int
    var regionOffsetZ: int
    var generateVoid: bool
    var heightmapLengthX: nat
    var heightmapLengthZ: nat
    var worldBounds: Bounds
    /** Whether the void-border warning was written. */
    var warned: bool
    var postProcessor: Chain.Stack?

    /** The first constructor; the default version is the world library's. */
    constructor(task: Task, grid: array2<real>, defaultVersion: Version)
      ensures this.task == task
      ensures regionOffsetX == task.exportNumX + Setting(task.mcaOffsetX, 0)
      ensures regionOffsetZ == task.exportNumZ + Setting(task.mcaOffsetZ, 0)
      ensures generateVoid == Setting(task.voidGen, false)
      ensures targetVersion == Setting(task.mcVersion, defaultVersion)
      ensures heightmapLengthX == grid.Length0 && heightmapLengthZ == grid.Length1
      ensures worldBounds == WorldBounds(regionOffsetX, regionOffsetZ, grid.Length0, grid.Length1)
      ensures fresh(heightmap) && heightmap.Length0 == grid.Length0 && heightmap.Length1 == grid.Length1
      ensures forall x, z :: 0 <= x < grid.Length0 && 0 <= z < grid.Length1 ==> heightmap[x, z] == Quantize(grid[x, z])
      ensures regionNumX == RegionNum(grid.Length0) && regionNumZ == RegionNum(grid.Length1)
      ensures warned == BorderWarning(grid.Length0, grid.Length1)
      ensures postProcessor == null
    {
      this.task := task;
      regionOffsetX := task.exportNumX + Setting(task.mcaOffsetX, 0);
      regionOffsetZ := task.exportNumZ + Setting(task.mcaOffsetZ, 0);
      generateVoid := Setting(task.voidGen, false);
      targetVersion := if task.mcVersion.Some? then task.mcVersion.value else defaultVersion;
      heightmapLengthX := grid.Length0;
      heightmapLengthZ := grid.Length1;
      worldBounds := WorldBounds(task.exportNumX + Setting(task.mcaOffsetX, 0), task.exportNumZ + Setting(task.mcaOffsetZ, 0), grid.Length0, grid.Length1);
      var hm := QuantizeGrid(grid);
      heightmap := hm;
      regionNumX := RegionNum(grid.Length0);
      regionNumZ := RegionNum(grid.Length1);
      warned := grid.Length0 % 16 > 0 || grid.Length1 % 16 > 0;
      postProcessor := null;
    }

    /** The loader every stack of this exporter uses: generators receive the
        world origin of the region offset. */
    function LoaderFor(ld: Chain.Loader): Chain.Loader
      reads this
    {
      ld.(offX := regionOffsetX * 512, offZ := regionOffsetZ * 512)
    }

    /** The second constructor's body, run on a freshly constructed
        exporter, whose stack is still null: choosing the decoration chain
        and adding the analysis. Returns the exception that escapes. */
    method SetupPostProcessing(ld: Chain.Loader, custom: bool, useDefault: bool) returns (thrown: Option<string>)
      requires postProcessor == null
      modifies this`postProcessor
      ensures var s := WithAnalysis(Chosen(LoaderFor(ld), task.filePath, XmlPath(task), custom, useDefault),
                                    Setting(task.analyzeBlocks, false));
              thrown == s.thrown &&
              (s.thrown.None? ==>
                 (postProcessor == null <==> s.stack.None?) &&
                 (postProcessor != null ==>
                    fresh(postProcessor) && postProcessor.loader == LoaderFor(ld) &&
                    Contents(postProcessor.generators, postProcessor.schematics) == s.stack.value))
    {
      var l := LoaderFor(ld);
      var st, failed := Choose(l, task.filePath, XmlPath(task), custom, useDefault);
      postProcessor := st;
      if failed.Some? {
        return failed;
      }
      thrown := AddAnalysis(st, Setting(task.analyzeBlocks, false));
    }

    /** `WriteFile`, as far as the chain sees it: every generator is told
        the folder once, in list order, unless there is no chain; an
        unsupported format throws. */
    method WriteFile(path: string, format: FileFormat) returns (r: Result<seq<Chain.Call>>)
      ensures r.Err? <==> format.OtherFormat?
      ensures r.Ok? && postProcessor == null ==> r.value == []
      ensures r.Ok? && postProcessor != null ==>
                |r.value| == |postProcessor.generators| &&
                forall j :: 0 <= j < |r.value| ==> r.value[j] == Chain.WorldFilesCall(j, WorldFilesFolder(path, format).value)
    {
      var folder := WorldFilesFolder(path, format);
      if folder.Err? {
        return Err(folder.msg);
      }
      var calls := [];
      if postProcessor != null {
        calls := postProcessor.OnCreateWorldFiles(folder.value);
      }
      return Ok(calls);
    }
  }

  /** The output formats `WriteFile` tells apart. */
  datatype FileFormat = RegionFile | WorldSave | OtherFormat(identifier: string)

  /** `Path.GetFileNameWithoutExtension`. */
  function FileNameWithoutExtension(p: string): string
  {
    Paths.WithoutExtension(p[Paths.NameStart(p)..])
  }

  /** The folder the chain's `OnCreateWorldFiles` is given: the region
      file's own path, or for a world save the folder named after the file. */
  function WorldFilesFolder(path: string, format: FileFormat): (r: Result<string>)
    ensures format.OtherFormat? <==> r.Err?
  {
    match format
    case RegionFile => Ok(path)
    case WorldSave => Ok(Paths.Combine(Paths.DirectoryName(path), FileNameWithoutExtension(path)))
    case OtherFormat(id) => Err("InvalidOperationException: Unsupported format: " + id)
  }

  /** A new stack loaded from the custom file. */
  method FromFile(l: Chain.Loader, filePath: string, xmlPath: string) returns (st: Chain.Stack, thrown: Option<string>)
    ensures fresh(st) && st.loader == l
    ensures (Contents(st.generators, st.schematics), thrown) == CreateFrom(l, l.readXml(xmlPath), filePath)
  {
    st := new Chain.Stack(l);
    var reported;
    thrown, reported := st.CreateFromXML(filePath, xmlPath);
  }

  /** A new stack loaded from the bundled default configuration. */
  method FromDefault(l: Chain.Loader, filePath: string) returns (st: Chain.Stack, thrown: Option<string>)
    ensures fresh(st) && st.loader == l
    ensures (Contents(st.generators, st.schematics), thrown) == CreateFrom(l, l.defaultConfig, filePath)
  {
    st := new Chain.Stack(l);
    var reported;
    thrown, reported := st.CreateDefaultPostProcessor(filePath);
  }

  /** The stack the exporter keeps, and the exception that escapes. */
  method Choose(l: Chain.Loader, filePath: string, xmlPath: string, custom: bool, useDefault: bool)
    returns (st: Chain.Stack?, thrown: Option<string>)
    ensures var s := Chosen(l, filePath, xmlPath, custom, useDefault);
            thrown == s.thrown &&
            (st == null <==> s.stack.None?) &&
            (st != null ==> fresh(st) && st.loader == l && (s.thrown.None? ==> Contents(st.generators, st.schematics) == s.stack.value))
  {
    st, thrown := null, None;
    if custom {
      st, thrown := FromFile(l, filePath, xmlPath);
      if thrown.Some? && useDefault {
        st, thrown := FromDefault(l, filePath);
      } else {
        thrown := None;
      }
    } else if useDefault {
      st, thrown := FromDefault(l, filePath);
    }
  }

  /** `mcAnalyzeBlocks` on the chosen stack. */
  method AddAnalysis(st: Chain.Stack?, analyze: bool) returns (thrown: Option<string>)
    modifies if st != null then {st} else {}
    ensures var s := WithAnalysis(Setup(if st == null then None else Some(old(Contents(st.generators, st.schematics))), None), analyze);
            thrown == s.thrown &&
            (st != null ==> Contents(st.generators, st.schematics) == s.stack.value)
    ensures st != null ==> st.schematics == old(st.schematics)
  {
    if analyze {
      if st == null {
        return Some(NullReference);
      }
      var present := st.ContainsGeneratorOfType(Chain.AnalysisGen);
      if !present {
        st.generators := st.generators + [Chain.Analysis];
      }
    }
    return None;
  }
}
