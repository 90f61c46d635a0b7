# TerrainFactory Minecraft decoration pipeline, in Dafny

This project models the part of the TerrainFactory Minecraft module that turns a
heightmap into a decorated world, and proves properties of that model.

- **The exporter** (`Exporter`) quantises the input heightmap into bytes and places it
  by region offset. It chooses the decoration chain: a custom configuration file, the
  bundled default, or none, with the default as a fallback when the custom file fails.
  On request it adds the block analysis.
- **The world generator** (`WorldGen`) fills every heightmap column. From release 1.18
  on it puts deepslate below zero. It fills the default block up to the column's
  height and puts bedrock in the lowest layer. It does this in 16-wide bands.
- **The decoration chain** (`Chain`, the `WorldPostProcessingStack`) reads the
  configuration. Each recognised tag becomes one generator, in document order. An
  include splices in one further file, and only one level of include is allowed.
  Schematics are registered by key. During decoration every generator, in list order,
  runs its passes. Each pass is a block sweep, then a surface sweep, then a region
  pass. After all passes, every generator is finished, again in list order.
- **The shared generator base** (`PostProcessor`) covers the run modes and
  priorities and the default settings. It also covers the optional single-channel
  mask, which lets a hook run only where the mask is positive. The weightmap
  dispatches splat layers by channel, with a 0.001 threshold.
- **The generators** are the following:
  - bedrock floor (`Bedrock`)
  - random torches (`Torches`)
  - naturalisation, meaning water fill and a grass, dirt or gravel skin (`Natural`)
  - water level (`WaterLevel`)
  - snow and ice (`Snow`)
  - de-icing (`Thaw`)
  - trees and grass (`Vegetation`)
  - splat-mapped surface layers (`Splat`, over `SurfaceLayers`)
  - ore veins (`Ores`, `OreGen`)
  - caves, caverns and springs (`Caves`)

The world is a class `World.Dimension` with three parts: a map from coordinates to
block states, where a missing key is the world library's null block; a map from
columns to biomes; and the set of cells marked for a tick update. The world library's
block classification is given as data in `World.Env`. This covers which ids are air,
liquid, water, terrain surface or plant-sustaining, the default block, and the
highest-solid-block query.

Randomness is a stream of draws in [0, 1) held by `World.Random`. The stream is a
parameter, and the model records how many draws each operation takes. Noise, vector
normalisation, Euclidean distance and the cave window function are parameters too;
for caves they live in `Caves.Geometry`. Masks, chances and probabilities are `real`s.
Reading files, parsing XML and loading images or schematics are parameters of
`Chain.Loader`. The configuration tree is `Xml.Element`.

Operations that change things in place are classes with `modifies` clauses. Their
`ensures` clauses state the new state as a function of the old one. These classes are
`World.Dimension`, `World.Random`, `Ores.OreGenerator`, `SurfaceLayers.SurfaceLayer`,
`Splat.SplatmappedTerrain`, `OreGen.OreGenLayer`, `OreGen.OreGenPostProcessor`,
`Caves.CaveGenLayer`, `Caves.CavesPostProcessor`,
`Chain.Stack` and `Exporter.MCExporter`. The properties the source promises are
proved about those functions as lemmas.

## Model

| member | source | states |
|---|---|---|
| Bedrock.YMax | MinecraftTerrainPostProcessors/BedrockPostProcessor.cs:9-16 | the block sweep of the bedrock generator stops at 3, or at 0 exactly when flat bedrock is on (it never is, since nothing sets it) |
| Bedrock.BedrockAt | MinecraftTerrainPostProcessors/BedrockPostProcessor.cs:23-26 | only the visited cell can change, and only to bedrock; an air or null cell never changes; a solid cell at y ≤ 0 always becomes bedrock (every draw is below 1); from y = 4 up nothing changes |
| Bedrock.OnProcessBlock | MinecraftTerrainPostProcessors/BedrockPostProcessor.cs:23-26 | the hook reads exactly one draw, whether or not it is used, and leaves the world `BedrockAt` describes for that draw |
| Torches.Create | MinecraftTerrainPostProcessors/RandomTorchPostProcessor.cs:15-18 | the chance is 0.02 without an `amount` element; with one, construction succeeds exactly when its text parses as a number |
| Torches.TorchAt | MinecraftTerrainPostProcessors/RandomTorchPostProcessor.cs:20-23 | a torch goes on the cell above the surface exactly when the draw is within the chance and that cell is air or null; no other cell changes |
| Torches.TorchIdempotent | MinecraftTerrainPostProcessors/RandomTorchPostProcessor.cs:20-23 | running the hook twice on the same draw leaves what running it once leaves, because the torch is not air |
| Torches.OnProcessSurface | MinecraftTerrainPostProcessors/RandomTorchPostProcessor.cs:20-23 | the hook reads one draw and leaves the world `TorchAt` describes |
| Natural.Create | MinecraftTerrainPostProcessors/NaturalTerrainPostProcessor.cs:10-16 | without a `waterlevel` element the level is -1 (not the field's initial -256); with one, construction succeeds exactly when its text parses as an integer |
| Natural.FloodAt | MinecraftTerrainPostProcessors/NaturalTerrainPostProcessor.cs:18-24 | the block hook turns the visited cell into water exactly when it is air or null and at or below the water level; no other cell changes |
| Natural.OnProcessBlock | MinecraftTerrainPostProcessors/NaturalTerrainPostProcessor.cs:18-24 | the block hook leaves the world `FloodAt` describes |
| Natural.Skin | MinecraftTerrainPostProcessors/NaturalTerrainPostProcessor.cs:26-39 | above waterLevel + 1 the surface cell becomes grass and the three cells under it dirt; otherwise the surface cell and the three under it become gravel; every other cell, including the rest of the column, keeps its block |
| Natural.SkinIdempotent | MinecraftTerrainPostProcessors/NaturalTerrainPostProcessor.cs:26-39 | skinning a column twice leaves what skinning it once leaves |
| Natural.OnProcessSurface | MinecraftTerrainPostProcessors/NaturalTerrainPostProcessor.cs:26-39 | the two write loops leave the world `Skin` describes |
| WaterLevel.Create | MinecraftTerrainPostProcessors/WaterLevelPostProcessor.cs:15-34 | the level stays 62 unless `waterlevel` is present and parses; `waterblock` replaces the water block when present; a water-surface map exists exactly when a `file` element does; without `file`, construction cannot fail |
| WaterLevel.Start | MinecraftTerrainPostProcessors/WaterLevelPostProcessor.cs:38-42 | the fill starts at the water level, or at the map's value at (x - originX, z - originZ) when that is higher, and never below the level |
| WaterLevel.FillDown | MinecraftTerrainPostProcessors/WaterLevelPostProcessor.cs:43-50 | exactly the air or null cells of the column strictly above the floor and at or below the start become the water block; nothing else changes |
| WaterLevel.FillDownIdempotent | MinecraftTerrainPostProcessors/WaterLevelPostProcessor.cs:43-50 | a second fill changes nothing, because the filled cells are no longer air |
| WaterLevel.WaterAt | MinecraftTerrainPostProcessors/WaterLevelPostProcessor.cs:36-51 | a surface at or above the start is left as it is |
| WaterLevel.OnProcessSurface | MinecraftTerrainPostProcessors/WaterLevelPostProcessor.cs:36-51 | the downward loop leaves the world `WaterAt` describes |
| Snow.Create | MinecraftTerrainPostProcessors/SnowPostProcessor.cs:15-56 | `top-only` and `check-biomes` default to true |
| Snow.ThresholdExamples | MinecraftTerrainPostProcessors/SnowPostProcessor.cs:27-97 | snowy tundra freezes at every height from -999, mountains exactly from 128 up, and plains, which the table lacks, never |
| Snow.FreezeAt | MinecraftTerrainPostProcessors/SnowPostProcessor.cs:99-134 | only the cell and the one above it can change; nothing happens below the biome's threshold or under a non-empty cell; water becomes ice, always when the mask is at least 0.25; other liquids, snow and ice stay and get no snow; anything else gets a snow layer above it and, if it is grass, podzol or mycelium, its snowy state; at most one draw is read; the call fails, with nothing changed, exactly when it passes the threshold and air checks on a cell that holds no block |
| Snow.FreezeIdempotent | MinecraftTerrainPostProcessors/SnowPostProcessor.cs:99-134 | a frozen cell is frozen for good: freezing it again on the same draws changes nothing |
| Snow.SnowAt | MinecraftTerrainPostProcessors/SnowPostProcessor.cs:69-84 | a column without a biome is left alone; the hook reads at most two draws; a failure in the first freeze ends the hook |
| Snow.TopOnlyFreezesHighest | MinecraftTerrainPostProcessors/SnowPostProcessor.cs:74-82 | with `topOnly` only the highest solid cell and the one above it can change |
| Snow.FreezeBlock | MinecraftTerrainPostProcessors/SnowPostProcessor.cs:99-134 | the method leaves the world, the draw position and the failure flag `FreezeAt` describes |
| Snow.OnProcessSurface | MinecraftTerrainPostProcessors/SnowPostProcessor.cs:69-84 | the hook leaves the world, the draw position and the failure flag `SnowAt` describes; a failed first freeze skips the second |
| Thaw.BiomeTableClosed | MinecraftTerrainPostProcessors/ThawingPostProcessor.cs:11-23 | no biome the de-icing table produces is itself a key of the table |
| Thaw.BlockTableClosed | MinecraftTerrainPostProcessors/ThawingPostProcessor.cs:25-33 | every block replacement is air or water, and neither is a key of the table |
| Thaw.ThawBiomeAt | MinecraftTerrainPostProcessors/ThawingPostProcessor.cs:42-57 | a biome in the table is replaced by its counterpart; any other biome, or a missing one, stays; no other column's biome changes |
| Thaw.ThawBiomeIdempotent | MinecraftTerrainPostProcessors/ThawingPostProcessor.cs:11-57 | thawing a column's biome twice leaves what thawing it once leaves |
| Thaw.ThawBlockAt | MinecraftTerrainPostProcessors/ThawingPostProcessor.cs:59-74 | air and null cells stay; a block with a "snowy" property is reset to its bare id; otherwise a table block becomes its replacement; no other cell changes |
| Thaw.ThawBlockIdempotent | MinecraftTerrainPostProcessors/ThawingPostProcessor.cs:59-74 | thawing a cell twice leaves what thawing it once leaves, unless it is a snowy table block, which loses its property first |
| Thaw.OnProcessSurface | MinecraftTerrainPostProcessors/ThawingPostProcessor.cs:42-57 | the hook leaves the biome map `ThawBiomeAt` describes |
| Thaw.OnProcessBlock | MinecraftTerrainPostProcessors/ThawingPostProcessor.cs:59-74 | the hook leaves the world `ThawBlockAt` describes |
| Vegetation.LogsOnTrunkAxis | MinecraftTerrainPostProcessors/VegetationPostProcessor.cs:9-42 | every blueprint entry is 0, 1 or 2, and the logs (1) sit exactly on the centre column of the four lower layers, continuing the trunk |
| Vegetation.Create | MinecraftTerrainPostProcessors/VegetationPostProcessor.cs:53-57 | without `grass` and `trees` elements the chances are 0.2 and 0.3 / 128; otherwise the grass chance is the parsed `grass` value and the tree chance the parsed `trees` value over 128; construction fails only when one of them does not parse |
| Vegetation.CanopyAt | MinecraftTerrainPostProcessors/VegetationPostProcessor.cs:85-95 | after the blueprint loops have visited the positions before (ly, lz, lx), a cell holds the palette block of its blueprint position exactly when that position is non-empty and already visited; every other cell is as before |
| Vegetation.CellStepX | MinecraftTerrainPostProcessors/VegetationPostProcessor.cs:87-91 | one more step of the innermost loop adds exactly the cell it writes, when its entry is not 0, and that cell's blueprint position is the one visited |
| Vegetation.CanopyStep | MinecraftTerrainPostProcessors/VegetationPostProcessor.cs:88-92 | one step of the innermost loop writes the palette block of its blueprint entry, or nothing for 0 |
| Vegetation.TreeFootprint | MinecraftTerrainPostProcessors/VegetationPostProcessor.cs:81-95 | a tree changes only the 5 x 5 columns around its trunk, from the ground cell up to trunk height + 5 above the base |
| Vegetation.TreeTrunk | MinecraftTerrainPostProcessors/VegetationPostProcessor.cs:81-84 | once the tree stands the ground cell is dirt and every trunk cell from the base up to the trunk height is a log |
| Vegetation.TreeCanopy | MinecraftTerrainPostProcessors/VegetationPostProcessor.cs:85-95 | once the tree stands each non-empty blueprint cell, placed at x ± 2, z ± 2 and trunk height + 1 up to + 5, holds a log for 1 and leaves for 2 |
| Vegetation.TreeAt | MinecraftTerrainPostProcessors/VegetationPostProcessor.cs:74-118 | a tree is placed exactly when the block below is grass or dirt and the cell above is air or null; otherwise the world is unchanged; the trunk height is drawn in [1, 3]; at most one draw is read, none when the ground check fails |
| Vegetation.GrassAt | MinecraftTerrainPostProcessors/VegetationPostProcessor.cs:99-103 | tall grass is written at the cell exactly when the block below is a grass block; nothing else changes |
| Vegetation.VegetationAt | MinecraftTerrainPostProcessors/VegetationPostProcessor.cs:59-72 | when the tree draw passes and a tree is placed, no grass is attempted; when the tree draw fails, grass follows its own draw; the hook reads one to three draws |
| Vegetation.PlaceTree | MinecraftTerrainPostProcessors/VegetationPostProcessor.cs:74-97 | the method reports, writes and draws what `TreeAt` describes |
| Vegetation.PlaceTrunk | MinecraftTerrainPostProcessors/VegetationPostProcessor.cs:81-84 | the trunk loop leaves dirt below the base and logs from the base up to the trunk height |
| Vegetation.PaintUp | MinecraftTerrainPostProcessors/VegetationPostProcessor.cs:82-84 | one more trunk step extends the painted run of logs by the cell on top |
| Vegetation.PlaceCanopy | MinecraftTerrainPostProcessors/VegetationPostProcessor.cs:85-95 | the three nested blueprint loops leave the world `Canopy` describes for the whole blueprint |
| Vegetation.CanopyRow | MinecraftTerrainPostProcessors/VegetationPostProcessor.cs:87-93 | one run of the innermost loop takes the canopy from the start of row lz to the start of row lz + 1 |
| Vegetation.PlaceGrass | MinecraftTerrainPostProcessors/VegetationPostProcessor.cs:99-103 | the method leaves the world `GrassAt` describes |
| Vegetation.OnProcessSurface | MinecraftTerrainPostProcessors/VegetationPostProcessor.cs:59-72 | the hook leaves the world and the draw position `VegetationAt` describes |
| SurfaceLayers.StandardUpToCell | MinecraftTerrainPostProcessors/SurfaceLayer.cs:23-60 | after the first n steps of the block-layer loop, block i of the list stands i cells below the surface exactly when the guard held there (a non-blank name over a cell that is not air or null); every other cell is unchanged, so the layers never write outside the column's top n cells |
| SurfaceLayers.StandardUpToAt | MinecraftTerrainPostProcessors/SurfaceLayer.cs:56-60 | the same statement, for every cell at once |
| SurfaceLayers.StandardUpToWrote | MinecraftTerrainPostProcessors/SurfaceLayer.cs:56-61 | the block-layer loop reports true exactly when the guard held at one of its cells: the OR of its writes |
| SurfaceLayers.GenerateAt | MinecraftTerrainPostProcessors/SurfaceLayer.cs:50-152 | outside [yMin, yMax] nothing changes and false is reported; only structure generators read their stream; only biome generators change biomes, and they set the column's biome and report true exactly in range; a Perlin layer whose noise reaches the threshold does nothing, otherwise it is the block-layer rule; a plant check that fails does nothing; a single-block generator writes only the cell above the surface |
| SurfaceLayers.RunUpTo | MinecraftTerrainPostProcessors/SurfaceLayer.cs:254-260 | running the sub-generators in order keeps a stream position per generator and moves only those of structure generators already run |
| SurfaceLayers.RunStaysInColumn | MinecraftTerrainPostProcessors/SurfaceLayer.cs:254-260 | without structure generators a layer changes only the column of the surface cell, at most one cell above it, and only that column's biome |
| SurfaceLayers.GenerateStaysInColumn | MinecraftTerrainPostProcessors/SurfaceLayer.cs:50-152 | one sub-generator other than a structure changes only that column, at most one cell above the surface, and only that column's biome |
| SurfaceLayers.SetBlockGuarded | MinecraftTerrainPostProcessors/SurfaceLayer.cs:23-33 | the helper writes exactly when the name is not blank and the cell is not air or null, and reports whether it wrote |
| SurfaceLayers.WriteLayers | MinecraftTerrainPostProcessors/SurfaceLayer.cs:56-61 | the block-layer loop leaves the world and the result `StandardUpTo` describes for the whole list |
| SurfaceLayers.Generate | MinecraftTerrainPostProcessors/SurfaceLayer.cs:50-152 | the dispatch on the generator kind leaves the world, biomes, stream position and result `GenerateAt` describes |
| SurfaceLayers.SurfaceGenOf | MinecraftTerrainPostProcessors/SurfaceLayer.cs:169-203 | a missing `blocks` attribute is an error; the blocks are the attribute split on ','; a missing type is a standard layer with the full height range; "perlin" builds a noise layer with scale 1.0 (times 2.6) and threshold 0.5 by default; `y-min` and `y-max` apply when present; exactly an unknown, non-blank type other than "standard" and "perlin" adds nothing |
| SurfaceLayers.InstanceOf | MinecraftTerrainPostProcessors/SurfaceLayer.cs:205-231 | `schem` wins over `block` and must name a registered structure; `block` alone gives a single-block generator; exactly when neither is given nothing is added; `amount` defaults to 1 and `plant-check` to true |
| SurfaceLayers.BiomeOf | MinecraftTerrainPostProcessors/SurfaceLayer.cs:233-252 | exactly a missing or empty `id` adds nothing; an id starting with a digit must parse as a byte and names that byte's biome; any other id succeeds exactly when the biome enum parses it, and the generator's biome is what it parses to |
| SurfaceLayers.ParseBiome | MinecraftTerrainPostProcessors/SurfaceLayer.cs:243 | the enum parse of an id trims it; it succeeds exactly for a signed number within a byte, which the enum prints, or for text that is no number and is a biome name, which is the result |
| SurfaceLayers.PaddedBiomeName | MinecraftTerrainPostProcessors/SurfaceLayer.cs:243 | a biome name with white space around it parses to the same biome |
| SurfaceLayers.ZerosAppend | MinecraftTerrainPostProcessors/SurfaceLayer.cs:161 | appending fresh generators appends fresh stream positions |
| SurfaceLayers.SurfaceLayer.constructor | MinecraftTerrainPostProcessors/SurfaceLayer.cs:163-167 | a new layer has its colour, its name and no generators |
| SurfaceLayers.SurfaceLayer.Append | MinecraftTerrainPostProcessors/SurfaceLayer.cs:195-243 | appending a generator puts it at the end of the list, its stream not yet read |
| SurfaceLayers.SurfaceLayer.AddFrom | MinecraftTerrainPostProcessors/SurfaceLayer.cs:169-252 | the shared shape of the three adders: an exception propagates, no generator reports false and appends nothing, a generator is appended and true reported |
| SurfaceLayers.SurfaceLayer.AddSurfaceGenerator | MinecraftTerrainPostProcessors/SurfaceLayer.cs:169-203 | the list grows by exactly the generator `SurfaceGenOf` describes, if any, and the result says whether it did |
| SurfaceLayers.SurfaceLayer.AddSchematicGenerator | MinecraftTerrainPostProcessors/SurfaceLayer.cs:205-231 | the list grows by exactly the generator `InstanceOf` describes, if any, and the result says whether it did |
| SurfaceLayers.SurfaceLayer.AddBiomeGenerator | MinecraftTerrainPostProcessors/SurfaceLayer.cs:233-252 | the list grows by exactly the generator `BiomeOf` describes, if any, and the result says whether it did |
| SurfaceLayers.SurfaceLayer.RunGenerator | MinecraftTerrainPostProcessors/SurfaceLayer.cs:254-260 | every sub-generator runs once, in insertion order, its result ignored: the world, biomes and stream positions `RunUpTo` describes |
| Splat.ParseColorMeaning | MinecraftTerrainPostProcessors/SplatmappedTerrainPostProcessor.cs:60-77 | a text without a comma is a colour name, which must be known; a text with a comma yields an opaque colour exactly when it has at least three parts and the first three are integers in 0..255, and then the colour is made of them |
| Splat.SplitSingle | MinecraftTerrainPostProcessors/SplatmappedTerrainPostProcessor.cs:63-66 | splitting gives one piece exactly when the separator does not occur, so the `Contains(",")` test and the split agree |
| Splat.Channel | MinecraftTerrainPostProcessors/SplatmappedTerrainPostProcessor.cs:67-70 | a component is accepted only as an integer in 0..255, the range the colour constructor allows |
| Splat.ParseIntNatToString | MinecraftTerrainPostProcessors/SplatmappedTerrainPostProcessor.cs:67-69 | a number's decimal text parses back to the number |
| Splat.ColorTextSplits | MinecraftTerrainPostProcessors/SplatmappedTerrainPostProcessor.cs:63-66 | the "r,g,b" text of a colour contains a comma and splits into exactly its three components |
| Splat.SplitAfter | MinecraftTerrainPostProcessors/SplatmappedTerrainPostProcessor.cs:66 | a comma-free piece followed by the separator splits off as the first part |
| Splat.ColorRoundTrip | MinecraftTerrainPostProcessors/SplatmappedTerrainPostProcessor.cs:60-77 | every opaque colour written as "r,g,b" reads back as itself, whatever colour names exist |
| Splat.ElementGens | MinecraftTerrainPostProcessors/SplatmappedTerrainPostProcessor.cs:33-47 | one generator result per child element, in order: `surface`, `gen` and `biome` go to their adder, any other element adds nothing |
| Splat.GatheredSticks | MinecraftTerrainPostProcessors/SplatmappedTerrainPostProcessor.cs:33-47 | once a child throws, the whole layer fails, whatever follows |
| Splat.GatheredFails | MinecraftTerrainPostProcessors/SplatmappedTerrainPostProcessor.cs:33-47 | a layer's generators fail exactly when some child's generator fails |
| Splat.GatheredFrom | MinecraftTerrainPostProcessors/SplatmappedTerrainPostProcessor.cs:33-47 | a generator is in the layer exactly when some child describes it |
| Splat.GensOfMeaning | MinecraftTerrainPostProcessors/SplatmappedTerrainPostProcessor.cs:33-47 | the same two facts stated for a layer element |
| Splat.Coloured | MinecraftTerrainPostProcessors/SplatmappedTerrainPostProcessor.cs:22-29 | the layers kept are exactly the `layer` elements with a `color` attribute; the others are skipped |
| Splat.LayerResults | MinecraftTerrainPostProcessors/SplatmappedTerrainPostProcessor.cs:22-48 | one layer description per coloured element, in order |
| Splat.AllOkAt | MinecraftTerrainPostProcessors/SplatmappedTerrainPostProcessor.cs:22-48 | the construction fails exactly when one layer fails; otherwise it holds every layer, one per element, in order |
| Splat.AllOkSticks | MinecraftTerrainPostProcessors/SplatmappedTerrainPostProcessor.cs:22-48 | once one layer fails, the construction fails |
| Splat.LayerSpecsMeaning | MinecraftTerrainPostProcessors/SplatmappedTerrainPostProcessor.cs:22-48 | layer i is built from the i-th coloured element: its parsed colour, its `name` and its children's generators; the construction fails exactly when some colour or some generator fails |
| Splat.Palette | MinecraftTerrainPostProcessors/SplatmappedTerrainPostProcessor.cs:50-54 | the palette holds each layer's colour at the layer's index |
| Splat.SplatmappedTerrain.constructor | MinecraftTerrainPostProcessors/SplatmappedTerrainPostProcessor.cs:18-57 | the generator holds the index map, the layers and the world origin offsets it was given |
| Splat.SplatmappedTerrain.OnProcessSurface | MinecraftTerrainPostProcessors/SplatmappedTerrainPostProcessor.cs:79-86 | the index map at the column, shifted by the origin, selects the layer: 255 does nothing, an index within the layers runs exactly that layer's generators at the surface cell, an index beyond them is an out-of-range error; no other layer's streams move, and no layer's generators change |
| Splat.AddChild | MinecraftTerrainPostProcessors/SplatmappedTerrainPostProcessor.cs:35-46 | handling child j extends the layer by what `ElementGens` says child j adds, or fails with the layer's generators |
| Splat.BuildLayer | MinecraftTerrainPostProcessors/SplatmappedTerrainPostProcessor.cs:33-47 | a new layer ends up with exactly the generators `GensOf` describes, none of their streams read, or the construction fails exactly when `GensOf` does |
| Splat.NewLayer | MinecraftTerrainPostProcessors/SplatmappedTerrainPostProcessor.cs:24-47 | one loop iteration fails exactly when the element's description fails, and otherwise makes a fresh layer holding that description |
| Splat.BuildLayers | MinecraftTerrainPostProcessors/SplatmappedTerrainPostProcessor.cs:22-48 | the layer loop fails exactly when `LayerSpecs` does, and otherwise yields distinct fresh layers holding the descriptions, in order |
| Splat.BuiltFromSnoc | MinecraftTerrainPostProcessors/SplatmappedTerrainPostProcessor.cs:32 | appending a fresh layer that holds a description keeps the layer list in step with the descriptions |
| Splat.Create | MinecraftTerrainPostProcessors/SplatmappedTerrainPostProcessor.cs:18-57 | a missing `file` attribute fails; otherwise construction succeeds exactly when the layers build and the map image exists, and then the index map is the image indexed with the layers' palette and the dither limit, and the layers hold what `LayerSpecs` describes |
| Ores.DeepslateVariantOfVanilla | MinecraftTerrainPostProcessors/OreGenerator.cs:120-139 | a vanilla block has a deepslate variant exactly when it is one of the eight listed ores, and the variant is its name with "deepslate_" in front |
| Ores.NoVariantOutsideVanilla | MinecraftTerrainPostProcessors/OreGenerator.cs:122-138 | a block outside the vanilla namespace has no variant |
| Ores.VariantIsNoHost | MinecraftTerrainPostProcessors/OreGenerator.cs:120-139 | a variant is never stone or deepslate, so a replaced cell is never replaced again |
| Ores.NewRule | MinecraftTerrainPostProcessors/OreGenerator.cs:36-46 | the full constructor keeps its arguments, stores the spawns per chunk per column (one 256th), resolves the block and derives its variant |
| Ores.SimpleRule | MinecraftTerrainPostProcessors/OreGenerator.cs:48-51 | the five-argument constructor is the full one with no falloff and the centre in the middle of the band |
| Ores.XmlRule | MinecraftTerrainPostProcessors/OreGenerator.cs:53-64 | the element fails exactly without a `block` child; size, rarity, y-min, y-max, falloff and center are read over the defaults 10, 4, 1, 32, 0 and 16; no deepslate variant is set |
| Ores.ClampIdempotent | MinecraftTerrainPostProcessors/OreGenerator.cs:98 | clamping the centre twice is clamping it once, and in a non-empty band the clamped centre lies at least 0.01 inside it |
| Ores.ChanceAtYBounds | MinecraftTerrainPostProcessors/OreGenerator.cs:94-108 | inside the band, with a falloff in (0, 1], the chance lies between 1 - falloff and 1; without falloff it is 1 |
| Ores.ChanceAtCenter | MinecraftTerrainPostProcessors/OreGenerator.cs:96-102 | at the clamped centre the chance is 1 |
| Ores.ChanceAtYClamped | MinecraftTerrainPostProcessors/OreGenerator.cs:98 | storing the clamped centre back does not change any later chance |
| Ores.LerpFromOne | MinecraftTerrainPostProcessors/OreGenerator.cs:105-108 | moving from 1 towards a value in [0, 1] by a fraction in (0, 1] stays in [1 - fraction, 1] |
| Ores.VeinSpanIsFloor | MinecraftTerrainPostProcessors/OreGenerator.cs:74 | for at least one attempt the span floor((size - 1) / 16) + 1 is the integer quotient plus 1, so at least 1 |
| Ores.VeinCell | MinecraftTerrainPostProcessors/OreGenerator.cs:77-80 | an attempt's cell lies within the span of the vein's origin on every axis |
| Ores.VeinUpToStep | MinecraftTerrainPostProcessors/OreGenerator.cs:75-89 | one more attempt replaces the cell its three draws pick |
| Ores.VeinUpToCell | MinecraftTerrainPostProcessors/OreGenerator.cs:75-89 | a vein changes a cell only if it held stone or deepslate and lies within the span of the origin, and then it holds the ore or the variant |
| Ores.VeinUpToHost | MinecraftTerrainPostProcessors/OreGenerator.cs:81-88 | stone only ever becomes the ore and deepslate only ever the variant |
| Ores.GenerateCases | MinecraftTerrainPostProcessors/OreGenerator.cs:66-92 | an empty height band does nothing and reads nothing; a failed column chance reads one draw and does nothing; otherwise the spawn runs on the clamped state |
| Ores.GenerateFrame | MinecraftTerrainPostProcessors/OreGenerator.cs:66-92 | one call changes only stone or deepslate cells within the span of the column and of the height band, to the ore or its variant, and reads at most 3 + 3 * size draws |
| Ores.StateAfterSettled | MinecraftTerrainPostProcessors/OreGenerator.cs:98 | the state a call leaves behaves like the state before it: only the centre changes, to its clamped value |
| Ores.SettlesTrans | MinecraftTerrainPostProcessors/OreGenerator.cs:98 | any number of calls leave the state or clamp its centre once |
| Ores.Rules | MinecraftTerrainPostProcessors/OreGenerator.cs:9-19 | the states of a list of generators, one per generator |
| Ores.OreGenerator.constructor | MinecraftTerrainPostProcessors/OreGenerator.cs:36-46 | the full constructor's state is `NewRule` of its arguments and `SpawnsPerChunk` reads back what was set |
| Ores.OreGenerator.Simple | MinecraftTerrainPostProcessors/OreGenerator.cs:48-51 | the five-argument constructor's state is `SimpleRule` of its arguments |
| Ores.OreGenerator.FromXml | MinecraftTerrainPostProcessors/OreGenerator.cs:53-64 | the configuration constructor's state is what `XmlRule` describes |
| Ores.FromXmlElement | MinecraftTerrainPostProcessors/OreGenerator.cs:53-64 | construction from an element fails exactly when `XmlRule` does, and otherwise holds its state |
| Ores.OreGenerator.GetChanceAtY | MinecraftTerrainPostProcessors/OreGenerator.cs:94-103 | returns `ChanceAtY` of the state before the call; with falloff the centre is stored back clamped, without it nothing changes |
| Ores.OreGenerator.RandomRange | MinecraftTerrainPostProcessors/OreGenerator.cs:110-113 | one draw, from the inclusive range [lo, hi] |
| Ores.OreGenerator.Generate | MinecraftTerrainPostProcessors/OreGenerator.cs:66-92 | the world and the draws read are what `GenerateAt` describes, and the state afterwards is `StateAfter` |
| Ores.OreGenerator.Spawn | MinecraftTerrainPostProcessors/OreGenerator.cs:71-90 | past the column chance: the height draw, the chance at that height and the vein, as `SpawnAt` describes them |
| Ores.OreGenerator.Vein | MinecraftTerrainPostProcessors/OreGenerator.cs:74-89 | the vein loop leaves the world `VeinOf` describes and reads three draws per attempt |
| Ores.OreGenerator.VeinLoop | MinecraftTerrainPostProcessors/OreGenerator.cs:75-89 | size attempts (none for size 0 or less), each replacing the cell its three draws pick |
| Ores.OreGenerator.DrawCell | MinecraftTerrainPostProcessors/OreGenerator.cs:77-80 | three draws in [-span, span] give the attempt's cell |
| Ores.OreGenerator.PlaceOre | MinecraftTerrainPostProcessors/OreGenerator.cs:81-88 | stone becomes the ore, deepslate the variant when there is one, anything else stays |
| OreGen.VanillaRulesOf | MinecraftTerrainPostProcessors/OreGenPostProcessor.cs:48-76 | the vanilla state of each construction of a list, one per construction, in order |
| OreGen.VanillaCopper | MinecraftTerrainPostProcessors/OreGenPostProcessor.cs:48-76 | the list starts with the six base ores in both branches; copper is on it exactly from 1.17 on, as the seventh and last |
| OreGen.VanillaOre | MinecraftTerrainPostProcessors/OreGenPostProcessor.cs:54-72 | an ore added by its bare name resolves into the vanilla namespace and gets its deepslate form, and neither form is a host rock |
| OreGen.VanillaRuleIsSimple | MinecraftTerrainPostProcessors/OreGenPostProcessor.cs:54-72 | for a bare vanilla ore name the five-argument constructor gives the vanilla state: no falloff, a deepslate form, a non-empty band |
| OreGen.VanillaRulesWellFormed | MinecraftTerrainPostProcessors/OreGenPostProcessor.cs:48-76 | every vanilla generator of every version has a non-empty band, no falloff and a deepslate form, and no form is a host rock |
| OreGen.VanillaArgsShaped | MinecraftTerrainPostProcessors/OreGenPostProcessor.cs:54-72 | each of the seven vanilla constructions names a bare vanilla ore with a deepslate form and a band with yMin below yMax |
| OreGen.NewOres | MinecraftTerrainPostProcessors/OreGenPostProcessor.cs:54-72 | the constructions of a list, in order, as new generators holding the states their arguments give |
| OreGen.VanillaOres | MinecraftTerrainPostProcessors/OreGenPostProcessor.cs:48-76 | `GetVanillaOreGenerators` makes new generators whose states are `VanillaRules` of the version |
| OreGen.ColumnAtSettled | MinecraftTerrainPostProcessors/OreGenPostProcessor.cs:17-24 | a column depends on the ores' states only through their clamped centres, so earlier clamping changes nothing |
| OreGen.ColumnAtCell | MinecraftTerrainPostProcessors/OreGenPostProcessor.cs:17-24 | a layer's column changes only stone and deepslate cells, each into one of the layer's ores or its variant |
| OreGen.OreGenLayer.constructor | MinecraftTerrainPostProcessors/OreGenPostProcessor.cs:14-15 | a new layer has no ores and multiplier 1 |
| OreGen.OreGenLayer.Append | MinecraftTerrainPostProcessors/OreGenPostProcessor.cs:86-90 | adding generators puts them after the layer's ores, in order |
| OreGen.OreGenLayer.ProcessBlockColumn | MinecraftTerrainPostProcessors/OreGenPostProcessor.cs:17-24 | every ore of the layer runs in list order with chance multiplier layer multiplier times mask, as `ColumnAt` describes; each ore's state settles |
| OreGen.LayersAtActive | MinecraftTerrainPostProcessors/AbstractPostProcessor.cs:149-163 | running the layers one after the other is running exactly the layers whose mask passes 0.001, in dictionary order |
| OreGen.LayerStep | MinecraftTerrainPostProcessors/OreGenPostProcessor.cs:81-100 | one child fails exactly when it is bad: an unknown name, a `gen` without `block`, a `multiplier` that is not a number |
| OreGen.LayerFoldFails | MinecraftTerrainPostProcessors/OreGenPostProcessor.cs:78-102 | a layer element fails exactly when one of its children is bad |
| OreGen.LayerFoldHead | MinecraftTerrainPostProcessors/OreGenPostProcessor.cs:81-100 | after a good first child the rest of the children see its effect |
| OreGen.BadInTail | MinecraftTerrainPostProcessors/OreGenPostProcessor.cs:81-100 | past a good first child, a bad child is one of the others |
| OreGen.LayerFoldOres | MinecraftTerrainPostProcessors/OreGenPostProcessor.cs:78-102 | every ore of a built layer is one of its `gen` children or a vanilla ore; without a `multiplier` child the multiplier stays 1 |
| OreGen.SourceStep | MinecraftTerrainPostProcessors/OreGenPostProcessor.cs:81-100 | an ore that comes from the later children comes from the whole list |
| OreGen.RulesConcat | MinecraftTerrainPostProcessors/OreGenPostProcessor.cs:86-90 | the states of two generator lists one after the other are the two lists of states one after the other |
| OreGen.AddChild | MinecraftTerrainPostProcessors/OreGenPostProcessor.cs:83-99 | one child of `CreateLayer`'s loop changes the layer as `LayerStep` describes, and fails exactly when it does |
| OreGen.CreateLayer | MinecraftTerrainPostProcessors/OreGenPostProcessor.cs:78-102 | a new layer holds what `LayerConfigOf` describes, its ores all new, and construction fails exactly when it does |
| OreGen.LayerConfigsMeaning | MinecraftTerrainPostProcessors/AbstractPostProcessor.cs:82-124 | building fails exactly when some registered layer element fails; otherwise each layer is its element's configuration under the element's channel key |
| OreGen.Config | MinecraftTerrainPostProcessors/OreGenPostProcessor.cs:33-46 | the rarity multiplier is the `multiplier` child, 1 when absent; without a weightmap there is one layer under key -1 with the vanilla ores and multiplier 1 |
| OreGen.StatesOf | MinecraftTerrainPostProcessors/OreGenPostProcessor.cs:27 | the state of each layer of the dictionary, in order |
| OreGen.InOresOf | MinecraftTerrainPostProcessors/OreGenPostProcessor.cs:27 | each ore of each layer is among the processor's ores |
| OreGen.RunLayer | MinecraftTerrainPostProcessors/OreGenPostProcessor.cs:17-24 | a layer's column, on ores that settled before, does what it does on their original states |
| OreGen.OreGenPostProcessor.constructor | MinecraftTerrainPostProcessors/OreGenPostProcessor.cs:33-46 | the processor holds its layers, its weightmap and its rarity multiplier |
| OreGen.OreGenPostProcessor.ProcessLayer | MinecraftTerrainPostProcessors/AbstractPostProcessor.cs:153-161 | one layer of the dispatch runs its column exactly when its mask passes the threshold |
| OreGen.OreGenPostProcessor.OnProcessSurface | MinecraftTerrainPostProcessors/OreGenPostProcessor.cs:104-108 | a surface below height 4 changes nothing and reads no draws; otherwise the layers run as `LayersAt` describes, and every ore's state settles |
| OreGen.OreGenPostProcessor.DispatchLayers | MinecraftTerrainPostProcessors/AbstractPostProcessor.cs:149-163 | the layers in dictionary order, each as `LayerAt` describes |
| OreGen.DefaultLayer | MinecraftTerrainPostProcessors/OreGenPostProcessor.cs:42-44 | the layer used without a weightmap holds the version's vanilla ores with multiplier 1 |
| OreGen.BuildLayers | MinecraftTerrainPostProcessors/AbstractPostProcessor.cs:82-124 | `CreateLayer` on every registered element in order: new layers holding `LayerConfigs`, or failure exactly when that fails |
| OreGen.AddLayer | MinecraftTerrainPostProcessors/AbstractPostProcessor.cs:126-129 | one registered layer: a new layer holding its element's configuration, added to the dictionary |
| OreGen.StatesOfSnoc | MinecraftTerrainPostProcessors/AbstractPostProcessor.cs:128 | adding one layer adds its state at the end |
| OreGen.Create | MinecraftTerrainPostProcessors/OreGenPostProcessor.cs:33-46 | construction succeeds exactly when `Config` does, and then holds its rarity, its weightmap and its layers |
| OreGen.Layers | MinecraftTerrainPostProcessors/OreGenPostProcessor.cs:38-45 | the weightmap and layers: the registered ones, or one vanilla layer when there is no weightmap |
| Caves.CarveAt | MinecraftTerrainPostProcessors/CavesPostProcessor.cs:52-77 | a cell is carved exactly when it holds a non-air block that is neither bedrock nor liquid, and not a surface block unless the surface may break; the carved cell becomes lava at height 8 or below and air above; no other cell changes |
| Caves.CarveTwice | MinecraftTerrainPostProcessors/CavesPostProcessor.cs:52-77 | a carved cell is not carved again |
| Caves.CarveBlock | MinecraftTerrainPostProcessors/CavesPostProcessor.cs:52-77 | the dimension and the result are what `CarveAt` describes |
| Caves.CarvableLocal | MinecraftTerrainPostProcessors/CavesPostProcessor.cs:52-77 | whether a cell can be carved depends on that cell alone |
| Caves.RowFromCell | MinecraftTerrainPostProcessors/CavesPostProcessor.cs:40-46 | the z loop carves exactly the admitted cells of its row, at most once each |
| Caves.RowFromHit | MinecraftTerrainPostProcessors/CavesPostProcessor.cs:40-46 | the z loop's flag is set exactly when it was set before or some admitted cell of the row was carvable |
| Caves.SlabFromCell | MinecraftTerrainPostProcessors/CavesPostProcessor.cs:38-47 | the y loop carves exactly the admitted cells of its slab |
| Caves.SlabFromHit | MinecraftTerrainPostProcessors/CavesPostProcessor.cs:38-47 | the y loop's flag: set before, or some admitted cell of the slab carvable |
| Caves.BoxFromCell | MinecraftTerrainPostProcessors/CavesPostProcessor.cs:36-48 | the x loop carves exactly the admitted cells of the box |
| Caves.BoxFromHit | MinecraftTerrainPostProcessors/CavesPostProcessor.cs:36-48 | the x loop's flag: set before, or some admitted cell of the box carvable |
| Caves.SphereMeaning | MinecraftTerrainPostProcessors/CavesPostProcessor.cs:27-50 | a sphere carves exactly the carvable cells of its floor/ceiling bounding box that lie strictly within the radius, and reports whether it carved any |
| Caves.SphereChanges | MinecraftTerrainPostProcessors/CavesPostProcessor.cs:27-50 | a sphere reports true exactly when it changed the world |
| Caves.CarveSphere | MinecraftTerrainPostProcessors/CavesPostProcessor.cs:27-50 | the triple loop leaves the world and flag `SphereAt` describes |
| Caves.CarveSlab | MinecraftTerrainPostProcessors/CavesPostProcessor.cs:38-47 | the y and z loops at one x, as `SlabFrom` describes |
| Caves.CarveRow | MinecraftTerrainPostProcessors/CavesPostProcessor.cs:40-46 | the z loop at one x and y, as `RowFrom` describes |
| Caves.Life | MinecraftTerrainPostProcessors/CavesPostProcessor.cs:150-151 | a walk's life is the truncated scaled draw, capped at 400 |
| Caves.BranchPastCapAsWritten | MinecraftTerrainPostProcessors/CavesPostProcessor.cs:155-174 | as written, a walk three branches deep still branches on a zero draw, because `Chance(0)` passes a zero draw; the intended decision does not |
| Caves.Branches | MinecraftTerrainPostProcessors/CavesPostProcessor.cs:155-174 | a walk branches only when its delta exceeds 0.25 and it is less than three branches deep, with the chance size times 0.01 |
| Caves.BranchesAsWritten | MinecraftTerrainPostProcessors/CavesPostProcessor.cs:155-174 | the branching decision as written: the draw is at most the start size times 0.01 when delta exceeds 0.25 and the walk is less than three deep, and at most 0 otherwise |
| Caves.BranchesAgree | MinecraftTerrainPostProcessors/CavesPostProcessor.cs:155-174 | the written and the intended decisions agree on every draw but zero |
| Caves.WalkStart | MinecraftTerrainPostProcessors/CavesPostProcessor.cs:147-156 | a walk starts at the given position and depth, with life at most 400, a start size, and a surface-breaking flag set exactly when its draw is at most 0.4 |
| Caves.StepAt | MinecraftTerrainPostProcessors/CavesPostProcessor.cs:161-180 | a turn whose sphere carves nothing ends the walk and draws nothing more |
| Caves.NextCursor | MinecraftTerrainPostProcessors/CavesPostProcessor.cs:169-179 | each turn that goes on uses up one unit of life |
| Caves.RandomVector | MinecraftTerrainPostProcessors/CavesPostProcessor.cs:183-191 | three draws make the normalised random vector, with its height capped at 0 unless it may point upwards |
| Caves.StartWalk | MinecraftTerrainPostProcessors/CavesPostProcessor.cs:149-156 | the eight draws of a walk's start give `WalkStart` |
| Caves.GenerateCave | MinecraftTerrainPostProcessors/CavesPostProcessor.cs:147-181 | the walk, with all its branches, leaves the world and draw count `CaveAt` describes |
| Caves.Step | MinecraftTerrainPostProcessors/CavesPostProcessor.cs:163-179 | one turn of the walk's loop, as `StepAt` describes |
| Caves.Continue | MinecraftTerrainPostProcessors/CavesPostProcessor.cs:169-179 | the rest of a turn that carved: the next cursor and the branch, as `BranchAt` and `NextCursor` describe |
| Caves.Branch | MinecraftTerrainPostProcessors/CavesPostProcessor.cs:174-178 | a branch walks a whole cave from the current position, one level deeper, with 0.8 times the delta bound |
| Caves.Advance | MinecraftTerrainPostProcessors/CavesPostProcessor.cs:169-174 | the six draws of a turn: the new heading, size and variation, and the branching decision |
| Caves.OnlyCarvesTrans | MinecraftTerrainPostProcessors/CavesPostProcessor.cs:52-77 | carving after carving is carving |
| Caves.SphereCarves | MinecraftTerrainPostProcessors/CavesPostProcessor.cs:27-50 | a sphere only carves: every changed cell held a carvable block and now holds what carving makes of it |
| Caves.CaveCarves | MinecraftTerrainPostProcessors/CavesPostProcessor.cs:147-181 | a whole cave, with all its branches, only carves |
| Caves.StepsCarves | MinecraftTerrainPostProcessors/CavesPostProcessor.cs:161-180 | the rest of a walk only carves |
| Caves.StepCarves | MinecraftTerrainPostProcessors/CavesPostProcessor.cs:161-180 | one turn only carves |
| Caves.BranchCarves | MinecraftTerrainPostProcessors/CavesPostProcessor.cs:174-178 | a branch only carves |
| Caves.DistributionOf | MinecraftTerrainPostProcessors/CavesPostProcessor.cs:113-119 | "equal" and "top", in any case, select their distributions; anything else is the default, favouring the bottom |
| Caves.CaveCfgOf | MinecraftTerrainPostProcessors/CavesPostProcessor.cs:101-125 | without an element the defaults amount 1, bottom-favouring, heights 8 to 92, scale and variation 1; with one, y-min and y-max are read over 8 and 92 and a missing distribution keeps the default |
| Caves.StartYInRange | MinecraftTerrainPostProcessors/CavesPostProcessor.cs:130-140 | a cave starts within its configured height range |
| Caves.LerpWithin | MinecraftTerrainPostProcessors/CavesPostProcessor.cs:140 | interpolation between two bounds stays between them |
| Caves.TruncateWithin | MinecraftTerrainPostProcessors/CavesPostProcessor.cs:140 | truncation toward zero keeps a value between two integers between them |
| Caves.CaveColumnCarves | MinecraftTerrainPostProcessors/CavesPostProcessor.cs:127-144 | a cave column only carves |
| Caves.CaveColumn | MinecraftTerrainPostProcessors/CavesPostProcessor.cs:127-144 | the chance draw, the start height, no cave above the column's top, otherwise a walk at depth 0 with delta bound 1, as `CaveColumnAt` describes |
| Caves.StartHeight | MinecraftTerrainPostProcessors/CavesPostProcessor.cs:131-140 | one draw, squared to favour the bottom or square-rooted to favour the top, interpolated over the range and truncated |
| Caves.CavernCfgOf | MinecraftTerrainPostProcessors/CavesPostProcessor.cs:217-244 | the defaults heights 4 to 32, centre 12, threshold 0.68; an unset centre becomes the truncated height three tenths up the range |
| Caves.CavernFromCell | MinecraftTerrainPostProcessors/CavesPostProcessor.cs:248-267 | the column loop carves exactly the carvable cells of its range where the cavern opens |
| Caves.CavernColumnMeaning | MinecraftTerrainPostProcessors/CavesPostProcessor.cs:246-268 | a cavern column carves, surface included, exactly the carvable cells from yMin to the lower of yMax and the top where noise times window times mask exceeds the threshold |
| Caves.CavernColumnCarves | MinecraftTerrainPostProcessors/CavesPostProcessor.cs:246-268 | a cavern column only carves |
| Caves.CavernColumn | MinecraftTerrainPostProcessors/CavesPostProcessor.cs:246-268 | the loop leaves the world `CavernColumnAt` describes, reading no draws |
| Caves.SpringCfgOf | MinecraftTerrainPostProcessors/CavesPostProcessor.cs:274-291 | the defaults heights 10 to 80, amount 1, water; an element's values are read over them |
| Caves.OpenSides | MinecraftTerrainPostProcessors/CavesPostProcessor.cs:315-319 | the count of the four horizontal neighbours that hold air, at most 4 |
| Caves.SpringAt | MinecraftTerrainPostProcessors/CavesPostProcessor.cs:303-310 | a spring is placed, and its cell marked for a tick update, exactly where one can be; otherwise nothing changes; no draws are read |
| Caves.SpringColumnAsWritten | MinecraftTerrainPostProcessors/CavesPostProcessor.cs:293-301 | the spring column as written: a chance draw, then a height drawn in the configured range and compared with the top, then the spring tried at the top cell |
| Caves.SpringColumnAsWrittenMeaning | MinecraftTerrainPostProcessors/CavesPostProcessor.cs:293-301 | as written the column changes nothing or turns the top cell, a spring site, into the spring block and marks it; it fails exactly when the chance passes and the range is empty; past the chance, a drawn height above the top changes nothing, and any other height tries the spring at the top cell |
| Caves.SpringAtTopNeverPlaced | MinecraftTerrainPostProcessors/CavesPostProcessor.cs:297-299 | as written, the spring is tried at the surface cell, so it is never placed while the cell above the surface is empty, as on the bare base terrain |
| Caves.SpringColumnAt | MinecraftTerrainPostProcessors/CavesPostProcessor.cs:293-301 | the intended spring column: it raises exactly when the chance passes and the height range is reversed |
| Caves.SpringColumnMeaning | MinecraftTerrainPostProcessors/CavesPostProcessor.cs:293-310 | a spring column changes at most one default-block cell, within the configured range and at most the column's top, into the spring block, marking it |
| Caves.SpringPlacedBelowTop | MinecraftTerrainPostProcessors/CavesPostProcessor.cs:297-299 | a concrete column where the spring as written places nothing and the intended one places water at the drawn height 10 |
| Caves.SpringColumn | MinecraftTerrainPostProcessors/CavesPostProcessor.cs:293-301 | the dimension, the tick marks, the draws and the raised flag are what `SpringColumnAt` describes |
| Caves.TryGenerateSpring | MinecraftTerrainPostProcessors/CavesPostProcessor.cs:303-310 | the spring block is written and the cell marked exactly when `CanSpring` holds, otherwise nothing changes |
| Caves.CanGenerateSpring | MinecraftTerrainPostProcessors/CavesPostProcessor.cs:312-329 | true exactly for a default block with one or two open sides and solid blocks above and below |
| Caves.CarversOk | MinecraftTerrainPostProcessors/CavesPostProcessor.cs:337-343 | only a spring carver with a reversed range raises |
| Caves.OnlyCarvesKeepsBedrock | MinecraftTerrainPostProcessors/CavesPostProcessor.cs:64 | carving never touches bedrock |
| Caves.CarverKeepsBedrock | MinecraftTerrainPostProcessors/CavesPostProcessor.cs:64 | no carver removes bedrock, when bedrock is not the default block |
| Caves.CarversKeepBedrock | MinecraftTerrainPostProcessors/CavesPostProcessor.cs:337-343 | a layer's carvers keep bedrock |
| Caves.LayersKeepBedrock | MinecraftTerrainPostProcessors/CavesPostProcessor.cs:403-406 | the whole cave generator keeps every bedrock cell |
| Caves.RunCarver | MinecraftTerrainPostProcessors/CavesPostProcessor.cs:337-343 | one carver's column, as `CarverAt` describes |
| Caves.CaveGenLayer.constructor | MinecraftTerrainPostProcessors/CavesPostProcessor.cs:335 | a new layer has no carvers |
| Caves.CaveGenLayer.Add | MinecraftTerrainPostProcessors/CavesPostProcessor.cs:381-389 | a carver is added at the end |
| Caves.CaveGenLayer.ProcessBlockColumn | MinecraftTerrainPostProcessors/CavesPostProcessor.cs:337-343 | every carver in list order, stopping at an exception, as `CarversAt` describes |
| Caves.StatesOf | MinecraftTerrainPostProcessors/CavesPostProcessor.cs:354 | the key and carvers of each layer, in order |
| Caves.CavesPostProcessor.constructor | MinecraftTerrainPostProcessors/CavesPostProcessor.cs:356-371 | the processor holds its layers and weightmap |
| Caves.CavesPostProcessor.OnProcessSurface | MinecraftTerrainPostProcessors/CavesPostProcessor.cs:403-406 | every layer whose mask passes the threshold runs its carvers below the surface cell, as `LayersAt` describes |
| Caves.CavesPostProcessor.ProcessLayer | MinecraftTerrainPostProcessors/AbstractPostProcessor.cs:153-161 | one layer runs its carvers exactly when its mask exceeds 0.001 |
| Caves.CarverOf | MinecraftTerrainPostProcessors/CavesPostProcessor.cs:378-394 | a child is a carver exactly when its name is caves, caverns or springs in any case |
| Caves.CarversOfMeaning | MinecraftTerrainPostProcessors/CavesPostProcessor.cs:373-401 | a layer's carvers are its children's, one for one; it fails exactly when a child is of an unknown kind |
| Caves.LayerStatesMeaning | MinecraftTerrainPostProcessors/AbstractPostProcessor.cs:82-124 | the layers are the registered elements' carvers under the same keys; building fails exactly when a layer does |
| Caves.Config | MinecraftTerrainPostProcessors/CavesPostProcessor.cs:356-371 | without a weightmap, the default layer under key -1: a cave, a cavern, a water spring and a lava spring at half the amount |
| Caves.CreateCaveGenLayer | MinecraftTerrainPostProcessors/CavesPostProcessor.cs:373-401 | a new layer holding `CarversOf` its children, or failure exactly when that fails |
| Caves.StatesOfSnoc | MinecraftTerrainPostProcessors/AbstractPostProcessor.cs:128 | adding a layer adds its state at the end |
| Caves.BuildLayers | MinecraftTerrainPostProcessors/AbstractPostProcessor.cs:82-124 | `CreateCaveGenLayer` on every registered element in order: new layers holding `LayerStates`, or failure exactly when that fails |
| Caves.Create | MinecraftTerrainPostProcessors/CavesPostProcessor.cs:356-371 | construction succeeds exactly when `Config` does, and then holds its weightmap and layers |
| PostProcessor.Ordinal | MinecraftTerrainPostProcessors/AbstractPostProcessor.cs:22-31 | the priorities' values run from 0 for First to 6 for Last |
| PostProcessor.OrdinalsOrdered | MinecraftTerrainPostProcessors/AbstractPostProcessor.cs:22-31 | distinct priorities have distinct values, and the values follow the enum's order |
| PostProcessor.ChannelIndex | MinecraftTerrainPostProcessors/AbstractPostProcessor.cs:64-77 | each colour channel selects one of an image's four channels |
| PostProcessor.MaskChannel | MinecraftTerrainPostProcessors/AbstractPostProcessor.cs:63-77 | the lower-cased `channel` attribute selects green, blue or alpha by its one-letter or full name; a missing or unknown value selects red |
| PostProcessor.LowerIdempotent | MinecraftTerrainPostProcessors/AbstractPostProcessor.cs:65 | lower-casing twice is lower-casing once |
| PostProcessor.MaskChannelIgnoresCase | MinecraftTerrainPostProcessors/AbstractPostProcessor.cs:65 | the channel attribute is matched without regard to case |
| PostProcessor.LoadMask | MinecraftTerrainPostProcessors/AbstractPostProcessor.cs:59-79 | a mask is loaded only when there is a `mask` element and a root path; it is the selected channel of the image its text names under the root |
| PostProcessor.SingleChannelMap | MinecraftTerrainPostProcessors/AbstractPostProcessor.cs:78 | the mask's value at a column is the image's selected channel there |
| PostProcessor.MaskValue | MinecraftTerrainPostProcessors/AbstractPostProcessor.cs:133-142 | a hook gets 1 without a mask, otherwise the mask at the column relative to the world origin |
| PostProcessor.UnmaskedAlwaysRuns | MinecraftTerrainPostProcessors/AbstractPostProcessor.cs:133-146 | without a mask every hook runs |
| PostProcessor.LayerChannel | MinecraftTerrainPostProcessors/AbstractPostProcessor.cs:92-116 | r/red, g/green, b/blue, a/alpha and n/none register under 0, 1, 2, 3 and -1; any other name has no key (the registration throws) |
| PostProcessor.Keys | MinecraftTerrainPostProcessors/AbstractPostProcessor.cs:126-129 | the keys of the layer dictionary, in order |
| PostProcessor.RegisterLayersOk | MinecraftTerrainPostProcessors/AbstractPostProcessor.cs:90-129 | a successful registration keeps every child in order under its own key, and the keys are distinct |
| PostProcessor.RegisterLayersUnknown | MinecraftTerrainPostProcessors/AbstractPostProcessor.cs:113-116 | a child with an unknown name makes the registration fail |
| PostProcessor.RegisterLayersDuplicate | MinecraftTerrainPostProcessors/AbstractPostProcessor.cs:128 | two children naming the same channel make the registration fail, as `Dictionary.Add` does |
| PostProcessor.RegisterLayersKeyKept | MinecraftTerrainPostProcessors/AbstractPostProcessor.cs:128 | a key registered before rejects a later child naming it |
| PostProcessor.RgbaMap | MinecraftTerrainPostProcessors/AbstractPostProcessor.cs:89 | the weightmap's value at a column and channel is the image's, shifted by the offsets |
| PostProcessor.LoadWeightmapAndLayers | MinecraftTerrainPostProcessors/AbstractPostProcessor.cs:82-124 | without a `weightmap` element, no map and no layers; otherwise the checks and the registration loop give what `WeightmapLayers` describes |
| PostProcessor.KeysAppend | MinecraftTerrainPostProcessors/AbstractPostProcessor.cs:128 | adding a new key keeps the keys distinct |
| PostProcessor.RegisterLayerLoop | MinecraftTerrainPostProcessors/AbstractPostProcessor.cs:90-117 | the loop gives `RegisterLayers` of the children; its keys are distinct and between -1 and 3 |
| PostProcessor.LayerMask | MinecraftTerrainPostProcessors/AbstractPostProcessor.cs:153-157 | the none key runs with the generator's mask; any other key scales it by its channel of the weightmap |
| PostProcessor.ActiveLayers | MinecraftTerrainPostProcessors/AbstractPostProcessor.cs:151-162 | exactly the layers whose mask exceeds 0.001 run, each once, in dictionary order |
| Chain.KindOf | WorldPostProcessingStack.cs:69-117 | a lower-cased tag yields the kind whose tag it is, and no kind when no generator has that tag |
| Chain.TagsDistinct | WorldPostProcessingStack.cs:69-118 | every kind's tag leads back to that kind, no two kinds share a tag and no tag is `include` |
| Chain.Construct | WorldPostProcessingStack.cs:72-116 | a built generator has the kind asked for and that kind's settings; the analysis generator is always built; a mask that does not load, or a constructor that throws given the schematics registered so far, builds nothing |
| Chain.Register | WorldPostProcessingStack.cs:168-179 | registering keeps every existing schematic unchanged, adds at most the one key, and adds it exactly when the key is new and the file loads, with the loaded schematic |
| Chain.RegisterAllKeeps | WorldPostProcessingStack.cs:49-52 | registering a container's children never drops or replaces a schematic and adds only keys some child names |
| Chain.RegisterContainersKeeps | WorldPostProcessingStack.cs:47-53 | registering every `schematics` container never drops or replaces a schematic |
| Chain.TagAppendsOne | WorldPostProcessingStack.cs:69-117 | a recognised tag leaves the schematics alone and either appends exactly one generator of its kind behind the old ones, or throws and appends none, as its constructor succeeds or fails |
| Chain.UnknownTagIgnored | WorldPostProcessingStack.cs:150-153 | a tag that names no generator and is not `include` changes nothing and throws nothing |
| Chain.NestedIncludeIgnored | WorldPostProcessingStack.cs:118-124 | an include met while loading an included file changes nothing and throws nothing |
| Chain.IncludeWithoutFileThrows | WorldPostProcessingStack.cs:126-130 | a top-level include without a `file` attribute throws and changes nothing |
| Chain.IncludeAppendsChildren | WorldPostProcessingStack.cs:135-148 | when no constructor of an included file's children throws, each seeing the schematics the `schematics` children before it registered, loading them appends exactly their generators, in document order, and throws nothing |
| Chain.IncludeSchematicsOrder | WorldPostProcessingStack.cs:135-148 | inside an include, a splat element whose constructor needs a schematic key throws, appending nothing, when it comes before the `schematics` child registering that key, and loads one generator when it comes after it |
| Chain.IncludeChildStep | WorldPostProcessingStack.cs:144-147 | one non-`schematics` child of an included file loads without throwing, keeps the schematics, leaves the later children unthrowing, and appends the generators its tag accounts for |
| Chain.ExtendsTrans | WorldPostProcessingStack.cs:43-154 | two loading steps that each keep the earlier generators and schematics keep them together |
| Chain.GeneratorLoadExtends | WorldPostProcessingStack.cs:67-154 | loading one element, whether or not it throws, keeps the earlier generators in front, builds every new one with its kind's settings and drops no schematic |
| Chain.IncludeLoadExtends | WorldPostProcessingStack.cs:133-148 | the same for the children of an included file |
| Chain.GeneratorsLoadExtends | WorldPostProcessingStack.cs:55-58 | the same for the children of the `postprocess` element, up to the one that throws |
| Chain.SettingsLoadExtends | WorldPostProcessingStack.cs:43-65 | loading the whole configuration keeps what was there, so an exception caught part way leaves the generators appended before it |
| Chain.BlockGate | MinecraftTerrainPostProcessors/AbstractPostProcessor.cs:131-138 | the block hook runs exactly where the mask lets it, once, with the mask's value at that column |
| Chain.SurfaceGate | MinecraftTerrainPostProcessors/AbstractPostProcessor.cs:140-147 | the surface hook runs exactly where the mask lets it, once, with the mask's value at that column |
| Chain.Finishes | WorldPostProcessingStack.cs:227-230 | `OnFinish` is called once per generator, in list order |
| Chain.ScheduleExactlyOnce | WorldPostProcessingStack.cs:181-231 | decoration makes every call that the generators' modes, passes, y-ranges, masks and the heightmap schedule exactly once, and makes no other call |
| Chain.ScheduleOrdered | WorldPostProcessingStack.cs:185-230 | decoration calls come in strict order: generator by generator, pass by pass, the block sweep before the surface sweep before the region pass, x, then z, then y ascending, and every finish after every pass |
| Chain.SweepColumn | WorldPostProcessingStack.cs:197-200 | the y loop offers the block hook every y from the generator's minimum to its maximum inclusive |
| Chain.SweepBlocks | WorldPostProcessingStack.cs:193-203 | the block sweep visits x, then z, over the heightmap, offset by 512 times the region offset, and sweeps each column |
| Chain.SweepSurface | WorldPostProcessingStack.cs:209-216 | the surface sweep visits x, then z, and offers the surface hook the column's heightmap height |
| Chain.MakeCalls | WorldPostProcessingStack.cs:189-223 | the calls of a pass are made in order until one throws: all of them, or those up to and including the first that throws |
| Chain.RunPasses | WorldPostProcessingStack.cs:187-224 | a generator's passes run in order; the calls made are a prefix of all its passes' calls, the whole of them when none throws, and end at the first that throws |
| Chain.RunFinishes | WorldPostProcessingStack.cs:227-230 | `OnFinish` runs per generator in list order until one throws, with the same prefix guarantee |
| Chain.RunPass | WorldPostProcessingStack.cs:189-223 | one pass gives the block sweep when the mode is Block or Both, then the surface sweep when it is Surface or Both, then the region pass |
| Chain.Stack.constructor | WorldPostProcessingStack.cs:31-34 | a new stack has no generators and no schematics |
| Chain.Stack.RegisterStructure | WorldPostProcessingStack.cs:168-179 | the schematics become what `Register` makes of them, and nothing else changes |
| Chain.Stack.RegisterStructures | WorldPostProcessingStack.cs:49-52 | the schematics become what registering every child under the root makes of them |
| Chain.Stack.LoadGenerator | WorldPostProcessingStack.cs:67-154 | the generators, the schematics and the exception thrown are those `GeneratorLoad` gives for the element |
| Chain.Stack.LoadSettings | WorldPostProcessingStack.cs:43-65 | the generators, the schematics and the caught exception are those `SettingsLoad` gives for the root |
| Chain.Stack.CreateFromXML | WorldPostProcessingStack.cs:19-23 | a file that does not read or parse throws out and changes nothing; otherwise the settings load with the imported file's folder as root, and an exception while loading is caught |
| Chain.Stack.CreateDefaultPostProcessor | WorldPostProcessingStack.cs:25-29 | the same with the bundled default configuration |
| Chain.Stack.ContainsGeneratorOfType | WorldPostProcessingStack.cs:156-166 | true exactly when some generator has the kind asked for |
| Chain.Stack.DecorateTerrain | WorldPostProcessingStack.cs:181-231 | the calls made are a prefix of the decoration schedule; a call throws exactly when it is the last one made and decoration ended by an exception; without one, every scheduled call and every `OnFinish` is made once and in order |
| Chain.Stack.OnCreateWorldFiles | WorldPostProcessingStack.cs:233-239 | `OnCreateWorldFiles` is called once per generator, in list order, with the world folder |
| WorldGen.FillColumnMeaning | MCWorldGenerator.cs:51-64 | after one column's loops, later writes winning, the column holds bedrock in the lowest layer, deepslate below zero from 1.18 on and the default block from the bottom layer up to the height; no other cell changes |
| WorldGen.FillZMeaning | MCWorldGenerator.cs:49-65 | the columns of one x up to a given z hold their finished columns, and nothing else changes |
| WorldGen.FillXMeaning | MCWorldGenerator.cs:46-66 | the rows up to a given x hold their finished columns, and nothing else changes |
| WorldGen.BaseTerrain | MCWorldGenerator.cs:36-71 | the base terrain puts in every heightmap cell's column exactly what its height and the version call for, and writes nothing above the height or outside the heightmap |
| WorldGen.BandPartition | MCWorldGenerator.cs:41-48 | the 16-wide bands with a shorter last band visit every x of the heightmap exactly once, and no x outside it |
| WorldGen.PaintStep | MCWorldGenerator.cs:55-63 | writing a column's cells bottom up one at a time paints the same range as the whole loop |
| WorldGen.FillColumnAt | MCWorldGenerator.cs:51-64 | one column's loops leave the dimension's blocks as `FillColumn` describes |
| WorldGen.CreateBaseTerrain | MCWorldGenerator.cs:36-71 | the band, x and z loops leave the dimension's blocks as the full base fill describes, so `BaseTerrain` holds of the result |
| WorldGen.DecorateTerrain | MCWorldGenerator.cs:73-79 | without a chain nothing is called; with one, the calls are the chain's decoration schedule up to and including the first call that throws, and the whole schedule when none does |
| Exporter.RoundHalfAwayMeaning | MCWorldExporter.cs:64 | rounding gives the nearest integer, and a value halfway between two integers goes away from zero |
| Exporter.QuantizeMeaning | MCWorldExporter.cs:64 | a heightmap cell is the height rounded to the nearest integer inside the byte range, 0 below it and 255 above it, and a higher input never gives a lower cell |
| Exporter.RoundMonotone | MCWorldExporter.cs:64 | rounding never decreases as its input grows |
| Exporter.RegionNumCovers | MCWorldExporter.cs:67-68 | the region count covers the heightmap's length with no region left empty |
| Exporter.WorldBounds | MCWorldExporter.cs:53-58 | the world area starts 512 blocks per region of offset in and spans exactly the heightmap's lengths, both ends included |
| Exporter.QuantizeGrid | MCWorldExporter.cs:59-66 | a new byte heightmap of the input's shape holds every cell quantised |
| Exporter.XmlPathHasExtension | MCWorldExporter.cs:81-85 | a custom configuration path always ends up with an extension, because ".xml" is added when it has none |
| Exporter.NameStartAppend | MCWorldExporter.cs:84 | appending a suffix without a separator leaves the start of the file name where it was |
| Exporter.LastDotAppend | MCWorldExporter.cs:84 | a path with a '.' after the file name's start has an extension starting at or after it |
| Exporter.Chosen | MCWorldExporter.cs:78-113 | the custom file is used when it reads; when it throws either the default replaces it or the empty stack stays; without a custom file the default or no stack; only a failing default escapes as an exception |
| Exporter.WithAnalysis | MCWorldExporter.cs:114-120 | asking for the analysis keeps the generators and schematics, appends the analysis only if none is there, and throws when there is no stack |
| Exporter.AnalysisIdempotent | MCWorldExporter.cs:114-120 | asking for the analysis a second time changes nothing |
| Exporter.MCExporter.constructor | MCWorldExporter.cs:39-73 | the offsets, void flag, version, lengths, bounds, quantised heightmap, region counts and border warning are set from the export settings and the input grid, and there is no chain yet |
| Exporter.MCExporter.SetupPostProcessing | MCWorldExporter.cs:75-121 | the stack and the escaping exception are those `Chosen` then `WithAnalysis` give, with the generators placed at the region offset's world origin |
| Exporter.MCExporter.WriteFile | MCWorldExporter.cs:123-152 | an unsupported format throws; otherwise every generator is told the output folder once, in list order, or nothing is called without a chain |
| Exporter.WorldFilesFolder | MCWorldExporter.cs:127-150 | a region file gets its own path, a world save the folder named after the file, and any other format an error |
| Exporter.FromFile | MCWorldExporter.cs:92-93 | a new stack holds what loading the custom file gives, and the exception that escapes is the read or parse failure |
| Exporter.FromDefault | MCWorldExporter.cs:100-101 | a new stack holds what loading the bundled default gives |
| Exporter.Choose | MCWorldExporter.cs:78-113 | the stack kept and the exception that escapes are the ones `Chosen` describes |
| Exporter.AddAnalysis | MCWorldExporter.cs:114-120 | the stack's contents become what `WithAnalysis` gives and its schematics do not change |

## Left out

- Chain.Construct: a generator's own constructor failure is the loader's `fails` parameter, applied to the element, its root path and the schematics registered so far. The constructor models in the generators' modules, such as the splat layer's schematic lookup, are not composed into it.
- SurfaceLayers.ParseBiome: a comma-separated list of names, which the .NET enum parser combines into the bitwise or of their values, is refused here as an unknown name. White space is the four characters `Common.IsWhite` names, not every Unicode space that `string.Trim` removes.
- File, XML and image input: reading and parsing files, loading schematic files and weightmap images. They are the `readXml`, `defaultConfig`, `schematic` and `images` parameters of `Chain.Loader`. Number parsing accepts plain decimal notation only, not the culture-dependent formats of the .NET parsers.
- Concurrency: the base fill's `Parallel.For` over bands runs the bands in order. This is sound because each band writes only its own columns.
- The region pass's `Parallel.ForEach` over the world's regions is one `RegionCall` per pass. The regions' iteration order and the generators' region hooks are not modelled, since none of the modelled generators overrides them.
- The effects of the generators' `OnFinish` and `OnCreateWorldFiles` hooks: the chain only records the calls.
- `BlockDistributionAnalysisPostProcessor`: only its settings and its construction are modelled. Its analysis and CSV writing are not part of this model.
- `WorldMergerPostProcessor` is not part of this model. Its settings are a parameter of `Chain.Loader`, and its constructor's failures are the loader's `fails` parameter.
- Floating point: single-precision arithmetic is modelled with exact `real`s, so rounding differences are not captured. Random draws are exact values in [0, 1).
- Integer width: coordinates and offsets are unbounded integers. The 32-bit overflow of `regionOffset * 512` and similar products for huge offsets is not modelled.
- The cave walk's vector geometry is given as parameters of `Caves.Geometry` and held uninterpreted. This covers `Normalize`, distance, `ApplyYWeights`, the square root, and the cosine window of caverns. The same holds for Perlin noise, for both caverns and `SurfaceLayers` Perlin layers.
- The world library's block classification and its highest-solid-block query are given as data in `World.Env`. These are `IsAir`, `IsLiquid`, `IsPlantSustaining` and the terrain surface blocks. `SetBlock` always succeeds, since region extents are not modelled.
- Structure placement: `Schematic.Build` is not part of this model. A schematic is a given function from the world, the position and the draws to the new world, the number of draws taken and whether anything was built. The structure generator's private random stream is a draw stream of its own.
- Colour names in `ParseColor` are a given table, the `colorNames` parameter of the splat functions.
- `MCWorldGenerator.CreateWorld` and its void and region-bound setup are not modelled. Its signature also disagrees with its caller in `MCWorldExporter.WriteFile`. `Exporter.MCExporter.WriteFile` models only what the chain sees: the folder handed to `OnCreateWorldFiles`, and the exception for an unsupported format. Writing region files, world saves and the overview map is left out.
- WorldGen.DecorateTerrain calls the stack with the heightmap and the region offsets. The source calls `postProcessor.DecorateTerrain(dim, heightmap)`, but the stack's only such method takes an `MCWorldExporter`, from which it reads the heightmap, its lengths and the region offsets. The `offX` and `offZ` parameters stand in for what the exporter would supply.
- Chain.Stack.DecorateTerrain takes which hook calls throw as a parameter, `throws`. The hooks' own models (for example a springs carver with an empty height range, or a snow cell with no block) are not composed with the schedule to compute it.
- `MCWorldExporter.GetHeightmap` reads back the world library's heightmap and is left out with that library.
- `GameVersion.Parse` of the `mcVersion` setting: the setting is given as an already-parsed version.
- Progress bars and console messages are not modelled. A reported warning or error is modelled as "nothing changes", or as the caught message where the source catches an exception.
- `VegetationPostProcessor.IsObstructed` is never called and is not modelled.
- Some values are read but never used, and they have no effect in the model either. One is the ore post-processor's `multiplier` (`rarityMul`), which is parsed, so a malformed one still fails the constructor. The others are the cave carver's `scale` and the snow generator's `check-biomes`.
- `Ores.XmlRule`: the XML constructor of `OreGenerator` never sets a deepslate variant, so such a rule never replaces deepslate. This follows the code.
- Snow.FreezeAt returns a failure flag where the source's `block.IsWater` throws a `NullReferenceException` on a cell that holds no block. The exception's message is not modelled.
- Snow.FreezeBlock and Snow.OnProcessSurface return the same flag in place of the exception; what the caller does with it is not modelled.
- Caves.Advance, and through it Caves.Step, Caves.Continue, Caves.Branch, Caves.GenerateCave and Caves.CaveColumn, use the intended branching decision `Caves.Branches`, not the written one. As written, a zero draw also branches a walk that is three deep or has a delta of at most 0.25 (see Findings).
- Caves.SpringColumn, and Caves.RunCarver through `Caves.CarverAt`, try the spring at the drawn height, not at the column's top cell as the source does (see Findings). `Caves.SpringColumnAsWritten` models the written form.
- Caves.CaveGenLayer.ProcessBlockColumn runs the corrected spring and branching behaviour, so it differs from the source on the inputs the Findings name.
- Caves.CavesPostProcessor.OnProcessSurface runs the corrected spring and branching behaviour through the layers, so it differs from the source on the same inputs.
- Common.Lower folds only the ASCII letters A to Z. The source's culture-sensitive `ToLower()` also folds other letters. This affects the channel names, the cave carver names, the chain's tag names and the ore generator's child names.
- PostProcessor.WeightmapLayers registers every channel name before any layer is built; the layers are built afterwards. The source builds each layer inside its registration loop. So when a malformed layer child comes before an unknown or repeated channel name, the source reports the layer's error and the model reports the channel's.
- The source's `Random` is one static stream shared by all generators. The model passes one `World.Random` through every hook in call order.

## Findings

| source | as written | input that shows it | evidently intended | confidence | as-written member | corrected member |
|---|---|---|---|---|---|---|
| MinecraftTerrainPostProcessors/CavesPostProcessor.cs:155-174 | the branching chance is 0 once a walk is three branches deep or its delta is at most 0.25, but `Chance(c)` tests `NextDouble() <= c`, so a zero draw still branches | delta 0.4, iteration 3, size 2.0, draw 0.0: the walk branches a fourth level deep | no branch unless delta exceeds 0.25 and the walk is less than three branches deep | medium, not executed | Caves.BranchPastCapAsWritten | Caves.Branches |
| MinecraftTerrainPostProcessors/CavesPostProcessor.cs:297-299 | a spring height y is drawn and only compared with the column's top; the spring is then tried at the top cell itself, which has air above it, so `CanGenerateSpring` fails there and the spring is never placed while the cell above the surface is empty, as on the bare base terrain | the column of stone at heights 9, 10, 11 and 20 at x = z = 0, air west of height 10, all draws 0.0, range 10 to 80: as written nothing changes | the spring is tried at the drawn height (x, y, z) | medium, not executed | Caves.SpringColumnAsWritten | Caves.SpringColumnAt |
