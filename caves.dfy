/** Cave generation: carvers that hollow out the terrain below the surface
    (random cave walks, noise caverns) and place water or lava springs,
    grouped in layers dispatched by a weightmap. */
module Caves {
  import opened Common
  import opened Xml
  import opened World
  import PP = PostProcessor

  const OrderPriority: PP.Priority := PP.AfterFirst
  const Mode: PP.PostProcessType := PP.Surface
  const BlockProcessYMin: int := 8
  const BlockProcessYMax: int := 92

  /** Carved cells at or below this height become lava, higher ones air. */
  const LavaHeight: int := 8

  const Lava: Block := Named("minecraft:lava")
  const Air: Block := Named("minecraft:air")
  const Bedrock: string := "minecraft:bedrock"
  const SpringWater: Block := Named("minecraft:water")

  datatype Vec = Vec(x: real, y: real, z: real)

  function VecOf(c: Coord): Vec { Vec(c.0 as real, c.1 as real, c.2 as real) }
  function Plus(a: Vec, b: Vec): Vec { Vec(a.x + b.x, a.y + b.y, a.z + b.z) }
  function Times(a: Vec, s: real): Vec { Vec(a.x * s, a.y * s, a.z * s) }

  /** The floating-point geometry the carvers use, not interpreted: vector
      length normalisation, Euclidean distance, the walk's height weighting
      (`ApplyYWeights`, with its smoothstep), `Math.Sqrt`, and the cavern
      window `Math.Sqrt(Math.Cos(a))`, None where it is not a number, and
      the cavern carver's three-octave Perlin noise, built from its
      horizontal, vertical and persistence scales, at a cell. */
  datatype Geometry = Geometry(
    normalize: Vec -> Vec,
    distance: (Vec, Vec) -> real,
    yWeights: (real, Vec) -> Vec,
    sqrt: real -> real,
    window: real -> Option<real>,
    noise: (real, real, real, int, int, int) -> real)

  // ---------------------------------------------------------------------
  // Carving one block

  /** What a carver may remove: a stored, non-air block that is neither
      bedrock nor liquid, and not a terrain surface block unless the carver
      may break the surface. */
  predicate Carvable(env: Env, m: map<Coord, Block>, c: Coord, allowSurfaceBreak: bool)
  {
    c in m && m[c].id !in env.air && (allowSurfaceBreak || m[c].id !in env.surface) &&
    m[c].id != Bedrock && m[c].id !in env.liquids
  }

  /** What a carved cell becomes. */
  function Carved(c: Coord): Block
  {
    if c.1 <= LavaHeight then Lava else Air
  }

  /** `CarveBlock`: the new world and whether the cell was carved. */
  function CarveAt(env: Env, m: map<Coord, Block>, c: Coord, allowSurfaceBreak: bool): (r: (map<Coord, Block>, bool))
    ensures r.1 <==> Carvable(env, m, c, allowSurfaceBreak)
    ensures forall c' :: c' != c ==> Get(r.0, c') == Get(m, c')
    ensures (!IsAirOrNull(env, m, c) && !(m[c].id in env.surface && !allowSurfaceBreak) &&
             m[c].id != Bedrock && m[c].id !in env.liquids) ==>
              Get(r.0, c) == Some(if c.1 <= LavaHeight then Lava else Air)
    ensures (IsAirOrNull(env, m, c) || (m[c].id in env.surface && !allowSurfaceBreak) ||
             m[c].id == Bedrock || m[c].id in env.liquids) ==> r.0 == m
  {
    if Carvable(env, m, c, allowSurfaceBreak) then (m[c := Carved(c)], true) else (m, false)
  }

  /** A carved cell is not carved again, when air is air and lava liquid. */
  lemma CarveTwice(env: Env, m: map<Coord, Block>, c: Coord, allowSurfaceBreak: bool)
    requires Air.id in env.air && Lava.id in env.liquids
    ensures var r := CarveAt(env, m, c, allowSurfaceBreak);
            CarveAt(env, r.0, c, allowSurfaceBreak) == (r.0, false)
  {
  }

  method CarveBlock(dim: Dimension, c: Coord, allowSurfaceBreak: bool) returns (carved: bool)
    modifies dim`blocks
    ensures (dim.blocks, carved) == CarveAt(dim.env, old(dim.blocks), c, allowSurfaceBreak)
  {
    var b := Get(dim.blocks, c);
    if b.None? || b.value.id in dim.env.air {
      return false;
    }
    if b.value.id in dim.env.surface && !allowSurfaceBreak {
      return false;
    }
    if b.value.id != Bedrock && b.value.id !in dim.env.liquids {
      if c.1 <= LavaHeight {
        dim.SetBlock(c, Lava);
      } else {
        dim.SetBlock(c, Air);
      }
      return true;
    }
    return false;
  }

  // ---------------------------------------------------------------------
  // Carving a sphere

  /** A cell the distance test admits and `CarveBlock` would carve. */
  predicate Carves(env: Env, geo: Geometry, p: Vec, r: real, allow: bool, m: map<Coord, Block>, c: Coord)
  {
    geo.distance(VecOf(c), p) < r && Carvable(env, m, c, allow)
  }

  /** The cells the triple loop of `CarveSphere` visits. */
  predicate InBox(p: Vec, r: real, c: Coord)
  {
    Floor(p.x - r) <= c.0 <= Ceil(p.x + r) &&
    Floor(p.y - r) <= c.1 <= Ceil(p.y + r) &&
    Floor(p.z - r) <= c.2 <= Ceil(p.z + r)
  }

  /** The world and the `hasCarved` flag the loops carry. */
  type Carving = (map<Coord, Block>, bool)

  /** One cell of the loop: carved when it is within the radius, the
      flag OR-ed with the result. */
  function CellStep(env: Env, geo: Geometry, p: Vec, r: real, allow: bool, s: Carving, c: Coord): Carving
  {
    if geo.distance(VecOf(c), p) < r then
      var k := CarveAt(env, s.0, c, allow);
      (k.0, s.1 || k.1)
    else s
  }

  /** The z loop from `z` on. */
  function RowFrom(env: Env, geo: Geometry, p: Vec, r: real, allow: bool, s: Carving, x: int, y: int, z: int): Carving
    decreases Ceil(p.z + r) - z
  {
    if z > Ceil(p.z + r) then s
    else RowFrom(env, geo, p, r, allow, CellStep(env, geo, p, r, allow, s, (x, y, z)), x, y, z + 1)
  }

  /** The y loop from `y` on. */
  function SlabFrom(env: Env, geo: Geometry, p: Vec, r: real, allow: bool, s: Carving, x: int, y: int): Carving
    decreases Ceil(p.y + r) - y
  {
    if y > Ceil(p.y + r) then s
    else SlabFrom(env, geo, p, r, allow, RowFrom(env, geo, p, r, allow, s, x, y, Floor(p.z - r)), x, y + 1)
  }

  /** The x loop from `x` on. */
  function BoxFrom(env: Env, geo: Geometry, p: Vec, r: real, allow: bool, s: Carving, x: int): Carving
    decreases Ceil(p.x + r) - x
  {
    if x > Ceil(p.x + r) then s
    else BoxFrom(env, geo, p, r, allow, SlabFrom(env, geo, p, r, allow, s, x, Floor(p.y - r)), x + 1)
  }

  /** `CarveSphere`. */
  function SphereAt(env: Env, m: map<Coord, Block>, geo: Geometry, p: Vec, r: real, allow: bool): Carving
  {
    BoxFrom(env, geo, p, r, allow, (m, false), Floor(p.x - r))
  }

  /** Whether a cell can be carved depends on that cell alone. */
  lemma CarvableLocal(env: Env, m: map<Coord, Block>, m': map<Coord, Block>, c: Coord, allow: bool)
    requires Get(m, c) == Get(m', c)
    ensures Carvable(env, m, c, allow) == Carvable(env, m', c, allow)
  {
  }

  /** The z loop carves exactly the admitted cells of its row, each once. */
  lemma {:induction false} RowFromCell(env: Env, geo: Geometry, p: Vec, r: real, allow: bool, s: Carving, x: int, y: int, z: int, c: Coord)
    ensures Get(RowFrom(env, geo, p, r, allow, s, x, y, z).0, c) ==
            if c.0 == x && c.1 == y && z <= c.2 <= Ceil(p.z + r) && Carves(env, geo, p, r, allow, s.0, c)
            then Some(Carved(c)) else Get(s.0, c)
    decreases Ceil(p.z + r) - z
  {
    if z <= Ceil(p.z + r) {
      var t := CellStep(env, geo, p, r, allow, s, (x, y, z));
      RowFromCell(env, geo, p, r, allow, t, x, y, z + 1, c);
      if c != (x, y, z) {
        CarvableLocal(env, s.0, t.0, c, allow);
      }
    }
  }

  /** The z loop's flag: set before, or some admitted cell of the row. */
  lemma {:induction false} RowFromHit(env: Env, geo: Geometry, p: Vec, r: real, allow: bool, s: Carving, x: int, y: int, z: int)
    ensures RowFrom(env, geo, p, r, allow, s, x, y, z).1 <==>
            s.1 || exists c: Coord :: c.0 == x && c.1 == y && z <= c.2 <= Ceil(p.z + r) && Carves(env, geo, p, r, allow, s.0, c)
    decreases Ceil(p.z + r) - z
  {
    if z <= Ceil(p.z + r) {
      var cur := (x, y, z);
      var t := CellStep(env, geo, p, r, allow, s, cur);
      RowFromHit(env, geo, p, r, allow, t, x, y, z + 1);
      forall c: Coord | c.0 == x && c.1 == y && z + 1 <= c.2
        ensures Carves(env, geo, p, r, allow, t.0, c) == Carves(env, geo, p, r, allow, s.0, c)
      {
        CarvableLocal(env, s.0, t.0, c, allow);
      }
      if t.1 && !s.1 {
        assert Carves(env, geo, p, r, allow, s.0, cur);
      }
      if exists c: Coord :: c.0 == x && c.1 == y && z <= c.2 <= Ceil(p.z + r) && Carves(env, geo, p, r, allow, s.0, c) {
        var c: Coord :| c.0 == x && c.1 == y && z <= c.2 <= Ceil(p.z + r) && Carves(env, geo, p, r, allow, s.0, c);
        if c == cur {
          assert t.1;
        }
      }
    }
  }

  /** The y loop carves exactly the admitted cells of its slab. */
  lemma {:induction false} SlabFromCell(env: Env, geo: Geometry, p: Vec, r: real, allow: bool, s: Carving, x: int, y: int, c: Coord)
    ensures Get(SlabFrom(env, geo, p, r, allow, s, x, y).0, c) ==
            if c.0 == x && y <= c.1 <= Ceil(p.y + r) && Floor(p.z - r) <= c.2 <= Ceil(p.z + r) &&
               Carves(env, geo, p, r, allow, s.0, c)
            then Some(Carved(c)) else Get(s.0, c)
    decreases Ceil(p.y + r) - y
  {
    if y <= Ceil(p.y + r) {
      var t := RowFrom(env, geo, p, r, allow, s, x, y, Floor(p.z - r));
      SlabFromCell(env, geo, p, r, allow, t, x, y + 1, c);
      RowFromCell(env, geo, p, r, allow, s, x, y, Floor(p.z - r), c);
      if c.1 != y {
        CarvableLocal(env, s.0, t.0, c, allow);
      }
    }
  }

  lemma {:induction false} SlabFromHit(env: Env, geo: Geometry, p: Vec, r: real, allow: bool, s: Carving, x: int, y: int)
    ensures SlabFrom(env, geo, p, r, allow, s, x, y).1 <==>
            s.1 || exists c: Coord :: c.0 == x && y <= c.1 <= Ceil(p.y + r) && Floor(p.z - r) <= c.2 <= Ceil(p.z + r) &&
                                      Carves(env, geo, p, r, allow, s.0, c)
    decreases Ceil(p.y + r) - y
  {
    if y <= Ceil(p.y + r) {
      var t := RowFrom(env, geo, p, r, allow, s, x, y, Floor(p.z - r));
      SlabFromHit(env, geo, p, r, allow, t, x, y + 1);
      RowFromHit(env, geo, p, r, allow, s, x, y, Floor(p.z - r));
      forall c: Coord | c.0 == x && y + 1 <= c.1
        ensures Carves(env, geo, p, r, allow, t.0, c) == Carves(env, geo, p, r, allow, s.0, c)
      {
        RowFromCell(env, geo, p, r, allow, s, x, y, Floor(p.z - r), c);
        CarvableLocal(env, s.0, t.0, c, allow);
      }
    }
  }

  /** The x loop carves exactly the admitted cells of the box. */
  lemma {:induction false} BoxFromCell(env: Env, geo: Geometry, p: Vec, r: real, allow: bool, s: Carving, x: int, c: Coord)
    ensures Get(BoxFrom(env, geo, p, r, allow, s, x).0, c) ==
            if x <= c.0 <= Ceil(p.x + r) && Floor(p.y - r) <= c.1 <= Ceil(p.y + r) && Floor(p.z - r) <= c.2 <= Ceil(p.z + r) &&
               Carves(env, geo, p, r, allow, s.0, c)
            then Some(Carved(c)) else Get(s.0, c)
    decreases Ceil(p.x + r) - x
  {
    if x <= Ceil(p.x + r) {
      var t := SlabFrom(env, geo, p, r, allow, s, x, Floor(p.y - r));
      BoxFromCell(env, geo, p, r, allow, t, x + 1, c);
      SlabFromCell(env, geo, p, r, allow, s, x, Floor(p.y - r), c);
      if c.0 != x {
        CarvableLocal(env, s.0, t.0, c, allow);
      }
    }
  }

  lemma {:induction false} BoxFromHit(env: Env, geo: Geometry, p: Vec, r: real, allow: bool, s: Carving, x: int)
    ensures BoxFrom(env, geo, p, r, allow, s, x).1 <==>
            s.1 || exists c: Coord :: x <= c.0 <= Ceil(p.x + r) && Floor(p.y - r) <= c.1 <= Ceil(p.y + r) &&
                                      Floor(p.z - r) <= c.2 <= Ceil(p.z + r) && Carves(env, geo, p, r, allow, s.0, c)
    decreases Ceil(p.x + r) - x
  {
    if x <= Ceil(p.x + r) {
      var t := SlabFrom(env, geo, p, r, allow, s, x, Floor(p.y - r));
      BoxFromHit(env, geo, p, r, allow, t, x + 1);
      SlabFromHit(env, geo, p, r, allow, s, x, Floor(p.y - r));
      forall c: Coord | x + 1 <= c.0
        ensures Carves(env, geo, p, r, allow, t.0, c) == Carves(env, geo, p, r, allow, s.0, c)
      {
        SlabFromCell(env, geo, p, r, allow, s, x, Floor(p.y - r), c);
        CarvableLocal(env, s.0, t.0, c, allow);
      }
    }
  }

  /** A sphere carves exactly the carvable cells of its bounding box that
      are within the radius, turning each into what `CarveBlock` makes of
      it, and reports whether it carved any. */
  lemma SphereMeaning(env: Env, m: map<Coord, Block>, geo: Geometry, p: Vec, r: real, allow: bool)
    ensures var s := SphereAt(env, m, geo, p, r, allow);
            (forall c :: Get(s.0, c) == if InBox(p, r, c) && Carves(env, geo, p, r, allow, m, c) then Some(Carved(c)) else Get(m, c)) &&
            (s.1 <==> exists c :: InBox(p, r, c) && Carves(env, geo, p, r, allow, m, c))
  {
    forall c ensures Get(SphereAt(env, m, geo, p, r, allow).0, c) ==
                     if InBox(p, r, c) && Carves(env, geo, p, r, allow, m, c) then Some(Carved(c)) else Get(m, c) {
      BoxFromCell(env, geo, p, r, allow, (m, false), Floor(p.x - r), c);
    }
    BoxFromHit(env, geo, p, r, allow, (m, false), Floor(p.x - r));
  }

  /** When air is air and lava liquid, a sphere reports true exactly when
      it changed the world. */
  lemma SphereChanges(env: Env, m: map<Coord, Block>, geo: Geometry, p: Vec, r: real, allow: bool)
    requires Air.id in env.air && Lava.id in env.liquids
    ensures var s := SphereAt(env, m, geo, p, r, allow); s.1 <==> s.0 != m
  {
    var s := SphereAt(env, m, geo, p, r, allow);
    SphereMeaning(env, m, geo, p, r, allow);
    if s.1 {
      var c :| InBox(p, r, c) && Carves(env, geo, p, r, allow, m, c);
      assert Get(s.0, c) != Get(m, c);
    } else {
      SameEverywhere(s.0, m);
    }
  }

  /** `CarveSphere`: the loops over x, y and z of the bounding box. */
  method CarveSphere(dim: Dimension, geo: Geometry, p: Vec, r: real, allow: bool) returns (hasCarved: bool)
    modifies dim`blocks
    ensures (dim.blocks, hasCarved) == SphereAt(dim.env, old(dim.blocks), geo, p, r, allow)
  {
    hasCarved := false;
    var x1, x2 := Floor(p.x - r), Ceil(p.x + r);
    var x := x1;
    while x <= x2
      invariant BoxFrom(dim.env, geo, p, r, allow, (dim.blocks, hasCarved), x) == SphereAt(dim.env, old(dim.blocks), geo, p, r, allow)
      decreases x2 - x
    {
      hasCarved := CarveSlab(dim, geo, p, r, allow, x, hasCarved);
      x := x + 1;
    }
  }

  /** The y and z loops at one x. */
  method CarveSlab(dim: Dimension, geo: Geometry, p: Vec, r: real, allow: bool, x: int, hasCarved: bool) returns (carved: bool)
    modifies dim`blocks
    ensures (dim.blocks, carved) == SlabFrom(dim.env, geo, p, r, allow, (old(dim.blocks), hasCarved), x, Floor(p.y - r))
  {
    carved := hasCarved;
    var y1, y2 := Floor(p.y - r), Ceil(p.y + r);
    var y := y1;
    while y <= y2
      invariant SlabFrom(dim.env, geo, p, r, allow, (dim.blocks, carved), x, y) ==
                SlabFrom(dim.env, geo, p, r, allow, (old(dim.blocks), hasCarved), x, y1)
      decreases y2 - y
    {
      carved := CarveRow(dim, geo, p, r, allow, x, y, carved);
      y := y + 1;
    }
  }

  /** The z loop at one x and y. */
  method CarveRow(dim: Dimension, geo: Geometry, p: Vec, r: real, allow: bool, x: int, y: int, hasCarved: bool) returns (carved: bool)
    modifies dim`blocks
    ensures (dim.blocks, carved) == RowFrom(dim.env, geo, p, r, allow, (old(dim.blocks), hasCarved), x, y, Floor(p.z - r))
  {
    carved := hasCarved;
    var z1, z2 := Floor(p.z - r), Ceil(p.z + r);
    var z := z1;
    while z <= z2
      invariant RowFrom(dim.env, geo, p, r, allow, (dim.blocks, carved), x, y, z) ==
                RowFrom(dim.env, geo, p, r, allow, (old(dim.blocks), hasCarved), x, y, z1)
      decreases z2 - z
    {
      if geo.distance(VecOf((x, y, z)), p) < r {
        var c := CarveBlock(dim, (x, y, z), allow);
        carved := carved || c;
      }
      z := z + 1;
    }
  }

  // ---------------------------------------------------------------------
  // Cave walks

  /** `Carver.RandomRange` on a draw. */
  function RandomRange(d: Unit, lo: real, hi: real): real { lo + d * (hi - lo) }

  /** `GetRandomVector3`: three draws, the height one capped at 0 unless
      the vector may point upwards, normalised. */
  function RandomVec(geo: Geometry, draw: nat -> Unit, k: nat, up: bool): Vec
  {
    geo.normalize(Vec(RandomRange(draw(k), -1.0, 1.0), RandomRange(draw(k + 1), -1.0, if up then 1.0 else 0.0),
                      RandomRange(draw(k + 2), -1.0, 1.0)))
  }

  /** The number of steps of a walk: the scaled draw, at most 400. */
  function Life(d: Unit, delta: real): (n: int)
    ensures n <= 400
    ensures Truncate(RandomRange(d, 50.0, 300.0) * delta) <= 400 ==> n == Truncate(RandomRange(d, 50.0, 300.0) * delta)
  {
    Min(Truncate(RandomRange(d, 50.0, 300.0) * delta), 400)
  }

  function StartSize(d: Unit, delta: real): real { RandomRange(d, 2.0, 7.5 * delta) }
  function StartVariation(d: Unit, variationScale: real): real { RandomRange(d, 0.2, 1.0) * variationScale }
  function NextSize(size: real, d: Unit, delta: real): real { Lerp(size, RandomRange(d, 2.0, 6.0) * delta, 0.15) }
  function NextVariation(variation: real, d: Unit, variationScale: real): real
  {
    Lerp(variation, RandomRange(d, 0.2, 1.0) * variationScale, 0.1)
  }

  /** The new heading: the old one plus the weighted random vector scaled
      by half the variation, normalised. */
  function Turn(geo: Geometry, dir: Vec, nd: Vec, variation: real): Vec
  {
    geo.normalize(Plus(dir, Times(Times(nd, variation), 0.5)))
  }

  /** What a walk fixes when it starts. */
  datatype Walk = Walk(delta: real, size: real, breakSurface: bool, iteration: nat, maxDelta: real, variationScale: real)

  /** What the walk's loop updates. */
  datatype Cursor = Cursor(pos: Vec, dir: Vec, size: real, variation: real, life: int)

  /** The branching decision AS WRITTEN: the chance is the start size
      times 0.01 when delta exceeds 0.25 and the walk is less than three
      branches deep, and 0 otherwise, and `Chance` passes when the draw is
      at most the chance, so a zero draw passes a zero chance. */
  function BranchesAsWritten(delta: real, iteration: nat, size: real, d: Unit): bool
  {
    d <= (if delta > 0.25 && iteration < 3 then size * 0.01 else 0.0)
  }

  /** Past the cap, the decision as written still branches on a zero draw. */
  lemma BranchPastCapAsWritten()
    ensures BranchesAsWritten(0.4, 3, 2.0, 0.0)
    ensures !Branches(Walk(0.4, 2.0, false, 3, 1.0, 1.0), 0.0)
  {
  }

  /** The branching decision as intended, used by the model: a walk
      branches only when its delta exceeds 0.25 and it is less than three
      branches deep, with the chance of the start size times 0.01. */
  function Branches(w: Walk, d: Unit): (b: bool)
    ensures b ==> w.delta > 0.25 && w.iteration < 3
  {
    w.delta > 0.25 && w.iteration < 3 && d <= w.size * 0.01
  }

  /** The two decisions differ only on a zero draw. */
  lemma BranchesAgree(w: Walk, d: Unit)
    requires d > 0.0
    ensures BranchesAsWritten(w.delta, w.iteration, w.size, d) == Branches(w, d)
  {
  }

  /** How many more times a walk can branch. */
  function Depth(iteration: nat): nat { if iteration < 3 then 3 - iteration else 0 }

  /** What a walk draws when it starts: delta, life, size, variation, a
      heading (pointing upwards only for the first walk of a cave) and
      whether it may break the surface; eight draws. */
  function WalkStart(geo: Geometry, variationScale: real, draw: nat -> Unit, k: nat, pos: Vec, iteration: nat, maxDelta: real)
    : (r: (Walk, Cursor))
    ensures r.0.iteration == iteration && r.0.maxDelta == maxDelta && r.0.variationScale == variationScale
    ensures r.1.pos == pos && r.1.life <= 400 && r.1.size == r.0.size
    ensures r.0.breakSurface <==> draw(k + 7) <= 0.4
  {
    var delta := RandomRange(draw(k), maxDelta * 0.25, maxDelta);
    var size := StartSize(draw(k + 2), delta);
    (Walk(delta, size, draw(k + 7) <= 0.4, iteration, maxDelta, variationScale),
     Cursor(pos, geo.normalize(RandomVec(geo, draw, k + 4, iteration == 0)), size,
            StartVariation(draw(k + 3), variationScale), Life(draw(k + 1), delta)))
  }

  /** `GenerateCave`: the world and the draw count after a walk from `pos`
      at the given branch depth. */
  function CaveAt(env: Env, geo: Geometry, variationScale: real, m: map<Coord, Block>, draw: nat -> Unit, k: nat,
                  pos: Vec, iteration: nat, maxDelta: real): (map<Coord, Block>, nat)
    decreases Depth(iteration), 401, 3
  {
    var start := WalkStart(geo, variationScale, draw, k, pos, iteration, maxDelta);
    StepsAt(env, geo, start.0, m, draw, k + 8, start.1)
  }

  /** The walk's loop from the cursor on. */
  function StepsAt(env: Env, geo: Geometry, w: Walk, m: map<Coord, Block>, draw: nat -> Unit, k: nat, c: Cursor)
    : (map<Coord, Block>, nat)
    requires c.life <= 400
    decreases Depth(w.iteration), c.life, 2
  {
    if c.life <= 0 then (m, k)
    else
      var t := StepAt(env, geo, w, m, draw, k, c);
      if t.2 then StepsAt(env, geo, w, t.0, draw, t.1, NextCursor(geo, w, draw, k, c)) else (t.0, t.1)
  }

  /** One turn of the loop: the world, the draw count and whether the walk
      goes on. A sphere that carves nothing ends the walk without drawing;
      otherwise the turn draws five numbers for the next cursor and one
      for branching, and a branch walks a whole cave from the current
      position one level deeper, with 0.8 times the delta bound. */
  function StepAt(env: Env, geo: Geometry, w: Walk, m: map<Coord, Block>, draw: nat -> Unit, k: nat, c: Cursor)
    : (r: (map<Coord, Block>, nat, bool))
    requires 0 < c.life <= 400
    ensures !r.2 ==> r.1 == k
    decreases Depth(w.iteration), c.life, 1
  {
    var sphere := SphereAt(env, m, geo, c.pos, c.size, w.breakSurface);
    if !sphere.1 then (sphere.0, k, false)
    else
      var after := BranchAt(env, geo, w, sphere.0, draw, k, c);
      (after.0, after.1, true)
  }

  /** The end of a turn that carved something: after the five draws for
      the next cursor, one draw decides whether a whole cave branches off
      at the current position, one level deeper and with 0.8 times the
      delta bound. */
  function BranchAt(env: Env, geo: Geometry, w: Walk, m: map<Coord, Block>, draw: nat -> Unit, k: nat, c: Cursor)
    : (map<Coord, Block>, nat)
    requires 0 < c.life <= 400
    decreases Depth(w.iteration), c.life, 0
  {
    if Branches(w, draw(k + 5))
    then CaveAt(env, geo, w.variationScale, m, draw, k + 6, c.pos, w.iteration + 1, w.maxDelta * 0.8)
    else (m, k + 6)
  }

  /** A step that carved something turns the heading by the weighted
      random vector, blends size and variation towards fresh draws and
      moves one heading on; it takes five draws. */
  function NextCursor(geo: Geometry, w: Walk, draw: nat -> Unit, k: nat, c: Cursor): (n: Cursor)
    ensures n.life == c.life - 1
  {
    var dir := Turn(geo, c.dir, geo.yWeights(c.pos.y, RandomVec(geo, draw, k, true)), c.variation);
    Cursor(Plus(c.pos, dir), dir, NextSize(c.size, draw(k + 3), w.delta), NextVariation(c.variation, draw(k + 4), w.variationScale),
           c.life - 1)
  }

  /** `GetRandomVector3` on the stream. */
  method RandomVector(rng: Random, geo: Geometry, up: bool) returns (v: Vec)
    modifies rng`count
    ensures v == RandomVec(geo, rng.draw, old(rng.count), up) && rng.count == old(rng.count) + 3
  {
    var dx := rng.NextDouble();
    var dy := rng.NextDouble();
    var dz := rng.NextDouble();
    v := geo.normalize(Vec(RandomRange(dx, -1.0, 1.0), RandomRange(dy, -1.0, if up then 1.0 else 0.0), RandomRange(dz, -1.0, 1.0)));
  }

  /** The start of `GenerateCave`. */
  method StartWalk(rng: Random, geo: Geometry, variationScale: real, pos: Vec, iteration: nat, maxDelta: real)
    returns (w: Walk, c: Cursor)
    modifies rng`count
    ensures (w, c) == WalkStart(geo, variationScale, rng.draw, old(rng.count), pos, iteration, maxDelta)
    ensures rng.count == old(rng.count) + 8
  {
    var dd := rng.NextDouble();
    var delta := RandomRange(dd, maxDelta * 0.25, maxDelta);
    var ld := rng.NextDouble();
    var life := Life(ld, delta);
    var sd := rng.NextDouble();
    var size := StartSize(sd, delta);
    var vd := rng.NextDouble();
    var variation := StartVariation(vd, variationScale);
    var rv := RandomVector(rng, geo, iteration == 0);
    var direction := geo.normalize(rv);
    var bd := rng.NextDouble();
    w := Walk(delta, size, bd <= 0.4, iteration, maxDelta, variationScale);
    c := Cursor(pos, direction, size, variation, life);
  }

  /** `GenerateCave`: the walk's start, then its loop. */
  method GenerateCave(dim: Dimension, rng: Random, geo: Geometry, variationScale: real, pos: Vec, iteration: nat, maxDelta: real)
    modifies dim`blocks, rng`count
    ensures (dim.blocks, rng.count) ==
            CaveAt(dim.env, geo, variationScale, old(dim.blocks), rng.draw, old(rng.count), pos, iteration, maxDelta)
    decreases Depth(iteration), 401, 4
  {
    var w, c := StartWalk(rng, geo, variationScale, pos, iteration, maxDelta);
    while c.life > 0
      invariant c.life <= 400 && w.iteration == iteration
      invariant StepsAt(dim.env, geo, w, dim.blocks, rng.draw, rng.count, c) ==
                CaveAt(dim.env, geo, variationScale, old(dim.blocks), rng.draw, old(rng.count), pos, iteration, maxDelta)
      decreases c.life
    {
      var alive;
      alive, c := Step(dim, rng, geo, w, c);
      if !alive {
        return;
      }
    }
  }

  /** One turn of the walk's loop: carve a sphere, stop if it carved
      nothing, else turn, resize, maybe branch one level deeper at the
      current position, and move on. */
  method Step(dim: Dimension, rng: Random, geo: Geometry, w: Walk, c: Cursor) returns (alive: bool, next: Cursor)
    requires 0 < c.life <= 400
    modifies dim`blocks, rng`count
    ensures (dim.blocks, rng.count, alive) == StepAt(dim.env, geo, w, old(dim.blocks), rng.draw, old(rng.count), c)
    ensures next.life == c.life - 1 && (alive ==> next == NextCursor(geo, w, rng.draw, old(rng.count), c))
    decreases Depth(w.iteration), c.life, 2
  {
    next := c.(life := c.life - 1);
    alive := CarveSphere(dim, geo, c.pos, c.size, w.breakSurface);
    if alive {
      next := Continue(dim, rng, geo, w, c);
    }
  }

  /** The rest of a turn that carved something. */
  method Continue(dim: Dimension, rng: Random, geo: Geometry, w: Walk, c: Cursor) returns (next: Cursor)
    requires 0 < c.life <= 400
    modifies dim`blocks, rng`count
    ensures (dim.blocks, rng.count) == BranchAt(dim.env, geo, w, old(dim.blocks), rng.draw, old(rng.count), c)
    ensures next == NextCursor(geo, w, rng.draw, old(rng.count), c)
    decreases Depth(w.iteration), c.life, 1
  {
    ghost var k := rng.count;
    var branch;
    next, branch := Advance(rng, geo, w, c);
    Branch(dim, rng, geo, w, c, branch, k);
  }

  /** The branch at the end of a turn, once its six draws are taken. */
  method Branch(dim: Dimension, rng: Random, geo: Geometry, w: Walk, c: Cursor, branch: bool, ghost k: nat)
    requires 0 < c.life <= 400
    requires rng.count == k + 6 && branch == Branches(w, rng.draw(k + 5))
    modifies dim`blocks, rng`count
    ensures (dim.blocks, rng.count) == BranchAt(dim.env, geo, w, old(dim.blocks), rng.draw, k, c)
    decreases Depth(w.iteration), c.life, 0
  {
    if branch {
      GenerateCave(dim, rng, geo, w.variationScale, c.pos, w.iteration + 1, w.maxDelta * 0.8);
    }
  }

  /** The draws of a step that carved something: the new heading, size and
      variation, then whether to branch. */
  method Advance(rng: Random, geo: Geometry, w: Walk, c: Cursor) returns (next: Cursor, branch: bool)
    modifies rng`count
    ensures next == NextCursor(geo, w, rng.draw, old(rng.count), c)
    ensures branch == Branches(w, rng.draw(old(rng.count) + 5)) && rng.count == old(rng.count) + 6
  {
    var nd := RandomVector(rng, geo, true);
    var direction := Turn(geo, c.dir, geo.yWeights(c.pos.y, nd), c.variation);
    var sd := rng.NextDouble();
    var vd := rng.NextDouble();
    var b := rng.NextDouble();
    branch := Branches(w, b);
    next := Cursor(Plus(c.pos, direction), direction, NextSize(c.size, sd, w.delta),
                   NextVariation(c.variation, vd, w.variationScale), c.life - 1);
  }

  // ---------------------------------------------------------------------
  // Carving keeps the world's bedrock, liquids and air

  /** Every cell of `m'` holds what it held in `m`, or holds what carving
      the cell leaves, and then held in `m` a block a surface-breaking
      carver may remove. */
  ghost predicate OnlyCarves(env: Env, m: map<Coord, Block>, m': map<Coord, Block>)
  {
    forall c :: Get(m', c) == Get(m, c) || (Carvable(env, m, c, true) && Get(m', c) == Some(Carved(c)))
  }

  lemma OnlyCarvesTrans(env: Env, m1: map<Coord, Block>, m2: map<Coord, Block>, m3: map<Coord, Block>)
    requires OnlyCarves(env, m1, m2) && OnlyCarves(env, m2, m3)
    ensures OnlyCarves(env, m1, m3)
  {
    forall c ensures Get(m3, c) == Get(m1, c) || (Carvable(env, m1, c, true) && Get(m3, c) == Some(Carved(c))) {
      if Get(m3, c) != Get(m2, c) && Get(m2, c) == Get(m1, c) {
        CarvableLocal(env, m2, m1, c, true);
      }
    }
  }

  /** A sphere only carves. */
  lemma SphereCarves(env: Env, m: map<Coord, Block>, geo: Geometry, p: Vec, r: real, allow: bool)
    ensures OnlyCarves(env, m, SphereAt(env, m, geo, p, r, allow).0)
  {
    SphereMeaning(env, m, geo, p, r, allow);
  }

  /** A whole cave, with all its branches, only carves. */
  lemma {:induction false} CaveCarves(env: Env, geo: Geometry, variationScale: real, m: map<Coord, Block>, draw: nat -> Unit,
                                      k: nat, pos: Vec, iteration: nat, maxDelta: real)
    ensures OnlyCarves(env, m, CaveAt(env, geo, variationScale, m, draw, k, pos, iteration, maxDelta).0)
    decreases Depth(iteration), 401, 3
  {
    var start := WalkStart(geo, variationScale, draw, k, pos, iteration, maxDelta);
    StepsCarves(env, geo, start.0, m, draw, k + 8, start.1);
  }

  lemma {:induction false} StepsCarves(env: Env, geo: Geometry, w: Walk, m: map<Coord, Block>, draw: nat -> Unit, k: nat, c: Cursor)
    requires c.life <= 400
    ensures OnlyCarves(env, m, StepsAt(env, geo, w, m, draw, k, c).0)
    decreases Depth(w.iteration), c.life, 2
  {
    if c.life > 0 {
      var t := StepAt(env, geo, w, m, draw, k, c);
      StepCarves(env, geo, w, m, draw, k, c);
      if t.2 {
        var n := NextCursor(geo, w, draw, k, c);
        StepsCarves(env, geo, w, t.0, draw, t.1, n);
        OnlyCarvesTrans(env, m, t.0, StepsAt(env, geo, w, t.0, draw, t.1, n).0);
      }
    }
  }

  lemma {:induction false} StepCarves(env: Env, geo: Geometry, w: Walk, m: map<Coord, Block>, draw: nat -> Unit, k: nat, c: Cursor)
    requires 0 < c.life <= 400
    ensures OnlyCarves(env, m, StepAt(env, geo, w, m, draw, k, c).0)
    decreases Depth(w.iteration), c.life, 1
  {
    var sphere := SphereAt(env, m, geo, c.pos, c.size, w.breakSurface);
    SphereCarves(env, m, geo, c.pos, c.size, w.breakSurface);
    if sphere.1 {
      BranchCarves(env, geo, w, sphere.0, draw, k, c);
      OnlyCarvesTrans(env, m, sphere.0, BranchAt(env, geo, w, sphere.0, draw, k, c).0);
    }
  }

  lemma {:induction false} BranchCarves(env: Env, geo: Geometry, w: Walk, m: map<Coord, Block>, draw: nat -> Unit, k: nat, c: Cursor)
    requires 0 < c.life <= 400
    ensures OnlyCarves(env, m, BranchAt(env, geo, w, m, draw, k, c).0)
    decreases Depth(w.iteration), c.life, 0
  {
    if Branches(w, draw(k + 5)) {
      CaveCarves(env, geo, w.variationScale, m, draw, k + 6, c.pos, w.iteration + 1, w.maxDelta * 0.8);
    }
  }

  // ---------------------------------------------------------------------
  // The cave carver's column

  datatype Distribution = Equal | FavorBottom | FavorTop

  /** The cave carver's settings; `scale` is read but not used. */
  datatype CaveCfg = CaveCfg(amount: real, distribution: Distribution, yMin: int, yMax: int, scale: real, variationScale: real)

  /** The `distribution` setting: "equal", "bottom" or "top" in any case;
      any other text keeps the default. */
  function DistributionOf(text: string): (d: Distribution)
    ensures Lower(text) == "equal" <==> d == Equal
    ensures Lower(text) == "top" <==> d == FavorTop
  {
    var v := Lower(text);
    if v == "equal" then Equal else if v == "bottom" then FavorBottom else if v == "top" then FavorTop else FavorBottom
  }

  /** The cave carver built from its element, or from none. */
  function CaveCfgOf(e: Option<Element>): (c: CaveCfg)
    ensures e.None? ==> c == CaveCfg(1.0, FavorBottom, 8, 92, 1.0, 1.0)
    ensures e.Some? ==> c.yMin == TryParseInt(e.value, "y-min", 8) && c.yMax == TryParseInt(e.value, "y-max", 92)
    ensures e.Some? && ChildText(e.value, "distribution").None? ==> c.distribution == FavorBottom
  {
    match e
    case None => CaveCfg(1.0, FavorBottom, 8, 92, 1.0, 1.0)
    case Some(x) =>
      CaveCfg(TryParseFloat(x, "amount", 1.0),
              match ChildText(x, "distribution") case Some(t) => DistributionOf(t) case None => FavorBottom,
              TryParseInt(x, "y-min", 8), TryParseInt(x, "y-max", 92),
              TryParseFloat(x, "scale", 1.0), TryParseFloat(x, "variation", 1.0))
  }

  const InvChunkArea: real := 1.0 / 256.0

  /** The chance that a cave starts in a column: the amount per chunk
      area, scaled by the column's height and by the mask. */
  function CaveChance(cfg: CaveCfg, topY: int, mask: real): real
  {
    cfg.amount * 0.15 * InvChunkArea * (topY as real * 0.016) * mask
  }

  /** The draw shaped by the distribution: squared to favour the bottom,
      its square root to favour the top. */
  function Shaped(geo: Geometry, dist: Distribution, d: Unit): real
  {
    match dist
    case FavorBottom => d * d
    case FavorTop => geo.sqrt(d)
    case Equal => d
  }

  /** The height a cave starts at. */
  function StartY(geo: Geometry, cfg: CaveCfg, d: Unit): int
  {
    Truncate(Lerp(cfg.yMin as real, cfg.yMax as real, Shaped(geo, cfg.distribution, d)))
  }

  /** Caves start within the configured range (for the top-favouring
      distribution, given a square root that maps the unit interval into
      itself). */
  lemma StartYInRange(geo: Geometry, cfg: CaveCfg, d: Unit)
    requires cfg.yMin <= cfg.yMax
    requires cfg.distribution == FavorTop ==> 0.0 <= geo.sqrt(d) <= 1.0
    ensures cfg.yMin <= StartY(geo, cfg, d) <= cfg.yMax
  {
    var t := Shaped(geo, cfg.distribution, d);
    if cfg.distribution == FavorBottom {
      ScaleWithin(d, d);
    }
    LerpWithin(cfg.yMin as real, cfg.yMax as real, t);
    var v := Lerp(cfg.yMin as real, cfg.yMax as real, t);
    TruncateWithin(v, cfg.yMin, cfg.yMax);
  }

  /** Interpolation between two bounds stays between them. */
  lemma LerpWithin(a: real, b: real, t: real)
    requires a <= b && 0.0 <= t <= 1.0
    ensures a <= Lerp(a, b, t) <= b
  {
    var d := b - a;
    ScaleWithin(d, t);
    assert Lerp(a, b, t) == a + d * t;
  }

  /** Scaling by a factor in the unit interval. */
  lemma ScaleWithin(x: real, t: real)
    requires 0.0 <= x && 0.0 <= t <= 1.0
    ensures 0.0 <= x * t <= x
  {
  }

  /** Truncation keeps a value between two integers between them. */
  lemma TruncateWithin(v: real, lo: int, hi: int)
    requires lo as real <= v <= hi as real
    ensures lo <= Truncate(v) <= hi
  {
    if v < 0.0 {
      assert (-v).Floor as real <= -v;
      assert -((-v).Floor) >= lo;
    }
  }

  /** `CaveCarver.ProcessBlockColumn`: the chance draw; a start height
      drawn from the distribution; no cave when that is above the column's
      top; otherwise a cave walk from there at depth 0 with delta bound 1. */
  function CaveColumnAt(env: Env, geo: Geometry, cfg: CaveCfg, m: map<Coord, Block>, draw: nat -> Unit, k: nat,
                        x: int, topY: int, z: int, mask: real): (map<Coord, Block>, nat)
  {
    if draw(k) > CaveChance(cfg, topY, mask) then (m, k + 1)
    else
      var y := StartY(geo, cfg, draw(k + 1));
      if y > topY then (m, k + 2)
      else CaveAt(env, geo, cfg.variationScale, m, draw, k + 2, Vec(x as real, y as real, z as real), 0, 1.0)
  }

  /** A cave column only carves. */
  lemma CaveColumnCarves(env: Env, geo: Geometry, cfg: CaveCfg, m: map<Coord, Block>, draw: nat -> Unit, k: nat,
                         x: int, topY: int, z: int, mask: real)
    ensures OnlyCarves(env, m, CaveColumnAt(env, geo, cfg, m, draw, k, x, topY, z, mask).0)
  {
    if draw(k) <= CaveChance(cfg, topY, mask) {
      var y := StartY(geo, cfg, draw(k + 1));
      if y <= topY {
        CaveCarves(env, geo, cfg.variationScale, m, draw, k + 2, Vec(x as real, y as real, z as real), 0, 1.0);
      }
    }
  }

  method CaveColumn(dim: Dimension, rng: Random, geo: Geometry, cfg: CaveCfg, x: int, topY: int, z: int, mask: real)
    modifies dim`blocks, rng`count
    ensures (dim.blocks, rng.count) == CaveColumnAt(dim.env, geo, cfg, old(dim.blocks), rng.draw, old(rng.count), x, topY, z, mask)
  {
    var d := rng.NextDouble();
    if d <= CaveChance(cfg, topY, mask) {
      var y := StartHeight(rng, geo, cfg);
      if y > topY {
        return;
      }
      GenerateCave(dim, rng, geo, cfg.variationScale, Vec(x as real, y as real, z as real), 0, 1.0);
    }
  }

  /** The start height's draw, shaped by the distribution. */
  method StartHeight(rng: Random, geo: Geometry, cfg: CaveCfg) returns (y: int)
    modifies rng`count
    ensures y == StartY(geo, cfg, rng.draw(old(rng.count))) && rng.count == old(rng.count) + 1
  {
    ghost var k := rng.count;
    var r := rng.NextDouble();
    assert r == rng.draw(k);
    var t: real;
    match cfg.distribution {
      case FavorBottom => t := (r as real) * (r as real);
      case FavorTop => t := geo.sqrt(r);
      case Equal => t := r as real;
    }
    assert t == Shaped(geo, cfg.distribution, r);
    y := Truncate(Lerp(cfg.yMin as real, cfg.yMax as real, t));
  }

  // ---------------------------------------------------------------------
  // The cavern carver's column

  /** The cavern carver's settings, with the center height resolved. */
  datatype CavernCfg = CavernCfg(yMin: int, yMax: int, center: int, threshold: real, scaleXZ: real, scaleY: real, noiseScale: real)

  /** The center value that stands for "not configured". */
  const UnsetCenter: int := -999

  /** The cavern carver built from its element, or from none: an unset
      center becomes the height three tenths of the way up the range. */
  function CavernCfgOf(e: Option<Element>): (c: CavernCfg)
    ensures e.None? ==> c == CavernCfg(4, 32, 12, 0.68, 1.0, 1.0, 1.0)
    ensures e.Some? ==> c.yMin == TryParseInt(e.value, "y-min", 4) && c.yMax == TryParseInt(e.value, "y-max", 32)
    ensures e.Some? && TryParseInt(e.value, "center", UnsetCenter) != UnsetCenter ==> c.center == TryParseInt(e.value, "center", UnsetCenter)
    ensures e.Some? && TryParseInt(e.value, "center", UnsetCenter) == UnsetCenter ==>
              c.center == Truncate(Lerp(c.yMin as real, c.yMax as real, 0.3))
  {
    match e
    case None =>
      assert Truncate(Lerp(4.0, 32.0, 0.3)) == 12;
      CavernCfg(4, 32, 12, 0.68, 1.0, 1.0, 1.0)
    case Some(x) =>
      var yMin, yMax := TryParseInt(x, "y-min", 4), TryParseInt(x, "y-max", 32);
      var center := TryParseInt(x, "center", UnsetCenter);
      CavernCfg(yMin, yMax, if center == UnsetCenter then Truncate(Lerp(yMin as real, yMax as real, 0.3)) else center,
                TryParseFloat(x, "threshold", 0.68), TryParseFloat(x, "scale-xz", 1.0), TryParseFloat(x, "scale-y", 1.0),
                TryParseFloat(x, "noise", 1.0))
  }

  /** The cavern noise at a cell, remapped by 2 (p - 0.5) + 0.5. */
  function CavernNoise(geo: Geometry, cfg: CavernCfg, x: int, y: int, z: int): real
  {
    2.0 * (geo.noise(cfg.scaleXZ, cfg.scaleY, cfg.noiseScale, x, y, z) - 0.5) + 0.5
  }

  /** One half of the vertical window, between the center and a bound:
      no number when the bound is the center. */
  function HalfWindow(geo: Geometry, offset: int, span: int): Option<real>
  {
    if span == 0 then None else geo.window(offset as real * 3.14 / span as real * 0.5)
  }

  /** The vertical window at a height: spanning down to yMin below the
      center, up to yMax from it on. */
  function Window(geo: Geometry, cfg: CavernCfg, y: int): Option<real>
  {
    if y < cfg.center then HalfWindow(geo, y - cfg.center, cfg.center - cfg.yMin)
    else HalfWindow(geo, y - cfg.center, cfg.center - cfg.yMax)
  }

  function Strength(noise: real, window: real, mask: real): real { noise * window * mask }

  /** Whether the cavern opens at a cell: the noise times the window times
      the mask exceeds the threshold; a window that is not a number never
      opens. */
  predicate Opens(geo: Geometry, cfg: CavernCfg, x: int, y: int, z: int, mask: real)
  {
    match Window(geo, cfg, y)
    case None => false
    case Some(hw) => Strength(CavernNoise(geo, cfg, x, y, z), hw, mask) > cfg.threshold
  }

  /** The column's loop from height y up to `top`. */
  function CavernFrom(env: Env, geo: Geometry, cfg: CavernCfg, m: map<Coord, Block>, x: int, z: int, mask: real, y: int, top: int)
    : map<Coord, Block>
    decreases top - y + 1
  {
    if y > top then m
    else
      var m' := if Opens(geo, cfg, x, y, z, mask) then CarveAt(env, m, (x, y, z), true).0 else m;
      CavernFrom(env, geo, cfg, m', x, z, mask, y + 1, top)
  }

  /** `CavernCarver.ProcessBlockColumn`: from yMin up to yMax or the
      column's top, whichever is lower, carving (surface included) where
      the cavern opens. It draws nothing. */
  function CavernColumnAt(env: Env, geo: Geometry, cfg: CavernCfg, m: map<Coord, Block>, x: int, topY: int, z: int, mask: real)
    : map<Coord, Block>
  {
    CavernFrom(env, geo, cfg, m, x, z, mask, cfg.yMin, Min(cfg.yMax, topY))
  }

  lemma {:induction false} CavernFromCell(env: Env, geo: Geometry, cfg: CavernCfg, m: map<Coord, Block>, x: int, z: int, mask: real,
                                          y: int, top: int, c: Coord)
    ensures Get(CavernFrom(env, geo, cfg, m, x, z, mask, y, top), c) ==
            if c.0 == x && c.2 == z && y <= c.1 <= top && Opens(geo, cfg, x, c.1, z, mask) && Carvable(env, m, c, true)
            then Some(Carved(c)) else Get(m, c)
    decreases top - y + 1
  {
    if y <= top {
      var m' := if Opens(geo, cfg, x, y, z, mask) then CarveAt(env, m, (x, y, z), true).0 else m;
      CavernFromCell(env, geo, cfg, m', x, z, mask, y + 1, top, c);
      if c != (x, y, z) {
        CarvableLocal(env, m, m', c, true);
      }
    }
  }

  /** A cavern column carves exactly the carvable cells of the column's
      range where the cavern opens. */
  lemma CavernColumnMeaning(env: Env, geo: Geometry, cfg: CavernCfg, m: map<Coord, Block>, x: int, topY: int, z: int, mask: real)
    ensures var m' := CavernColumnAt(env, geo, cfg, m, x, topY, z, mask);
            forall c :: Get(m', c) ==
                        if c.0 == x && c.2 == z && cfg.yMin <= c.1 <= cfg.yMax && c.1 <= topY &&
                           Opens(geo, cfg, x, c.1, z, mask) && Carvable(env, m, c, true)
                        then Some(Carved(c)) else Get(m, c)
  {
    forall c {
      CavernFromCell(env, geo, cfg, m, x, z, mask, cfg.yMin, Min(cfg.yMax, topY), c);
    }
  }

  /** A cavern column only carves. */
  lemma CavernColumnCarves(env: Env, geo: Geometry, cfg: CavernCfg, m: map<Coord, Block>, x: int, topY: int, z: int, mask: real)
    ensures OnlyCarves(env, m, CavernColumnAt(env, geo, cfg, m, x, topY, z, mask))
  {
    CavernColumnMeaning(env, geo, cfg, m, x, topY, z, mask);
  }

  method CavernColumn(dim: Dimension, geo: Geometry, cfg: CavernCfg, x: int, topY: int, z: int, mask: real)
    modifies dim`blocks
    ensures dim.blocks == CavernColumnAt(dim.env, geo, cfg, old(dim.blocks), x, topY, z, mask)
  {
    var y := cfg.yMin;
    while y <= Min(cfg.yMax, topY)
      invariant CavernFrom(dim.env, geo, cfg, dim.blocks, x, z, mask, y, Min(cfg.yMax, topY)) ==
                CavernColumnAt(dim.env, geo, cfg, old(dim.blocks), x, topY, z, mask)
      decreases Min(cfg.yMax, topY) - y + 1
    {
      var perlin := geo.noise(cfg.scaleXZ, cfg.scaleY, cfg.noiseScale, x, y, z);
      perlin := 2.0 * (perlin - 0.5) + 0.5;
      var hw;
      if y < cfg.center {
        hw := HalfWindow(geo, y - cfg.center, cfg.center - cfg.yMin);
      } else {
        hw := HalfWindow(geo, y - cfg.center, cfg.center - cfg.yMax);
      }
      if hw.Some? && Strength(perlin, hw.value, mask) > cfg.threshold {
        var _ := CarveBlock(dim, (x, y, z), true);
      }
      y := y + 1;
    }
  }

  // ---------------------------------------------------------------------
  // The spring carver's column

  datatype SpringCfg = SpringCfg(yMin: int, yMax: int, amount: real, lava: bool)

  /** The spring carver built from its element, or from none. */
  function SpringCfgOf(e: Option<Element>): (c: SpringCfg)
    ensures e.None? ==> c == SpringCfg(10, 80, 1.0, false)
    ensures e.Some? ==> c == SpringCfg(TryParseInt(e.value, "y-min", 10), TryParseInt(e.value, "y-max", 80),
                                       TryParseFloat(e.value, "amount", 1.0), TryParseBool(e.value, "lava", false))
  {
    match e
    case None => SpringCfg(10, 80, 1.0, false)
    case Some(x) =>
      SpringCfg(TryParseInt(x, "y-min", 10), TryParseInt(x, "y-max", 80), TryParseFloat(x, "amount", 1.0), TryParseBool(x, "lava", false))
  }

  function SpringBlock(cfg: SpringCfg): Block { if cfg.lava then Lava else SpringWater }

  /** How many of the four horizontal neighbours hold air. */
  function OpenSides(env: Env, m: map<Coord, Block>, c: Coord): (n: nat)
    ensures n <= 4
  {
    (if IsAirNotNull(env, m, Left(c)) then 1 else 0) + (if IsAirNotNull(env, m, Right(c)) then 1 else 0) +
    (if IsAirNotNull(env, m, Back(c)) then 1 else 0) + (if IsAirNotNull(env, m, Forward(c)) then 1 else 0)
  }

  /** `CanGenerateSpring`: a default block with one or two open sides and
      solid blocks above and below. */
  predicate CanSpring(env: Env, m: map<Coord, Block>, c: Coord)
  {
    IsDefaultBlock(env, m, c) && 1 <= OpenSides(env, m, c) <= 2 && !IsAirOrNull(env, m, Above(c)) && !IsAirOrNull(env, m, Below(c))
  }

  /** What a column of the cave generator leaves: the world, the cells
      marked for a tick update, the draw count, and false once an
      exception has been raised. */
  datatype Outcome = Outcome(blocks: map<Coord, Block>, ticks: set<Coord>, count: nat, ok: bool)

  /** `TryGenerateSpring` at a cell. */
  function SpringAt(env: Env, cfg: SpringCfg, m: map<Coord, Block>, ticks: set<Coord>, k: nat, c: Coord): (o: Outcome)
    ensures o.ok && o.count == k
    ensures !CanSpring(env, m, c) ==> o == Outcome(m, ticks, k, true)
    ensures CanSpring(env, m, c) ==> o.blocks == m[c := SpringBlock(cfg)] && o.ticks == ticks + {c}
  {
    if CanSpring(env, m, c) then
      Outcome(m[c := SpringBlock(cfg)], ticks + {c}, k, true)
    else Outcome(m, ticks, k, true)
  }

  /** `SpringCarver.ProcessBlockColumn` AS WRITTEN: after the chance draw,
      a height is drawn (`Random.Next(yMin, yMax)`, which raises when yMin
      exceeds yMax) and only compared with the column's top; the spring is
      then tried at the top cell itself. */
  function SpringColumnAsWritten(env: Env, cfg: SpringCfg, m: map<Coord, Block>, ticks: set<Coord>, draw: nat -> Unit, k: nat,
                                 x: int, topY: int, z: int, mask: real): Outcome
  {
    if draw(k) > cfg.amount * 0.08 * mask then Outcome(m, ticks, k + 1, true)
    else if cfg.yMin > cfg.yMax then Outcome(m, ticks, k + 1, false)
    else if NextInt(draw(k + 1), cfg.yMin, cfg.yMax) > topY then Outcome(m, ticks, k + 2, true)
    else SpringAt(env, cfg, m, ticks, k + 2, (x, topY, z))
  }

  /** The spring as written fails exactly when the height cannot be drawn;
      otherwise it is tried at the top cell when the drawn height is at most
      the top and not at all when it lies above, so it changes at most the
      top cell. */
  lemma {:induction false} SpringColumnAsWrittenMeaning(env: Env, cfg: SpringCfg, m: map<Coord, Block>, ticks: set<Coord>,
                                                        draw: nat -> Unit, k: nat, x: int, topY: int, z: int, mask: real)
    ensures var o := SpringColumnAsWritten(env, cfg, m, ticks, draw, k, x, topY, z, mask);
            (o.blocks == m && o.ticks == ticks) ||
            (CanSpring(env, m, (x, topY, z)) && o.blocks == m[(x, topY, z) := SpringBlock(cfg)] && o.ticks == ticks + {(x, topY, z)})
    ensures var o := SpringColumnAsWritten(env, cfg, m, ticks, draw, k, x, topY, z, mask);
            !o.ok <==> draw(k) <= cfg.amount * 0.08 * mask && cfg.yMin > cfg.yMax
    ensures draw(k) <= cfg.amount * 0.08 * mask && cfg.yMin <= cfg.yMax ==>
              var o := SpringColumnAsWritten(env, cfg, m, ticks, draw, k, x, topY, z, mask);
              if NextInt(draw(k + 1), cfg.yMin, cfg.yMax) > topY then o == Outcome(m, ticks, k + 2, true)
              else o == SpringAt(env, cfg, m, ticks, k + 2, (x, topY, z))
  {
  }

  /** The top cell of a column normally has nothing solid above it, and
      there the spring as written is never placed, whatever the draws. */
  lemma SpringAtTopNeverPlaced(env: Env, cfg: SpringCfg, m: map<Coord, Block>, ticks: set<Coord>, draw: nat -> Unit, k: nat,
                               x: int, topY: int, z: int, mask: real)
    requires IsAirOrNull(env, m, (x, topY + 1, z))
    ensures var o := SpringColumnAsWritten(env, cfg, m, ticks, draw, k, x, topY, z, mask); o.blocks == m && o.ticks == ticks
  {
    assert Above((x, topY, z)) == (x, topY + 1, z);
  }

  /** The spring column as intended, used by the model: the spring is
      tried at the drawn height. */
  function SpringColumnAt(env: Env, cfg: SpringCfg, m: map<Coord, Block>, ticks: set<Coord>, draw: nat -> Unit, k: nat,
                          x: int, topY: int, z: int, mask: real): (o: Outcome)
    ensures !o.ok <==> draw(k) <= cfg.amount * 0.08 * mask && cfg.yMin > cfg.yMax
  {
    if draw(k) > cfg.amount * 0.08 * mask then Outcome(m, ticks, k + 1, true)
    else if cfg.yMin > cfg.yMax then Outcome(m, ticks, k + 1, false)
    else
      var y := NextInt(draw(k + 1), cfg.yMin, cfg.yMax);
      if y > topY then Outcome(m, ticks, k + 2, true)
      else SpringAt(env, cfg, m, ticks, k + 2, (x, y, z))
  }

  /** A spring column changes at most one cell, at a height within the
      configured range and at most the column's top: a default block that
      becomes the spring block and is marked for a tick update. */
  lemma SpringColumnMeaning(env: Env, cfg: SpringCfg, m: map<Coord, Block>, ticks: set<Coord>, draw: nat -> Unit, k: nat,
                            x: int, topY: int, z: int, mask: real)
    ensures var o := SpringColumnAt(env, cfg, m, ticks, draw, k, x, topY, z, mask);
            (o.blocks == m && o.ticks == ticks) ||
            exists y :: cfg.yMin <= y <= cfg.yMax && y <= topY && CanSpring(env, m, (x, y, z)) &&
                        o.blocks == m[(x, y, z) := SpringBlock(cfg)] && o.ticks == ticks + {(x, y, z)}
  {
    var o := SpringColumnAt(env, cfg, m, ticks, draw, k, x, topY, z, mask);
    if draw(k) <= cfg.amount * 0.08 * mask && cfg.yMin <= cfg.yMax {
      var y := NextInt(draw(k + 1), cfg.yMin, cfg.yMax);
      if y <= topY && CanSpring(env, m, (x, y, z)) {
        assert cfg.yMin <= y <= cfg.yMax && o.blocks == m[(x, y, z) := SpringBlock(cfg)];
      }
    }
  }

  /** The two differ on a column whose drawn height holds a spring site
      while its top cell has nothing above it: the column from height 9 to
      20 at x = z = 0, with air to the west of height 10. */
  lemma SpringPlacedBelowTop()
    ensures var env := Env({"minecraft:air"}, {}, {}, {}, {}, "minecraft:stone", (m, x, z) => 0);
            var stone, air := Named("minecraft:stone"), Named("minecraft:air");
            var m := map[(0, 9, 0) := stone, (0, 10, 0) := stone, (0, 11, 0) := stone, (-1, 10, 0) := air, (0, 20, 0) := stone];
            var cfg := SpringCfg(10, 80, 1.0, false);
            SpringColumnAsWritten(env, cfg, m, {}, n => 0.0, 0, 0, 20, 0, 1.0).blocks == m &&
            SpringColumnAt(env, cfg, m, {}, n => 0.0, 0, 0, 20, 0, 1.0).blocks == m[(0, 10, 0) := SpringWater]
  {
    var env := Env({"minecraft:air"}, {}, {}, {}, {}, "minecraft:stone", (m, x, z) => 0);
    var stone, air := Named("minecraft:stone"), Named("minecraft:air");
    var m := map[(0, 9, 0) := stone, (0, 10, 0) := stone, (0, 11, 0) := stone, (-1, 10, 0) := air, (0, 20, 0) := stone];
    assert NextInt(0.0, 10, 80) == 10;
    assert OpenSides(env, m, (0, 10, 0)) == 1;
    assert CanSpring(env, m, (0, 10, 0));
    SpringAtTopNeverPlaced(env, SpringCfg(10, 80, 1.0, false), m, {}, n => 0.0, 0, 0, 20, 0, 1.0);
  }

  method SpringColumn(dim: Dimension, rng: Random, cfg: SpringCfg, x: int, topY: int, z: int, mask: real) returns (ok: bool)
    modifies dim`blocks, dim`ticks, rng`count
    ensures Outcome(dim.blocks, dim.ticks, rng.count, ok) ==
            SpringColumnAt(dim.env, cfg, old(dim.blocks), old(dim.ticks), rng.draw, old(rng.count), x, topY, z, mask)
  {
    ok := true;
    var d := rng.NextDouble();
    if d <= cfg.amount * 0.08 * mask {
      if cfg.yMin > cfg.yMax {
        return false;
      }
      var y := rng.Next(cfg.yMin, cfg.yMax);
      if y > topY {
        return;
      }
      TryGenerateSpring(dim, (x, y, z), SpringBlock(cfg));
    }
  }

  method TryGenerateSpring(dim: Dimension, c: Coord, b: Block)
    modifies dim`blocks, dim`ticks
    ensures CanSpring(dim.env, old(dim.blocks), c) ==> dim.blocks == old(dim.blocks)[c := b] && dim.ticks == old(dim.ticks) + {c}
    ensures !CanSpring(dim.env, old(dim.blocks), c) ==> dim.blocks == old(dim.blocks) && dim.ticks == old(dim.ticks)
  {
    var can := CanGenerateSpring(dim, c);
    if can {
      dim.SetBlock(c, b);
      dim.MarkForTickUpdate(c);
    }
  }

  method CanGenerateSpring(dim: Dimension, c: Coord) returns (can: bool)
    ensures can == CanSpring(dim.env, dim.blocks, c)
  {
    if !IsDefaultBlock(dim.env, dim.blocks, c) {
      return false;
    }
    var openSides := 0;
    if IsAirNotNull(dim.env, dim.blocks, Left(c)) { openSides := openSides + 1; }
    if IsAirNotNull(dim.env, dim.blocks, Right(c)) { openSides := openSides + 1; }
    if IsAirNotNull(dim.env, dim.blocks, Back(c)) { openSides := openSides + 1; }
    if IsAirNotNull(dim.env, dim.blocks, Forward(c)) { openSides := openSides + 1; }
    can := 1 <= openSides <= 2 && !IsAirOrNull(dim.env, dim.blocks, Above(c)) && !IsAirOrNull(dim.env, dim.blocks, Below(c));
  }

  // ---------------------------------------------------------------------
  // Layers of carvers

  /** The three carver kinds, each with its settings. */
  datatype Carver = Cave(cave: CaveCfg) | Cavern(cavern: CavernCfg) | Spring(spring: SpringCfg)

  /** One carver's column. */
  function CarverAt(env: Env, geo: Geometry, cv: Carver, m: map<Coord, Block>, ticks: set<Coord>, draw: nat -> Unit, k: nat,
                    x: int, topY: int, z: int, mask: real): Outcome
  {
    match cv
    case Cave(cfg) =>
      var r := CaveColumnAt(env, geo, cfg, m, draw, k, x, topY, z, mask);
      Outcome(r.0, ticks, r.1, true)
    case Cavern(cfg) => Outcome(CavernColumnAt(env, geo, cfg, m, x, topY, z, mask), ticks, k, true)
    case Spring(cfg) => SpringColumnAt(env, cfg, m, ticks, draw, k, x, topY, z, mask)
  }

  /** `CaveGenLayer.ProcessBlockColumn`: the carvers in order; an
      exception ends the column. */
  function CarversAt(env: Env, geo: Geometry, cs: seq<Carver>, m: map<Coord, Block>, ticks: set<Coord>, draw: nat -> Unit, k: nat,
                     x: int, topY: int, z: int, mask: real): Outcome
    decreases |cs|
  {
    if cs == [] then Outcome(m, ticks, k, true)
    else
      var o := CarverAt(env, geo, cs[0], m, ticks, draw, k, x, topY, z, mask);
      if !o.ok then o else CarversAt(env, geo, cs[1..], o.blocks, o.ticks, draw, o.count, x, topY, z, mask)
  }

  /** Only a spring carver whose range is reversed raises. */
  lemma {:induction false} CarversOk(env: Env, geo: Geometry, cs: seq<Carver>, m: map<Coord, Block>, ticks: set<Coord>,
                                     draw: nat -> Unit, k: nat, x: int, topY: int, z: int, mask: real)
    requires forall i :: 0 <= i < |cs| && cs[i].Spring? ==> cs[i].spring.yMin <= cs[i].spring.yMax
    ensures CarversAt(env, geo, cs, m, ticks, draw, k, x, topY, z, mask).ok
    decreases |cs|
  {
    if cs != [] {
      var o := CarverAt(env, geo, cs[0], m, ticks, draw, k, x, topY, z, mask);
      assert forall i :: 0 <= i < |cs[1..]| ==> cs[1..][i] == cs[i + 1];
      CarversOk(env, geo, cs[1..], o.blocks, o.ticks, draw, o.count, x, topY, z, mask);
    }
  }

  /** Every bedrock cell of `m` is still bedrock in `m'`. */
  ghost predicate KeepsBedrock(m: map<Coord, Block>, m': map<Coord, Block>)
  {
    forall c :: c in m && m[c].id == Bedrock ==> c in m' && m'[c] == m[c]
  }

  lemma OnlyCarvesKeepsBedrock(env: Env, m: map<Coord, Block>, m': map<Coord, Block>)
    requires OnlyCarves(env, m, m')
    ensures KeepsBedrock(m, m')
  {
    forall c | c in m && m[c].id == Bedrock ensures c in m' && m'[c] == m[c] {
      assert Get(m', c) == Get(m, c);
    }
  }

  /** No carver removes bedrock, as long as bedrock is not the default
      block springs replace. */
  lemma CarverKeepsBedrock(env: Env, geo: Geometry, cv: Carver, m: map<Coord, Block>, ticks: set<Coord>, draw: nat -> Unit, k: nat,
                           x: int, topY: int, z: int, mask: real)
    requires env.defaultBlock != Bedrock
    ensures KeepsBedrock(m, CarverAt(env, geo, cv, m, ticks, draw, k, x, topY, z, mask).blocks)
  {
    match cv
    case Cave(cfg) =>
      CaveColumnCarves(env, geo, cfg, m, draw, k, x, topY, z, mask);
      OnlyCarvesKeepsBedrock(env, m, CaveColumnAt(env, geo, cfg, m, draw, k, x, topY, z, mask).0);
    case Cavern(cfg) =>
      CavernColumnCarves(env, geo, cfg, m, x, topY, z, mask);
      OnlyCarvesKeepsBedrock(env, m, CavernColumnAt(env, geo, cfg, m, x, topY, z, mask));
    case Spring(cfg) =>
      SpringColumnMeaning(env, cfg, m, ticks, draw, k, x, topY, z, mask);
  }

  lemma {:induction false} CarversKeepBedrock(env: Env, geo: Geometry, cs: seq<Carver>, m: map<Coord, Block>, ticks: set<Coord>,
                                              draw: nat -> Unit, k: nat, x: int, topY: int, z: int, mask: real)
    requires env.defaultBlock != Bedrock
    ensures KeepsBedrock(m, CarversAt(env, geo, cs, m, ticks, draw, k, x, topY, z, mask).blocks)
    decreases |cs|
  {
    if cs != [] {
      var o := CarverAt(env, geo, cs[0], m, ticks, draw, k, x, topY, z, mask);
      CarverKeepsBedrock(env, geo, cs[0], m, ticks, draw, k, x, topY, z, mask);
      if o.ok {
        CarversKeepBedrock(env, geo, cs[1..], o.blocks, o.ticks, draw, o.count, x, topY, z, mask);
      }
    }
  }

  /** A layer: its weightmap key and its carvers. */
  type LayerState = (int, seq<Carver>)

  /** One layer of the dispatch: its carvers when its mask exceeds the
      threshold, nothing otherwise. */
  function LayerAt(env: Env, geo: Geometry, l: LayerState, wm: Option<PP.Weightmap>, mask: real, m: map<Coord, Block>,
                   ticks: set<Coord>, draw: nat -> Unit, k: nat, x: int, topY: int, z: int): Outcome
  {
    var lm := PP.LayerMask(l.0, mask, wm, x, z);
    if lm > PP.LayerThreshold then CarversAt(env, geo, l.1, m, ticks, draw, k, x, topY, z, lm) else Outcome(m, ticks, k, true)
  }

  /** `ProcessSplatmapLayersSurface` over the cave layers. */
  function LayersAt(env: Env, geo: Geometry, ls: seq<LayerState>, wm: Option<PP.Weightmap>, mask: real, m: map<Coord, Block>,
                    ticks: set<Coord>, draw: nat -> Unit, k: nat, x: int, topY: int, z: int): Outcome
    decreases |ls|
  {
    if ls == [] then Outcome(m, ticks, k, true)
    else
      var o := LayerAt(env, geo, ls[0], wm, mask, m, ticks, draw, k, x, topY, z);
      if !o.ok then o else LayersAt(env, geo, ls[1..], wm, mask, o.blocks, o.ticks, draw, o.count, x, topY, z)
  }

  /** The whole cave generator never removes bedrock. */
  lemma {:induction false} LayersKeepBedrock(env: Env, geo: Geometry, ls: seq<LayerState>, wm: Option<PP.Weightmap>, mask: real,
                                             m: map<Coord, Block>, ticks: set<Coord>, draw: nat -> Unit, k: nat,
                                             x: int, topY: int, z: int)
    requires env.defaultBlock != Bedrock
    ensures KeepsBedrock(m, LayersAt(env, geo, ls, wm, mask, m, ticks, draw, k, x, topY, z).blocks)
    decreases |ls|
  {
    if ls != [] {
      var o := LayerAt(env, geo, ls[0], wm, mask, m, ticks, draw, k, x, topY, z);
      var lm := PP.LayerMask(ls[0].0, mask, wm, x, z);
      if lm > PP.LayerThreshold {
        CarversKeepBedrock(env, geo, ls[0].1, m, ticks, draw, k, x, topY, z, lm);
      }
      if o.ok {
        LayersKeepBedrock(env, geo, ls[1..], wm, mask, o.blocks, o.ticks, draw, o.count, x, topY, z);
      }
    }
  }

  /** One carver's column on the dimension. */
  method RunCarver(dim: Dimension, rng: Random, geo: Geometry, cv: Carver, x: int, topY: int, z: int, mask: real) returns (ok: bool)
    modifies dim`blocks, dim`ticks, rng`count
    ensures Outcome(dim.blocks, dim.ticks, rng.count, ok) ==
            CarverAt(dim.env, geo, cv, old(dim.blocks), old(dim.ticks), rng.draw, old(rng.count), x, topY, z, mask)
  {
    ok := true;
    match cv
    case Cave(cfg) => CaveColumn(dim, rng, geo, cfg, x, topY, z, mask);
    case Cavern(cfg) => CavernColumn(dim, geo, cfg, x, topY, z, mask);
    case Spring(cfg) => ok := SpringColumn(dim, rng, cfg, x, topY, z, mask);
  }

  class CaveGenLayer {
    var carvers: seq<Carver>

    constructor ()
      ensures carvers == []
    {
      carvers := [];
    }

    method Add(c: Carver)
      modifies this`carvers
      ensures carvers == old(carvers) + [c]
    {
      carvers := carvers + [c];
    }

    /** `ProcessBlockColumn`: every carver in list order, until one raises. */
    method ProcessBlockColumn(dim: Dimension, rng: Random, geo: Geometry, x: int, topY: int, z: int, mask: real) returns (ok: bool)
      modifies dim`blocks, dim`ticks, rng`count
      ensures Outcome(dim.blocks, dim.ticks, rng.count, ok) ==
              CarversAt(dim.env, geo, carvers, old(dim.blocks), old(dim.ticks), rng.draw, old(rng.count), x, topY, z, mask)
    {
      var cs := carvers;
      var i := 0;
      while i < |cs|
        invariant 0 <= i <= |cs|
        invariant CarversAt(dim.env, geo, cs[i..], dim.blocks, dim.ticks, rng.draw, rng.count, x, topY, z, mask) ==
                  CarversAt(dim.env, geo, cs, old(dim.blocks), old(dim.ticks), rng.draw, old(rng.count), x, topY, z, mask)
      {
        assert cs[i..][0] == cs[i] && cs[i..][1..] == cs[i + 1..];
        ok := RunCarver(dim, rng, geo, cs[i], x, topY, z, mask);
        if !ok {
          return;
        }
        i := i + 1;
      }
      assert cs[i..] == [];
      ok := true;
    }
  }

  /** The layer objects of a layer list. */
  ghost function LayerObjects(ls: seq<(int, CaveGenLayer)>): set<CaveGenLayer>
  {
    set i | 0 <= i < |ls| :: ls[i].1
  }

  /** The keys and carvers of a layer list. */
  ghost function StatesOf(ls: seq<(int, CaveGenLayer)>): (r: seq<LayerState>)
    reads LayerObjects(ls)
    ensures |r| == |ls| && forall i :: 0 <= i < |ls| ==> r[i] == (ls[i].0, ls[i].1.carvers)
  {
    if ls == [] then []
    else
      assert LayerObjects(ls[1..]) <= LayerObjects(ls) by {
        forall l | l in LayerObjects(ls[1..]) ensures l in LayerObjects(ls) {
          var i :| 0 <= i < |ls[1..]| && ls[1..][i].1 == l;
          assert ls[i + 1].1 == l;
        }
      }
      [(ls[0].0, ls[0].1.carvers)] + StatesOf(ls[1..])
  }

  class CavesPostProcessor {
    /** The layer dictionary, in insertion order. */
    const layers: seq<(int, CaveGenLayer)>
    const weightmap: Option<PP.Weightmap>
    const geo: Geometry

    constructor (layers: seq<(int, CaveGenLayer)>, weightmap: Option<PP.Weightmap>, geo: Geometry)
      ensures this.layers == layers && this.weightmap == weightmap && this.geo == geo
    {
      this.layers := layers;
      this.weightmap := weightmap;
      this.geo := geo;
    }

    /** `OnProcessSurface`: every layer whose mask passes the threshold
        runs its carvers in the column below the surface cell `pos`; false
        when a carver raised. */
    method OnProcessSurface(dim: Dimension, rng: Random, pos: Coord, mask: real) returns (ok: bool)
      modifies dim`blocks, dim`ticks, rng`count
      ensures Outcome(dim.blocks, dim.ticks, rng.count, ok) ==
              LayersAt(dim.env, geo, StatesOf(layers), weightmap, mask, old(dim.blocks), old(dim.ticks), rng.draw, old(rng.count),
                       pos.0, pos.1, pos.2)
    {
      ghost var ss := StatesOf(layers);
      var i := 0;
      while i < |layers|
        invariant 0 <= i <= |layers|
        invariant LayersAt(dim.env, geo, ss[i..], weightmap, mask, dim.blocks, dim.ticks, rng.draw, rng.count, pos.0, pos.1, pos.2) ==
                  LayersAt(dim.env, geo, ss, weightmap, mask, old(dim.blocks), old(dim.ticks), rng.draw, old(rng.count),
                           pos.0, pos.1, pos.2)
      {
        assert ss[i..][0] == ss[i] && ss[i..][1..] == ss[i + 1..];
        ok := ProcessLayer(i, dim, rng, pos, mask);
        if !ok {
          assert ss == StatesOf(layers);
          return;
        }
        i := i + 1;
      }
      assert ss[i..] == [];
      assert ss == StatesOf(layers);
      ok := true;
    }

    /** One turn of the dispatch loop. */
    method ProcessLayer(i: nat, dim: Dimension, rng: Random, pos: Coord, mask: real) returns (ok: bool)
      requires i < |layers|
      modifies dim`blocks, dim`ticks, rng`count
      ensures Outcome(dim.blocks, dim.ticks, rng.count, ok) ==
              LayerAt(dim.env, geo, (layers[i].0, layers[i].1.carvers), weightmap, mask, old(dim.blocks), old(dim.ticks), rng.draw,
                      old(rng.count), pos.0, pos.1, pos.2)
    {
      var layerMask := PP.LayerMask(layers[i].0, mask, weightmap, pos.0, pos.2);
      ok := true;
      if layerMask > PP.LayerThreshold {
        ok := layers[i].1.ProcessBlockColumn(dim, rng, geo, pos.0, pos.1, pos.2, layerMask);
      }
    }
  }

  // ---------------------------------------------------------------------
  // Building the generator

  /** One child of a layer element: a carver named (in any case) caves,
      caverns or springs, built from the child; any other name raises. */
  function CarverOf(e: Element): (r: Result<Carver>)
    ensures r.Ok? <==> Lower(e.name) in {"caves", "caverns", "springs"}
  {
    var name := Lower(e.name);
    if name == "caves" then Ok(Cave(CaveCfgOf(Some(e))))
    else if name == "caverns" then Ok(Cavern(CavernCfgOf(Some(e))))
    else if name == "springs" then Ok(Spring(SpringCfgOf(Some(e))))
    else Err("ArgumentException: Unknown carver type: " + name)
  }

  /** `CreateCaveGenLayer`'s carvers: one per child, in order; the first
      child of an unknown kind raises. */
  function CarversOf(cs: seq<Element>): Result<seq<Carver>> { MapResults(cs, CarverOf, []) }

  /** A layer's carvers are its children's carvers, one for one; the
      layer fails exactly when a child is of an unknown kind. */
  lemma CarversOfMeaning(cs: seq<Element>)
    ensures CarversOf(cs).Err? <==> exists i :: 0 <= i < |cs| && CarverOf(cs[i]).Err?
    ensures CarversOf(cs).Ok? ==> |CarversOf(cs).value| == |cs| && forall i :: 0 <= i < |cs| ==> Ok(CarversOf(cs).value[i]) == CarverOf(cs[i])
  {
    MapResultsMeaning(cs, CarverOf, []);
  }

  /** The carvers of the layer used without a weightmap: a cave, a cavern
      and a water spring carver with default settings, and a lava spring
      carver at half the amount. */
  const DefaultCarvers: seq<Carver> :=
    [Cave(CaveCfgOf(None)), Cavern(CavernCfgOf(None)), Spring(SpringCfgOf(None)),
     Spring(SpringCfgOf(None).(lava := true, amount := 0.5))]

  /** A registered layer element's key and carvers. */
  function LayerOf(l: (int, Element)): (r: Result<LayerState>)
    ensures r.Err? <==> CarversOf(l.1.children).Err?
    ensures r.Ok? ==> r.value == (l.0, CarversOf(l.1.children).value)
  {
    match CarversOf(l.1.children)
    case Err(e) => Err(e)
    case Ok(c) => Ok((l.0, c))
  }

  /** The carvers of every registered layer element, in order. */
  function LayerStates(ls: seq<(int, Element)>): Result<seq<LayerState>> { MapResults(ls, LayerOf, []) }

  /** The layers are the registered layer elements' carvers, one for one,
      under the same keys; building fails exactly when a layer does. */
  lemma LayerStatesMeaning(ls: seq<(int, Element)>)
    ensures LayerStates(ls).Err? <==> exists i :: 0 <= i < |ls| && CarversOf(ls[i].1.children).Err?
    ensures LayerStates(ls).Ok? ==> |LayerStates(ls).value| == |ls| &&
                                    forall i :: 0 <= i < |ls| ==> LayerStates(ls).value[i] == (ls[i].0, CarversOf(ls[i].1.children).value)
  {
    var r := LayerStates(ls);
    MapResultsMeaning(ls, LayerOf, []);
    if r.Err? {
      var i :| 0 <= i < |ls| && LayerOf(ls[i]).Err?;
      assert CarversOf(ls[i].1.children).Err?;
    } else {
      forall i | 0 <= i < |ls|
        ensures CarversOf(ls[i].1.children).Ok? && r.value[i] == (ls[i].0, CarversOf(ls[i].1.children).value)
      {
        assert Ok(r.value[0 + i]) == LayerOf(ls[i]);
      }
    }
  }

  /** The generator's configuration: the weightmap and its layers; without
      a weightmap, the default layer under the "none" key. */
  function Config(rootPath: Option<string>, xml: Element, offX: int, offZ: int, images: map<string, PP.Image>)
    : (r: Result<(Option<PP.Weightmap>, seq<LayerState>)>)
    ensures Child(xml, "weightmap").None? ==> r == Ok((None, [(-1, DefaultCarvers)]))
  {
    match PP.WeightmapLayers(rootPath, xml, offX, offZ, images)
    case Err(e) => Err(e)
    case Ok(None) => Ok((None, [(-1, DefaultCarvers)]))
    case Ok(Some(p)) =>
      match LayerStates(p.1)
      case Err(e) => Err(e)
      case Ok(ls) => Ok((Some(p.0), ls))
  }

  /** `CreateCaveGenLayer`. */
  method CreateCaveGenLayer(elem: Element) returns (r: Result<CaveGenLayer>)
    ensures r.Ok? <==> CarversOf(elem.children).Ok?
    ensures r.Ok? ==> fresh(r.value) && r.value.carvers == CarversOf(elem.children).value
  {
    var layer := new CaveGenLayer();
    var cs := elem.children;
    var i := 0;
    while i < |cs|
      invariant 0 <= i <= |cs| && fresh(layer)
      invariant MapResults(cs[i..], CarverOf, layer.carvers) == CarversOf(cs)
    {
      assert cs[i..][0] == cs[i] && cs[i..][1..] == cs[i + 1..];
      assert MapResults(cs[i..], CarverOf, layer.carvers) ==
             match CarverOf(cs[i])
             case Err(e) => Err(e)
             case Ok(c) => MapResults(cs[i + 1..], CarverOf, layer.carvers + [c]);
      var name := Lower(cs[i].name);
      if name == "caves" {
        layer.Add(Cave(CaveCfgOf(Some(cs[i]))));
      } else if name == "caverns" {
        layer.Add(Cavern(CavernCfgOf(Some(cs[i]))));
      } else if name == "springs" {
        layer.Add(Spring(SpringCfgOf(Some(cs[i]))));
      } else {
        return Err("ArgumentException: Unknown carver type: " + name);
      }
      i := i + 1;
    }
    assert cs[i..] == [];
    r := Ok(layer);
  }

  /** The states of a layer list grown by one layer. */
  lemma StatesOfSnoc(ls: seq<(int, CaveGenLayer)>, k: int, l: CaveGenLayer)
    ensures LayerObjects(ls + [(k, l)]) == LayerObjects(ls) + {l}
    ensures StatesOf(ls + [(k, l)]) == StatesOf(ls) + [(k, l.carvers)]
  {
    var ls' := ls + [(k, l)];
    forall o | o in LayerObjects(ls') ensures o in LayerObjects(ls) + {l} {
      var i :| 0 <= i < |ls'| && ls'[i].1 == o;
      if i < |ls| { assert ls[i].1 == o; }
    }
    forall o | o in LayerObjects(ls) ensures o in LayerObjects(ls') {
      var i :| 0 <= i < |ls| && ls[i].1 == o;
      assert ls'[i].1 == o;
    }
    assert ls'[|ls|].1 == l;
  }

  /** `CreateCaveGenLayer` on every registered layer element, in order. */
  method BuildLayers(ls: seq<(int, Element)>) returns (r: Result<seq<(int, CaveGenLayer)>>)
    ensures r.Ok? <==> LayerStates(ls).Ok?
    ensures r.Ok? ==> (forall l :: l in LayerObjects(r.value) ==> fresh(l)) && StatesOf(r.value) == LayerStates(ls).value
  {
    var built: seq<(int, CaveGenLayer)> := [];
    var i := 0;
    while i < |ls|
      invariant 0 <= i <= |ls|
      invariant forall l :: l in LayerObjects(built) ==> fresh(l)
      invariant MapResults(ls[i..], LayerOf, StatesOf(built)) == LayerStates(ls)
    {
      assert ls[i..][0] == ls[i] && ls[i..][1..] == ls[i + 1..];
      var layer := CreateCaveGenLayer(ls[i].1);
      if layer.Err? {
        return Err(layer.msg);
      }
      StatesOfSnoc(built, ls[i].0, layer.value);
      built := built + [(ls[i].0, layer.value)];
      i := i + 1;
    }
    assert ls[i..] == [];
    r := Ok(built);
  }

  /** The cave generator's constructor: the weightmap and its layers, each
      built by `CreateCaveGenLayer`; without a weightmap, the default layer. */
  method Create(xml: Element, rootPath: Option<string>, images: map<string, PP.Image>, offX: int, offZ: int, geo: Geometry)
    returns (r: Result<CavesPostProcessor>)
    ensures r.Ok? <==> Config(rootPath, xml, offX, offZ, images).Ok?
    ensures r.Ok? ==> var c := Config(rootPath, xml, offX, offZ, images).value;
                      fresh(r.value) && r.value.weightmap == c.0 && StatesOf(r.value.layers) == c.1 && r.value.geo == geo
  {
    var wl := PP.LoadWeightmapAndLayers(rootPath, xml, offX, offZ, images);
    if wl.Err? {
      return Err(wl.msg);
    }
    if wl.value.None? {
      var layer := new CaveGenLayer();
      layer.Add(Cave(CaveCfgOf(None)));
      layer.Add(Cavern(CavernCfgOf(None)));
      layer.Add(Spring(SpringCfgOf(None)));
      layer.Add(Spring(SpringCfgOf(None).(lava := true, amount := 0.5)));
      assert layer.carvers == DefaultCarvers;
      var p := new CavesPostProcessor([(-1, layer)], None, geo);
      return Ok(p);
    }
    var built := BuildLayers(wl.value.value.1);
    if built.Err? {
      return Err(built.msg);
    }
    var p := new CavesPostProcessor(built.value, Some(wl.value.value.0), geo);
    r := Ok(p);
  }
}
