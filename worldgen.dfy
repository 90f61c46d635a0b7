/** The world generator's base terrain: every heightmap column is filled up
    to its height with the dimension's default block, bedrock goes in the
    lowest layer and, from release 1.18 on, deepslate fills the layers below
    zero. Then the decoration chain runs, if there is one. */
module WorldGen {
  import opened Common
  import opened World
  import PP = PostProcessor
  import Bedrock
  import Chain

  const Deepslate: Block := Named(Resolve("deepslate"))

  /** From `Release_1(18)` on the world reaches down to -64. */
  predicate Deep(v: Version) { AtLeast(v, Release1(18)) }

  /** The layer that receives bedrock. */
  function Lowest(v: Version): int { if Deep(v) then -64 else 0 }

  /** What the finished column of height h holds at height y, or None where
      the fill writes nothing. */
  function ColumnBlock(env: Env, v: Version, h: int, y: int): Option<Block>
  {
    if Deep(v) then
      if y == -64 then Some(Bedrock.BedrockBlock)
      else if -64 < y < 0 then Some(Deepslate)
      else if 0 <= y <= h then Some(Named(env.defaultBlock))
      else None
    else
      if y == 0 then Some(Bedrock.BedrockBlock)
      else if 0 < y <= h then Some(Named(env.defaultBlock))
      else None
  }

  /** One column as the loops write it: deepslate from -64 up to h (from
      1.18 on), then the default block from 0 up to h, then bedrock in the
      lowest layer. */
  function FillColumn(env: Env, m: map<Coord, Block>, v: Version, x: int, z: int, h: PP.Byte): map<Coord, Block>
  {
    var m1 := if Deep(v) then Paint(m, x, z, h, h + 65, Deepslate) else m;
    var m2 := Paint(m1, x, z, h, h + 1, Named(env.defaultBlock));
    m2[(x, Lowest(v), z) := Bedrock.BedrockBlock]
  }

  /** The later writes win: the column ends up as `ColumnBlock` describes
      it, and no other cell changes. */
  lemma FillColumnMeaning(env: Env, m: map<Coord, Block>, v: Version, x: int, z: int, h: PP.Byte, c: Coord)
    ensures Get(FillColumn(env, m, v, x, z, h), c) ==
            if c.0 == x && c.2 == z && ColumnBlock(env, v, h, c.1).Some? then ColumnBlock(env, v, h, c.1) else Get(m, c)
  {
    var m1 := if Deep(v) then Paint(m, x, z, h, h + 65, Deepslate) else m;
    var m2 := Paint(m1, x, z, h, h + 1, Named(env.defaultBlock));
    assert Get(m2, c) == if c.0 == x && c.2 == z && 0 <= c.1 <= h then Some(Named(env.defaultBlock)) else Get(m1, c);
    if Deep(v) {
      assert Get(m1, c) == if c.0 == x && c.2 == z && -64 <= c.1 <= h then Some(Deepslate) else Get(m, c);
    }
  }

  /** Columns 0 up to `zEnd` of row x. */
  function FillZ(env: Env, m: map<Coord, Block>, v: Version, hm: array2<PP.Byte>, x: nat, zEnd: nat): map<Coord, Block>
    requires x < hm.Length0 && zEnd <= hm.Length1
    reads hm
  {
    if zEnd == 0 then m else FillColumn(env, FillZ(env, m, v, hm, x, zEnd - 1), v, x, zEnd - 1, hm[x, zEnd - 1])
  }

  /** Rows 0 up to `xEnd`, every column of each. */
  function FillX(env: Env, m: map<Coord, Block>, v: Version, hm: array2<PP.Byte>, xEnd: nat): map<Coord, Block>
    requires xEnd <= hm.Length0
    reads hm
  {
    if xEnd == 0 then m else FillZ(env, FillX(env, m, v, hm, xEnd - 1), v, hm, xEnd - 1, hm.Length1)
  }

  /** What the whole base fill leaves at a cell, where it writes one. */
  function BaseAt(env: Env, v: Version, hm: array2<PP.Byte>, c: Coord): Option<Block>
    reads hm
  {
    if 0 <= c.0 < hm.Length0 && 0 <= c.2 < hm.Length1 then ColumnBlock(env, v, hm[c.0, c.2], c.1) else None
  }

  lemma {:induction false} FillZMeaning(env: Env, m: map<Coord, Block>, v: Version, hm: array2<PP.Byte>, x: nat, zEnd: nat, c: Coord)
    requires x < hm.Length0 && zEnd <= hm.Length1
    ensures Get(FillZ(env, m, v, hm, x, zEnd), c) ==
            if c.0 == x && 0 <= c.2 < zEnd && BaseAt(env, v, hm, c).Some? then BaseAt(env, v, hm, c) else Get(m, c)
  {
    if zEnd > 0 {
      FillZMeaning(env, m, v, hm, x, zEnd - 1, c);
      FillColumnMeaning(env, FillZ(env, m, v, hm, x, zEnd - 1), v, x, zEnd - 1, hm[x, zEnd - 1], c);
    }
  }

  lemma {:induction false} FillXMeaning(env: Env, m: map<Coord, Block>, v: Version, hm: array2<PP.Byte>, xEnd: nat, c: Coord)
    requires xEnd <= hm.Length0
    ensures Get(FillX(env, m, v, hm, xEnd), c) ==
            if 0 <= c.0 < xEnd && BaseAt(env, v, hm, c).Some? then BaseAt(env, v, hm, c) else Get(m, c)
  {
    if xEnd > 0 {
      FillXMeaning(env, m, v, hm, xEnd - 1, c);
      FillZMeaning(env, FillX(env, m, v, hm, xEnd - 1), v, hm, xEnd - 1, hm.Length1, c);
    }
  }

  /** The finished terrain: every cell of the heightmap's area holds what
      its column's height makes of it; from 1.18 on bedrock at -64, deepslate
      from -63 to -1 and the default block from 0 to the height; before
      1.18 bedrock at 0, replacing the default block there, and the default
      block from 1 to the height; nothing above the height and nothing
      outside the area is written. */
  lemma BaseTerrain(env: Env, m: map<Coord, Block>, v: Version, hm: array2<PP.Byte>, c: Coord)
    ensures var r := FillX(env, m, v, hm, hm.Length0);
            (BaseAt(env, v, hm, c).Some? ==> Get(r, c) == BaseAt(env, v, hm, c)) &&
            (BaseAt(env, v, hm, c).None? ==> Get(r, c) == Get(m, c))
    ensures 0 <= c.0 < hm.Length0 && 0 <= c.2 < hm.Length1 && c.1 > hm[c.0, c.2] ==>
            Get(FillX(env, m, v, hm, hm.Length0), c) == Get(m, c)
  {
    FillXMeaning(env, m, v, hm, hm.Length0, c);
  }

  /** `Math.Ceiling(L / 16f)`: the number of 16-wide bands. */
  function Bands(len: nat): nat { (len + 15) / 16 }

  /** The width of band cx: 16, or what is left of the heightmap. */
  function BandWidth(len: nat, cx: nat): int { Min(16, len - cx * 16) }

  /** The x coordinate of position bx in band cx. */
  function BandX(cx: int, bx: int): int { cx * 16 + bx }

  /** The bands visit every x of the heightmap exactly once: each x in
      range has its band and position, and those are the only ones. */
  lemma BandPartition(len: nat, x: int)
    ensures 0 <= x < len ==> 0 <= x / 16 < Bands(len) && 0 <= x % 16 < BandWidth(len, x / 16) && BandX(x / 16, x % 16) == x
    ensures forall cx: int, bx: int :: 0 <= cx < Bands(len) && 0 <= bx < BandWidth(len, cx) && BandX(cx, bx) == x ==>
              0 <= x < len && cx == x / 16 && bx == x % 16
  {
    forall cx: int, bx: int | 0 <= cx < Bands(len) && 0 <= bx < BandWidth(len, cx) && BandX(cx, bx) == x
      ensures 0 <= x < len && cx == x / 16 && bx == x % 16
    {
      assert bx < 16 && bx < len - cx * 16;
      assert x == cx * 16 + bx;
    }
  }

  /** Writing the cells of a column from the bottom up, one at a time,
      paints the same range. */
  lemma PaintStep(m: map<Coord, Block>, x: int, z: int, y: int, k: nat, b: Block)
    ensures Paint(m, x, z, y, k + 1, b) == Paint(m, x, z, y - 1, k, b)[(x, y, z) := b]
  {
    var l := Paint(m, x, z, y, k + 1, b);
    var r := Paint(m, x, z, y - 1, k, b)[(x, y, z) := b];
    forall c ensures Get(l, c) == Get(r, c)
    {
      assert Get(l, c) == if c.0 == x && c.2 == z && y - (k + 1) < c.1 <= y then Some(b) else Get(m, c);
      assert Get(Paint(m, x, z, y - 1, k, b), c) ==
             if c.0 == x && c.2 == z && y - 1 - k < c.1 <= y - 1 then Some(b) else Get(m, c);
    }
    SameEverywhere(l, r);
  }

  /** The fill of one column, through the dimension. */
  method FillColumnAt(dim: Dimension, v: Version, x: int, z: int, h: PP.Byte)
    modifies dim`blocks
    ensures dim.blocks == FillColumn(dim.env, old(dim.blocks), v, x, z, h)
  {
    var lowest := 0;
    if Deep(v) {
      lowest := -64;
      var y := -64;
      while y <= h
        invariant -64 <= y <= h + 1
        invariant dim.blocks == Paint(old(dim.blocks), x, z, y - 1, y + 64, Deepslate)
      {
        PaintStep(old(dim.blocks), x, z, y, y + 64, Deepslate);
        dim.SetBlock((x, y, z), Deepslate);
        y := y + 1;
      }
    }
    ghost var m1 := dim.blocks;
    var y := 0;
    while y <= h
      invariant 0 <= y <= h + 1
      invariant dim.blocks == Paint(m1, x, z, y - 1, y, Named(dim.env.defaultBlock))
    {
      PaintStep(m1, x, z, y, y, Named(dim.env.defaultBlock));
      dim.SetBlock((x, y, z), Named(dim.env.defaultBlock));
      y := y + 1;
    }
    dim.SetBlock((x, lowest, z), Bedrock.BedrockBlock);
  }

  /** `CreateBaseTerrain`: band by band (the bands run in parallel in the
      source; each touches only its own columns), x within the band, then z. */
  method CreateBaseTerrain(dim: Dimension, v: Version, hm: array2<PP.Byte>)
    modifies dim`blocks
    ensures dim.blocks == FillX(dim.env, old(dim.blocks), v, hm, hm.Length0)
  {
    var lenX := hm.Length0;
    var lenZ := hm.Length1;
    var iterations := Bands(lenX);
    var cx := 0;
    while cx < iterations
      invariant 0 <= cx <= iterations
      invariant dim.blocks == FillX(dim.env, old(dim.blocks), v, hm, Min(cx * 16, lenX))
    {
      assert cx * 16 < lenX;
      var bx := 0;
      while bx < BandWidth(lenX, cx)
        invariant 0 <= bx <= BandWidth(lenX, cx)
        invariant dim.blocks == FillX(dim.env, old(dim.blocks), v, hm, BandX(cx, bx))
      {
        var x := BandX(cx, bx);
        var z := 0;
        while z < lenZ
          invariant 0 <= z <= lenZ
          invariant dim.blocks == FillZ(dim.env, FillX(dim.env, old(dim.blocks), v, hm, x), v, hm, x, z)
        {
          FillColumnAt(dim, v, x, z, hm[x, z]);
          z := z + 1;
        }
        bx := bx + 1;
      }
      cx := cx + 1;
    }
  }

  /** `DecorateTerrain`: the chain's hook calls, or none without a chain;
      an exception from a hook ends the call. */
  method DecorateTerrain(stack: Chain.Stack?, hm: array2<PP.Byte>, offX: int, offZ: int, throws: Chain.Call -> bool)
    returns (calls: seq<Chain.Call>, thrown: bool)
    ensures stack == null ==> calls == [] && !thrown
    ensures stack != null ==> calls <= Chain.Schedule(stack.generators, hm, offX, offZ)
    ensures stack != null && !thrown ==> calls == Chain.Schedule(stack.generators, hm, offX, offZ)
    ensures forall j :: 0 <= j < |calls| ==> (throws(calls[j]) <==> thrown && j == |calls| - 1)
  {
    calls, thrown := [], false;
    if stack != null {
      calls, thrown := stack.DecorateTerrain(hm, offX, offZ, throws);
    }
  }
}
