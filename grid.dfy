/** World generation helpers (app/utils/grid.ts): the hexagonal tile grid, the
    Mulberry32 generator, seeded biome assignment and the viewport test. */
module Grid {
  import opened Common
  import opened Seqs
  import opened Hex
  import C = Clustering
  import opened Random

  datatype Biome = Water | Grass | Forest | Mountain | Desert

  /** A map tile (types.ts). */
  datatype Tile = Tile(id: string, coord: Axial, biome: Biome)

  /** The tile `genHexagonGrid` pushes for `c`. */
  function TileAt(c: Axial, biome: Biome): Tile {
    Tile(C.Key(c.q, c.r), c, biome)
  }

  /** The tiles for the coordinates `cs`, in order. */
  function TilesOf(cs: seq<Axial>, biome: Biome): (r: seq<Tile>)
    ensures |r| == |cs|
  {
    if cs == [] then [] else [TileAt(cs[0], biome)] + TilesOf(cs[1..], biome)
  }

  lemma {:induction false} TilesOfAt(cs: seq<Axial>, biome: Biome, i: nat)
    requires i < |cs|
    ensures TilesOf(cs, biome)[i] == TileAt(cs[i], biome)
  {
    if i > 0 {
      TilesOfAt(cs[1..], biome, i - 1);
    }
  }

  lemma {:induction false} TilesOfAppend(a: seq<Axial>, b: seq<Axial>, biome: Biome)
    ensures TilesOf(a + b, biome) == TilesOf(a, biome) + TilesOf(b, biome)
  {
    if a != [] {
      assert (a + b)[1..] == a[1..] + b;
      TilesOfAppend(a[1..], b, biome);
    } else {
      assert a + b == b;
    }
  }

  /** `genHexagonGrid(radius, biome)`, the biome defaulting to grass: the
      loops of `axialDisk`, pushing a tile for each coordinate. */
  method GenHexagonGrid(radius: int, biome: Option<Biome>) returns (res: seq<Tile>)
    ensures res == TilesOf(Disk(radius), biome.GetOr(Grass))
  {
    var b := biome.GetOr(Grass);
    res := [];
    var q := -radius;
    while q <= radius
      invariant res + TilesOf(DiskFrom(radius, q), b) == TilesOf(Disk(radius), b)
      decreases radius + 1 - q
    {
      var r1 := Max(-radius, -q - radius);
      var r2 := Min(radius, -q + radius);
      var column := Column(q, r1, r2, b);
      TilesOfAppend(Row(radius, q), DiskFrom(radius, q + 1), b);
      AppendAssoc(res, column, TilesOf(DiskFrom(radius, q + 1), b));
      res := res + column;
      q := q + 1;
    }
  }

  /** The inner loop of `genHexagonGrid`: the tiles of column `q` from row
      `r1` to row `r2`. */
  method Column(q: int, r1: int, r2: int, b: Biome) returns (res: seq<Tile>)
    ensures res == TilesOf(RowFrom(q, r1, r2), b)
  {
    res := [];
    var r := r1;
    while r <= r2
      invariant res + TilesOf(RowFrom(q, r, r2), b) == TilesOf(RowFrom(q, r1, r2), b)
      decreases r2 + 1 - r
    {
      assert TilesOf(RowFrom(q, r, r2), b) == [TileAt(Axial(q, r), b)] + TilesOf(RowFrom(q, r + 1, r2), b);
      AppendAssoc(res, [TileAt(Axial(q, r), b)], TilesOf(RowFrom(q, r + 1, r2), b));
      res := res + [TileAt(Axial(q, r), b)];
      r := r + 1;
    }
  }

  /** The grid has the coordinates of the disk, in its order, each with id
      `"q:r"` and the requested biome; no two tiles share an id. */
  lemma GridSpec(radius: int, biome: Biome)
    ensures |TilesOf(Disk(radius), biome)| == |Disk(radius)|
    ensures forall i :: 0 <= i < |Disk(radius)| ==>
      TilesOf(Disk(radius), biome)[i].coord == Disk(radius)[i]
      && TilesOf(Disk(radius), biome)[i].id == C.Key(Disk(radius)[i].q, Disk(radius)[i].r)
      && TilesOf(Disk(radius), biome)[i].biome == biome
    ensures forall i, j :: 0 <= i < j < |Disk(radius)| ==>
      TilesOf(Disk(radius), biome)[i].id != TilesOf(Disk(radius), biome)[j].id
  {
    var d := Disk(radius);
    var t := TilesOf(d, biome);
    forall i | 0 <= i < |d| ensures t[i] == TileAt(d[i], biome) {
      TilesOfAt(d, biome, i);
    }
    DiskOrdered(radius);
    forall i, j | 0 <= i < j < |d| ensures t[i].id != t[j].id {
      if t[i].id == t[j].id {
        C.KeyInjective(d[i].q, d[i].r, d[j].q, d[j].r);
      }
    }
  }

  /** The biome thresholds. */
  function BiomeOf(n: real): Biome {
    if n < 0.12 then Water
    else if n < 0.38 then Grass
    else if n < 0.62 then Forest
    else if n < 0.82 then Desert
    else Mountain
  }

  /** Each biome covers one interval of the draw. */
  lemma BiomeOfSpec(n: real)
    ensures BiomeOf(n) == Water <==> n < 0.12
    ensures BiomeOf(n) == Grass <==> 0.12 <= n < 0.38
    ensures BiomeOf(n) == Forest <==> 0.38 <= n < 0.62
    ensures BiomeOf(n) == Desert <==> 0.62 <= n < 0.82
    ensures BiomeOf(n) == Mountain <==> 0.82 <= n
  {
  }

  /** `tiles` with the biome of the `i`-th draw on the `i`-th tile. */
  function WithBiomes(tiles: seq<Tile>, draws: seq<real>): (r: seq<Tile>)
    requires |draws| == |tiles|
    ensures |r| == |tiles|
    ensures forall i :: 0 <= i < |tiles| ==> r[i] == tiles[i].(biome := BiomeOf(draws[i]))
  {
    seq(|tiles|, i requires 0 <= i < |tiles| => tiles[i].(biome := BiomeOf(draws[i])))
  }

  lemma WithBiomesSnoc(tiles: seq<Tile>, draws: seq<real>, t: Tile, d: real)
    requires |draws| == |tiles|
    ensures WithBiomes(tiles + [t], draws + [d]) == WithBiomes(tiles, draws) + [t.(biome := BiomeOf(d))]
  {
    assert forall i :: 0 <= i < |tiles| ==> (tiles + [t])[i] == tiles[i] && (draws + [d])[i] == draws[i];
  }

  /** The tiles after `assignBiomes(tiles, seed)`. */
  function Assigned(tiles: seq<Tile>, seed: int): (r: seq<Tile>)
    ensures |r| == |tiles|
  {
    WithBiomes(tiles, Draws(seed, |tiles|))
  }

  /** `assignBiomes(tiles, seed)`, the seed defaulting to 1337: the map draws
      one number per tile, in order. */
  method AssignBiomes(tiles: seq<Tile>, seed: Option<int>) returns (res: seq<Tile>)
    ensures res == Assigned(tiles, seed.GetOr(1337))
  {
    var s := seed.GetOr(1337);
    var rnd := new Mulberry32(s);
    res := [];
    ghost var draws: seq<real> := [];
    for i := 0 to |tiles|
      invariant Draws(s, |tiles|) == draws + Draws(rnd.seed, |tiles| - i)
      invariant |draws| == i
      invariant res == WithBiomes(tiles[..i], draws)
    {
      ghost var before := rnd.seed;
      var n := rnd.Next();
      AppendAssoc(draws, [n], Draws(rnd.seed, |tiles| - i - 1));
      WithBiomesSnoc(tiles[..i], draws, tiles[i], n);
      TakeSnoc(tiles, i);
      draws := draws + [n];
      res := res + [tiles[i].(biome := BiomeOf(n))];
    }
    assert draws + [] == draws;
    assert tiles[..|tiles|] == tiles;
  }

  /** Assigning biomes keeps the length, the order, every id and every
      coordinate; the `i`-th tile's biome is that of the `i`-th draw, so it
      depends only on the seed and the tile's position. */
  lemma AssignedSpec(tiles: seq<Tile>, seed: int)
    ensures |Assigned(tiles, seed)| == |tiles|
    ensures forall i :: 0 <= i < |tiles| ==>
      Assigned(tiles, seed)[i] == tiles[i].(biome := BiomeOf(Nth(seed, i)))
  {
    forall i | 0 <= i < |tiles| ensures Assigned(tiles, seed)[i] == tiles[i].(biome := BiomeOf(Nth(seed, i))) {
      DrawsAt(seed, |tiles|, i);
    }
  }

  /** Re-assigning with the same seed gives the same biomes again, and the
      biomes of a prefix are those of the whole list. */
  lemma AssignedStable(tiles: seq<Tile>, seed: int, m: nat)
    requires m <= |tiles|
    ensures Assigned(Assigned(tiles, seed), seed) == Assigned(tiles, seed)
    ensures Assigned(tiles[..m], seed) == Assigned(tiles, seed)[..m]
  {
    AssignedSpec(tiles, seed);
    AssignedSpec(Assigned(tiles, seed), seed);
    AssignedSpec(tiles[..m], seed);
  }

  // ---------------------------------------------------------------------
  // Viewport.

  /** `isWithinViewport(px, py, viewW, viewH, padding)`, the padding
      defaulting to 64. */
  function IsWithinViewport(px: real, py: real, viewW: real, viewH: real, padding: Option<real>): bool {
    var p := padding.GetOr(64.0);
    px >= -p && px <= viewW + p && py >= -p && py <= viewH + p
  }

  /** A point inside the view is visible for any non-negative padding, and a
      larger padding never hides a visible point. */
  lemma ViewportMonotone(px: real, py: real, viewW: real, viewH: real, p1: real, p2: real)
    requires 0.0 <= p1 <= p2
    ensures 0.0 <= px <= viewW && 0.0 <= py <= viewH ==> IsWithinViewport(px, py, viewW, viewH, Some(p1))
    ensures IsWithinViewport(px, py, viewW, viewH, Some(p1)) ==> IsWithinViewport(px, py, viewW, viewH, Some(p2))
  {
  }
}
