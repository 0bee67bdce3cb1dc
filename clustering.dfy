/** Hex-grid clustering (app/services/map/clustering.ts): a stack-driven flood
    fill that groups adjacent buildings of the same kind whose levels differ by
    at most `maxLevelDelta`, comparing each neighbour with the building it is
    reached from. */
module Clustering {
  import opened Common
  import opened Text
  import opened Hex
  import opened Formulas

  /** The six axial directions, in the order the flood fill tries them. */
  const NEIGHBORS: seq<Axial> := [
    Axial(1, 0), Axial(0, 1), Axial(-1, 1),
    Axial(-1, 0), Axial(0, -1), Axial(1, -1)]

  function Add(a: Axial, d: Axial): Axial {
    Axial(a.q + d.q, a.r + d.r)
  }

  /** `key(q, r)`: the string `"q:r"` the source uses for map and set keys. */
  function Key(q: int, r: int): (k: string)
    ensures ':' in k
  {
    IntToString(q) + ":" + IntToString(r)
  }

  lemma SplitAtColon(a: string, b: string, s: string)
    requires ':' !in a && s == a + ":" + b
    ensures IndexOf(s, ':') == |a| && s[..|a|] == a && s[|a| + 1..] == b
  {
    assert s[|a|] == ':';
    assert s[..|a|] == a;
  }

  /** Distinct coordinates have distinct keys, so the model keys its map and
      set by the coordinate itself. */
  lemma KeyInjective(q1: int, r1: int, q2: int, r2: int)
    requires Key(q1, r1) == Key(q2, r2)
    ensures q1 == q2 && r1 == r2
  {
    var s := Key(q1, r1);
    IntToStringRoundTrip(q1); IntToStringRoundTrip(r1);
    IntToStringRoundTrip(q2); IntToStringRoundTrip(r2);
    SplitAtColon(IntToString(q1), IntToString(r1), s);
    SplitAtColon(IntToString(q2), IntToString(r2), s);
  }

  // ---------------------------------------------------------------------
  // The coordinate map and the compatibility graph.

  /** The coordinates occupied by the buildings. */
  function Coords(bs: seq<Building>): set<Axial> {
    set b | b in bs :: b.coord
  }

  function BuildingIds(bs: seq<Building>): set<string> {
    set b | b in bs :: b.id
  }

  lemma CoordsAppend(init: seq<Building>, b: Building)
    ensures Coords(init + [b]) == Coords(init) + {b.coord}
  {
    var s := init + [b];
    forall c | c in Coords(s) ensures c in Coords(init) + {b.coord} {
      var x :| x in s && x.coord == c;
      if x != b { assert x in init; }
    }
    forall c | c in Coords(init) ensures c in Coords(s) {
      var x :| x in init && x.coord == c;
      assert x in s;
    }
    assert b in s;
  }

  /** The `byCoord` map: for each occupied coordinate, the LAST building
      listed there. */
  function ByCoord(bs: seq<Building>): (g: map<Axial, Building>)
    ensures g.Keys == Coords(bs)
    ensures forall c :: c in g ==> g[c].coord == c && g[c] in bs
  {
    if bs == [] then map[]
    else
      CoordsAppend(bs[..|bs| - 1], bs[|bs| - 1]);
      assert bs == bs[..|bs| - 1] + [bs[|bs| - 1]];
      ByCoord(bs[..|bs| - 1])[bs[|bs| - 1].coord := bs[|bs| - 1]]
  }

  ghost predicate UniqueCoords(bs: seq<Building>) {
    forall i, j :: 0 <= i < j < |bs| ==> bs[i].coord != bs[j].coord
  }

  ghost predicate UniqueIds(bs: seq<Building>) {
    forall i, j :: 0 <= i < j < |bs| ==> bs[i].id != bs[j].id
  }

  /** Without shared coordinates every building is the one the map holds,
      and there are as many coordinates as buildings. */
  lemma {:induction false} ByCoordUnique(bs: seq<Building>)
    requires UniqueCoords(bs)
    ensures forall i :: 0 <= i < |bs| ==> ByCoord(bs)[bs[i].coord] == bs[i]
    ensures |Coords(bs)| == |bs|
  {
    if bs != [] {
      var init, last := bs[..|bs| - 1], bs[|bs| - 1];
      assert bs == init + [last];
      UniqueCoordsInit(init, last);
      ByCoordUnique(init);
      LastCoordFresh(init, last);
      CoordsAppend(init, last);
      ByCoordSnoc(init, last);
    }
  }

  lemma UniqueCoordsInit(init: seq<Building>, last: Building)
    requires UniqueCoords(init + [last])
    ensures UniqueCoords(init)
    ensures forall i :: 0 <= i < |init| ==> init[i].coord != last.coord
  {
    var bs := init + [last];
    forall i, j | 0 <= i < j < |init| ensures init[i].coord != init[j].coord {
      assert init[i] == bs[i] && init[j] == bs[j];
    }
    forall i | 0 <= i < |init| ensures init[i].coord != last.coord {
      assert init[i] == bs[i] && last == bs[|init|];
    }
  }

  lemma LastCoordFresh(init: seq<Building>, last: Building)
    requires forall i :: 0 <= i < |init| ==> init[i].coord != last.coord
    ensures last.coord !in Coords(init)
  {
    forall b | b in init ensures b.coord != last.coord {
      var i :| 0 <= i < |init| && init[i] == b;
    }
  }

  lemma ByCoordSnoc(init: seq<Building>, last: Building)
    requires forall i :: 0 <= i < |init| ==> ByCoord(init)[init[i].coord] == init[i]
    requires forall i :: 0 <= i < |init| ==> init[i].coord != last.coord
    ensures forall i :: 0 <= i < |init + [last]| ==> ByCoord(init + [last])[(init + [last])[i].coord] == (init + [last])[i]
  {
    var bs := init + [last];
    assert bs[..|bs| - 1] == init;
    assert ByCoord(bs) == ByCoord(init)[last.coord := last];
    forall i | 0 <= i < |bs| ensures ByCoord(bs)[bs[i].coord] == bs[i] {
      if i < |init| {
        assert bs[i] == init[i];
      }
    }
  }

  /** With distinct ids, distinct map entries carry distinct ids. */
  lemma ByCoordIds(bs: seq<Building>)
    requires UniqueIds(bs)
    ensures forall a, b :: a in ByCoord(bs) && b in ByCoord(bs) && ByCoord(bs)[a].id == ByCoord(bs)[b].id ==> a == b
  {
    var g := ByCoord(bs);
    forall a, b | a in g && b in g && g[a].id == g[b].id ensures a == b {
      var i :| 0 <= i < |bs| && bs[i] == g[a];
      var j :| 0 <= j < |bs| && bs[j] == g[b];
      assert bs[i] == bs[j];
    }
  }

  predicate Adjacent(a: Axial, b: Axial) {
    Axial(b.q - a.q, b.r - a.r) in NEIGHBORS
  }

  /** The compatibility graph: adjacent, same kind, levels within `delta`. */
  predicate Linked(g: map<Axial, Building>, delta: int, a: Axial, b: Axial) {
    a in g && b in g && Adjacent(a, b) && g[a].kind == g[b].kind
    && Abs(g[b].level - g[a].level) <= delta
  }

  lemma LinkedSymmetric(g: map<Axial, Building>, delta: int, a: Axial, b: Axial)
    requires Linked(g, delta, a, b)
    ensures Linked(g, delta, b, a)
  {
  }

  lemma AdjacentDirection(a: Axial, b: Axial) returns (j: nat)
    requires Adjacent(a, b)
    ensures j < |NEIGHBORS| && b == Add(a, NEIGHBORS[j])
  {
    var d := Axial(b.q - a.q, b.r - a.r);
    j :| 0 <= j < |NEIGHBORS| && NEIGHBORS[j] == d;
  }

  ghost predicate IsPath(g: map<Axial, Building>, delta: int, p: seq<Axial>) {
    |p| >= 1 && p[0] in g && forall i :: 0 <= i < |p| - 1 ==> Linked(g, delta, p[i], p[i + 1])
  }

  ghost predicate Reachable(g: map<Axial, Building>, delta: int, a: Axial, b: Axial) {
    exists p :: IsPath(g, delta, p) && p[0] == a && p[|p| - 1] == b
  }

  /** The connected component of `a` in the compatibility graph. */
  ghost function Component(g: map<Axial, Building>, delta: int, a: Axial): set<Axial> {
    set c | c in g.Keys && Reachable(g, delta, a, c)
  }

  lemma ReachableRefl(g: map<Axial, Building>, delta: int, a: Axial)
    requires a in g
    ensures Reachable(g, delta, a, a)
  {
    assert IsPath(g, delta, [a]);
  }

  lemma ReachableStep(g: map<Axial, Building>, delta: int, s: Axial, a: Axial, b: Axial)
    requires Reachable(g, delta, s, a) && Linked(g, delta, a, b)
    ensures Reachable(g, delta, s, b)
  {
    var p :| IsPath(g, delta, p) && p[0] == s && p[|p| - 1] == a;
    var p' := p + [b];
    assert forall i :: 0 <= i < |p'| - 1 ==> Linked(g, delta, p'[i], p'[i + 1]) by {
      forall i | 0 <= i < |p'| - 1 ensures Linked(g, delta, p'[i], p'[i + 1]) {
        if i < |p| - 1 { assert p'[i] == p[i] && p'[i + 1] == p[i + 1]; }
      }
    }
    assert IsPath(g, delta, p');
  }

  lemma ReachableEndsIn(g: map<Axial, Building>, delta: int, a: Axial, b: Axial)
    requires Reachable(g, delta, a, b)
    ensures a in g && b in g
  {
    var p :| IsPath(g, delta, p) && p[0] == a && p[|p| - 1] == b;
    if |p| > 1 { assert Linked(g, delta, p[|p| - 2], p[|p| - 1]); }
  }

  lemma ReachableSymmetric(g: map<Axial, Building>, delta: int, a: Axial, b: Axial)
    requires Reachable(g, delta, a, b)
    ensures Reachable(g, delta, b, a)
  {
    var p :| IsPath(g, delta, p) && p[0] == a && p[|p| - 1] == b;
    var n := |p|;
    var r := seq(n, i requires 0 <= i < n => p[n - 1 - i]);
    ReachableEndsIn(g, delta, a, b);
    forall i | 0 <= i < n - 1 ensures Linked(g, delta, r[i], r[i + 1]) {
      assert Linked(g, delta, p[n - 2 - i], p[n - 1 - i]);
      LinkedSymmetric(g, delta, p[n - 2 - i], p[n - 1 - i]);
    }
    assert IsPath(g, delta, r);
  }

  lemma ReachableTransitive(g: map<Axial, Building>, delta: int, a: Axial, b: Axial, c: Axial)
    requires Reachable(g, delta, a, b) && Reachable(g, delta, b, c)
    ensures Reachable(g, delta, a, c)
  {
    var p :| IsPath(g, delta, p) && p[0] == a && p[|p| - 1] == b;
    var p2 :| IsPath(g, delta, p2) && p2[0] == b && p2[|p2| - 1] == c;
    var r := p + p2[1..];
    forall i | 0 <= i < |r| - 1 ensures Linked(g, delta, r[i], r[i + 1]) {
      if i < |p| - 1 {
        assert r[i] == p[i] && r[i + 1] == p[i + 1];
      } else {
        var k := i - |p| + 1;
        assert r[i] == p2[k] && r[i + 1] == p2[k + 1];
      }
    }
    assert IsPath(g, delta, r);
  }

  /** Closed under the compatibility relation. */
  ghost predicate Closed(g: map<Axial, Building>, delta: int, s: set<Axial>) {
    forall a, b :: a in s && Linked(g, delta, a, b) ==> b in s
  }

  /** A path that starts in a closed set never leaves it. */
  lemma {:induction false} PathStaysIn(g: map<Axial, Building>, delta: int, s: set<Axial>, p: seq<Axial>)
    requires Closed(g, delta, s) && IsPath(g, delta, p) && p[0] in s
    ensures p[|p| - 1] in s
    decreases |p|
  {
    if |p| > 1 {
      var init := p[..|p| - 1];
      assert IsPath(g, delta, init) by {
        forall i | 0 <= i < |init| - 1 ensures Linked(g, delta, init[i], init[i + 1]) {
          assert init[i] == p[i] && init[i + 1] == p[i + 1];
        }
      }
      PathStaysIn(g, delta, s, init);
      assert Linked(g, delta, p[|p| - 2], p[|p| - 1]);
    }
  }

  // ---------------------------------------------------------------------
  // Averages.

  function Elems<T>(s: seq<T>): set<T> {
    set x | x in s
  }

  ghost predicate NoDup<T>(s: seq<T>) {
    forall i, j :: 0 <= i < j < |s| ==> s[i] != s[j]
  }

  function Qs(tiles: seq<Axial>): (r: seq<int>)
    ensures |r| == |tiles| && forall k :: 0 <= k < |tiles| ==> r[k] == tiles[k].q
  {
    seq(|tiles|, k requires 0 <= k < |tiles| => tiles[k].q)
  }

  function Rs(tiles: seq<Axial>): (r: seq<int>)
    ensures |r| == |tiles| && forall k :: 0 <= k < |tiles| ==> r[k] == tiles[k].r
  {
    seq(|tiles|, k requires 0 <= k < |tiles| => tiles[k].r)
  }

  /** `Math.round(sum / divisor)` */
  function RoundedMean(xs: seq<int>, divisor: int): int
    requires divisor > 0
  {
    Round(Sum(xs) as real / divisor as real)
  }

  lemma {:induction false} SumBounds(xs: seq<int>, lo: int, hi: int)
    requires forall k :: 0 <= k < |xs| ==> lo <= xs[k] <= hi
    ensures |xs| * lo <= Sum(xs) <= |xs| * hi
  {
    if xs != [] {
      var init, n := xs[..|xs| - 1], |xs| - 1;
      assert forall k :: 0 <= k < n ==> init[k] == xs[k];
      SumBounds(init, lo, hi);
      assert (n + 1) * lo == n * lo + lo && (n + 1) * hi == n * hi + hi;
    }
  }

  /** The rounded mean of values in `[lo, hi]` is itself in `[lo, hi]`. */
  lemma RoundedMeanBounds(xs: seq<int>, lo: int, hi: int)
    requires |xs| >= 1
    requires forall k :: 0 <= k < |xs| ==> lo <= xs[k] <= hi
    ensures lo <= RoundedMean(xs, |xs|) <= hi
  {
    SumBounds(xs, lo, hi);
    DivBounds(Sum(xs), |xs|, lo, hi);
  }

  lemma DivBounds(s: int, n: int, lo: int, hi: int)
    requires n >= 1 && n * lo <= s <= n * hi
    ensures lo as real <= s as real / n as real <= hi as real
  {
    var m := s as real / n as real;
    assert m * n as real == s as real;
    assert (n * lo) as real == n as real * lo as real;
    assert (n * hi) as real == n as real * hi as real;
  }

  /** The simple centroid: the rounded means of `q` and `r`. */
  function Centroid(tiles: seq<Axial>): Axial
    requires |tiles| >= 1
  {
    Axial(RoundedMean(Qs(tiles), |tiles|), RoundedMean(Rs(tiles), |tiles|))
  }

  /** The levels of the buildings at the given coordinates. */
  function LevelsAt(g: map<Axial, Building>, tiles: seq<Axial>): (r: seq<int>)
    requires forall t :: t in tiles ==> t in g
    ensures |r| == |tiles| && forall k :: 0 <= k < |tiles| ==> r[k] == g[tiles[k]].level
  {
    seq(|tiles|, k requires 0 <= k < |tiles| => g[tiles[k]].level)
  }

  // ---------------------------------------------------------------------
  // The flood fill.

  ghost predicate WellFormedMap(g: map<Axial, Building>) {
    forall c :: c in g ==> g[c].coord == c
  }

  /** `byCoord`, built by the source's `forEach`. */
  method BuildByCoord(bs: seq<Building>) returns (g: map<Axial, Building>)
    ensures g == ByCoord(bs)
  {
    g := map[];
    for i := 0 to |bs|
      invariant g == ByCoord(bs[..i])
    {
      assert bs[..i + 1][..i] == bs[..i];
      g := g[bs[i].coord := bs[i]];
    }
    assert bs[..|bs|] == bs;
  }

  /** What one pass of the neighbour loop leaves in the stack: the old stack,
      then only neighbours of `cur` of `kind`, within `delta` of `cur`'s level
      and unvisited, and among them every such neighbour. */
  ghost predicate Pushed(g: map<Axial, Building>, delta: int, kind: string, cur: Building,
                         visited: set<Axial>, queue: seq<Building>, out: seq<Building>) {
    |out| >= |queue| && out[..|queue|] == queue
    && (forall k :: |queue| <= k < |out| ==>
          out[k].coord in g && out[k] == g[out[k].coord] && out[k].coord !in visited
          && out[k].kind == kind && Abs(out[k].level - cur.level) <= delta && Adjacent(cur.coord, out[k].coord))
    && (forall j :: 0 <= j < |NEIGHBORS| ==> PushedIfCompatible(g, delta, kind, cur, visited, out, Add(cur.coord, NEIGHBORS[j])))
  }

  ghost predicate PushedIfCompatible(g: map<Axial, Building>, delta: int, kind: string, cur: Building,
                                     visited: set<Axial>, out: seq<Building>, nk: Axial) {
    (nk in g && g[nk].kind == kind && Abs(g[nk].level - cur.level) <= delta && nk !in visited)
      ==> g[nk] in out
  }

  /** Whether the neighbour at `nk` goes on the stack. */
  predicate Compatible(g: map<Axial, Building>, delta: int, kind: string, cur: Building,
                       visited: set<Axial>, nk: Axial) {
    nk in g && g[nk].kind == kind && Abs(g[nk].level - cur.level) <= delta && nk !in visited
  }

  /** The buildings pushed for the first `n` offsets, in offset order. */
  function PushedFor(g: map<Axial, Building>, delta: int, kind: string, cur: Building,
                     visited: set<Axial>, n: nat): seq<Building>
    requires n <= |NEIGHBORS|
  {
    if n == 0 then []
    else
      var nk := Add(cur.coord, NEIGHBORS[n - 1]);
      PushedFor(g, delta, kind, cur, visited, n - 1) + (if Compatible(g, delta, kind, cur, visited, nk) then [g[nk]] else [])
  }

  /** The inner `for (const [dq, dr] of NEIGHBORS)` loop. */
  method PushNeighbors(g: map<Axial, Building>, delta: int, kind: string, cur: Building,
                       visited: set<Axial>, queue: seq<Building>) returns (out: seq<Building>)
    requires WellFormedMap(g)
    ensures Pushed(g, delta, kind, cur, visited, queue, out)
    ensures out == queue + PushedFor(g, delta, kind, cur, visited, |NEIGHBORS|)
  {
    out := queue;
    for j := 0 to |NEIGHBORS|
      invariant out == queue + PushedFor(g, delta, kind, cur, visited, j)
      invariant |out| >= |queue| && out[..|queue|] == queue
      invariant forall k :: |queue| <= k < |out| ==>
        out[k].coord in g && out[k] == g[out[k].coord] && out[k].coord !in visited
        && out[k].kind == kind && Abs(out[k].level - cur.level) <= delta && Adjacent(cur.coord, out[k].coord)
      invariant forall j' :: 0 <= j' < j ==> PushedIfCompatible(g, delta, kind, cur, visited, out, Add(cur.coord, NEIGHBORS[j']))
    {
      var nk := Add(cur.coord, NEIGHBORS[j]);
      if nk in g {
        var nb := g[nk];
        if nb.kind == kind && Abs(nb.level - cur.level) <= delta && nk !in visited {
          assert Adjacent(cur.coord, nb.coord) by { assert nb.coord == nk; }
          out := out + [nb];
        }
      }
    }
  }

  /** The ids of the buildings popped so far: the seed, then the map's
      buildings at the later tiles. */
  ghost function PoppedIds(g: map<Axial, Building>, seed: Building, tiles: seq<Axial>): set<string>
    requires forall t :: t in tiles ==> t in g
  {
    if tiles == [] then {} else {seed.id} + set k | 1 <= k < |tiles| :: g[tiles[k]].id
  }

  function MapTo(ids: set<string>, v: ClusterId): map<string, ClusterId> {
    map id | id in ids :: v
  }

  /** The invariant of the `while (queue.length)` loop: the bookkeeping, and,
      when the seed is the building the map holds at its coordinate, the flood
      fill's soundness and frontier. */
  ghost predicate FillInv(g: map<Axial, Building>, delta: int, seed: Building, visited0: set<Axial>,
                          byId0: map<string, ClusterId>, cid: ClusterId,
                          queue: seq<Building>, tiles: seq<Axial>, levels: seq<int>,
                          visited: set<Axial>, byId: map<string, ClusterId>) {
    FillBasic(g, seed, visited0, byId0, cid, queue, tiles, levels, visited, byId)
    && (g[seed.coord] == seed ==> Frontier(g, delta, seed.coord, queue, tiles, visited))
  }

  ghost predicate FillBasic(g: map<Axial, Building>, seed: Building, visited0: set<Axial>,
                            byId0: map<string, ClusterId>, cid: ClusterId,
                            queue: seq<Building>, tiles: seq<Axial>, levels: seq<int>,
                            visited: set<Axial>, byId: map<string, ClusterId>) {
    seed.coord in g && seed.coord !in visited0
    && visited == visited0 + Elems(tiles) && |visited| == |visited0| + |tiles|
    && NoDup(tiles) && (forall t :: t in tiles ==> t in g && t !in visited0)
    && |levels| == |tiles|
    && (tiles == [] ==> queue == [seed])
    && (tiles != [] ==> tiles[0] == seed.coord && levels[0] == seed.level)
    && (forall k :: 1 <= k < |tiles| ==> levels[k] == g[tiles[k]].level && g[tiles[k]].kind == seed.kind)
    && (forall k :: 0 <= k < |queue| ==> queue[k].coord in g)
    && (tiles != [] ==> forall k :: 0 <= k < |queue| ==> queue[k] == g[queue[k].coord] && queue[k].kind == seed.kind)
    && byId == byId0 + MapTo(PoppedIds(g, seed, tiles), cid)
  }

  ghost predicate Frontier(g: map<Axial, Building>, delta: int, s: Axial,
                           queue: seq<Building>, tiles: seq<Axial>, visited: set<Axial>) {
    (forall k :: 0 <= k < |queue| ==> Reachable(g, delta, s, queue[k].coord))
    && (forall t :: t in tiles ==> Reachable(g, delta, s, t))
    && (forall t, n :: t in tiles && Linked(g, delta, t, n) ==> n in visited || (n in g && g[n] in queue))
  }

  /** Popping an already visited coordinate keeps the invariant. */
  lemma FillSkip(g: map<Axial, Building>, delta: int, seed: Building, visited0: set<Axial>,
                 byId0: map<string, ClusterId>, cid: ClusterId,
                 queue: seq<Building>, tiles: seq<Axial>, levels: seq<int>,
                 visited: set<Axial>, byId: map<string, ClusterId>)
    requires WellFormedMap(g)
    requires |queue| > 0 && queue[|queue| - 1].coord in visited
    requires FillInv(g, delta, seed, visited0, byId0, cid, queue, tiles, levels, visited, byId)
    ensures FillInv(g, delta, seed, visited0, byId0, cid, queue[..|queue| - 1], tiles, levels, visited, byId)
  {
    FillSkipBasic(g, seed, visited0, byId0, cid, queue, tiles, levels, visited, byId);
    if g[seed.coord] == seed {
      FillSkipFrontier(g, delta, seed.coord, queue, tiles, visited);
    }
  }

  lemma FillSkipBasic(g: map<Axial, Building>, seed: Building, visited0: set<Axial>,
                      byId0: map<string, ClusterId>, cid: ClusterId,
                      queue: seq<Building>, tiles: seq<Axial>, levels: seq<int>,
                      visited: set<Axial>, byId: map<string, ClusterId>)
    requires |queue| > 0 && queue[|queue| - 1].coord in visited
    requires FillBasic(g, seed, visited0, byId0, cid, queue, tiles, levels, visited, byId)
    ensures FillBasic(g, seed, visited0, byId0, cid, queue[..|queue| - 1], tiles, levels, visited, byId)
  {
    var rest := queue[..|queue| - 1];
    assert tiles != [] by {
      if tiles == [] { assert false; }
    }
    assert forall k :: 0 <= k < |rest| ==> rest[k] == queue[k];
  }

  lemma FillSkipFrontier(g: map<Axial, Building>, delta: int, s: Axial,
                         queue: seq<Building>, tiles: seq<Axial>, visited: set<Axial>)
    requires WellFormedMap(g)
    requires |queue| > 0 && queue[|queue| - 1].coord in visited
    requires Frontier(g, delta, s, queue, tiles, visited)
    ensures Frontier(g, delta, s, queue[..|queue| - 1], tiles, visited)
  {
    var cur, rest := queue[|queue| - 1], queue[..|queue| - 1];
    assert queue == rest + [cur];
    assert forall k :: 0 <= k < |rest| ==> rest[k] == queue[k];
    forall t, n | t in tiles && Linked(g, delta, t, n) ensures n in visited || (n in g && g[n] in rest) {
      if n !in visited {
        assert g[n] in rest + [cur];
        assert g[n].coord == n;
      }
    }
  }

  lemma PoppedIdsAppend(g: map<Axial, Building>, seed: Building, tiles: seq<Axial>, t: Axial)
    requires t in g && forall x :: x in tiles ==> x in g
    ensures tiles == [] ==> PoppedIds(g, seed, tiles + [t]) == {seed.id}
    ensures tiles != [] ==> PoppedIds(g, seed, tiles + [t]) == PoppedIds(g, seed, tiles) + {g[t].id}
  {
    var tiles' := tiles + [t];
    if tiles != [] {
      var A := set k | 1 <= k < |tiles'| :: g[tiles'[k]].id;
      var B := set k | 1 <= k < |tiles| :: g[tiles[k]].id;
      forall id | id in A ensures id in B + {g[t].id} {
        var k :| 1 <= k < |tiles'| && g[tiles'[k]].id == id;
        if k < |tiles| { assert tiles'[k] == tiles[k]; }
      }
      forall id | id in B ensures id in A {
        var k :| 1 <= k < |tiles| && g[tiles[k]].id == id;
        assert tiles'[k] == tiles[k];
      }
      assert g[tiles'[|tiles|]].id == g[t].id;
    }
  }

  lemma MapToAdd(byId0: map<string, ClusterId>, ids: set<string>, id: string, cid: ClusterId)
    ensures (byId0 + MapTo(ids, cid))[id := cid] == byId0 + MapTo(ids + {id}, cid)
  {
  }

  /** Popping an unvisited building, recording it and pushing its neighbours
      keeps the bookkeeping. */
  lemma FillAddBasic(g: map<Axial, Building>, seed: Building, visited0: set<Axial>,
                     byId0: map<string, ClusterId>, cid: ClusterId,
                     queue: seq<Building>, tiles: seq<Axial>, levels: seq<int>,
                     visited: set<Axial>, byId: map<string, ClusterId>, delta: int, out: seq<Building>)
    requires WellFormedMap(g)
    requires |queue| > 0 && queue[|queue| - 1].coord !in visited
    requires FillBasic(g, seed, visited0, byId0, cid, queue, tiles, levels, visited, byId)
    requires var cur := queue[|queue| - 1];
      Pushed(g, delta, seed.kind, cur, visited + {cur.coord}, queue[..|queue| - 1], out)
    ensures var cur := queue[|queue| - 1];
      FillBasic(g, seed, visited0, byId0, cid, out, tiles + [cur.coord], levels + [cur.level],
                visited + {cur.coord}, byId[cur.id := cid])
  {
    var cur, q0 := queue[|queue| - 1], queue[..|queue| - 1];
    assert queue == q0 + [cur];
    assert cur == seed || cur == g[cur.coord];
    assert cur.kind == seed.kind;
    FillAddTiles(g, visited0, tiles, visited, cur.coord);
    FillAddLevels(g, seed, tiles, levels, cur);
    FillAddQueue(g, seed, queue, tiles, visited, delta, out);
    PoppedIdsAppend(g, seed, tiles, cur.coord);
    assert PoppedIds(g, seed, tiles + [cur.coord]) == PoppedIds(g, seed, tiles) + {cur.id};
    MapToAdd(byId0, PoppedIds(g, seed, tiles), cur.id, cid);
  }

  /** Recording an unvisited coordinate of the map keeps the visited set,
      its size and the distinctness of the tiles in step. */
  lemma FillAddTiles(g: map<Axial, Building>, visited0: set<Axial>, tiles: seq<Axial>,
                     visited: set<Axial>, c: Axial)
    requires visited == visited0 + Elems(tiles) && |visited| == |visited0| + |tiles|
    requires NoDup(tiles) && (forall t :: t in tiles ==> t in g && t !in visited0)
    requires c in g && c !in visited
    ensures var tiles', visited' := tiles + [c], visited + {c};
      visited' == visited0 + Elems(tiles') && |visited'| == |visited0| + |tiles'|
      && NoDup(tiles') && (forall t :: t in tiles' ==> t in g && t !in visited0)
  {
    var tiles' := tiles + [c];
    assert Elems(tiles') == Elems(tiles) + {c};
    assert c !in tiles;
    NoDupSnoc(tiles, c);
  }

  lemma NoDupSnoc<T>(s: seq<T>, x: T)
    requires NoDup(s) && x !in s
    ensures NoDup(s + [x])
  {
    var s' := s + [x];
    forall i, j | 0 <= i < j < |s'| ensures s'[i] != s'[j] {
      assert s'[i] == s[i];
      if j < |s| { assert s'[j] == s[j]; }
    }
  }

  /** Recording the popped building keeps the levels aligned with the tiles. */
  lemma FillAddLevels(g: map<Axial, Building>, seed: Building, tiles: seq<Axial>, levels: seq<int>, cur: Building)
    requires |levels| == |tiles| && (forall t :: t in tiles ==> t in g)
    requires tiles != [] ==> tiles[0] == seed.coord && levels[0] == seed.level
    requires forall k :: 1 <= k < |tiles| ==> levels[k] == g[tiles[k]].level && g[tiles[k]].kind == seed.kind
    requires tiles == [] ==> cur == seed
    requires tiles != [] ==> cur.coord in g && cur == g[cur.coord] && cur.kind == seed.kind
    ensures var tiles', levels' := tiles + [cur.coord], levels + [cur.level];
      |levels'| == |tiles'| && tiles'[0] == seed.coord && levels'[0] == seed.level
      && (forall k :: 1 <= k < |tiles'| ==> levels'[k] == g[tiles'[k]].level && g[tiles'[k]].kind == seed.kind)
  {
    var tiles', levels' := tiles + [cur.coord], levels + [cur.level];
    forall k | 1 <= k < |tiles'| ensures levels'[k] == g[tiles'[k]].level && g[tiles'[k]].kind == seed.kind {
      if k < |tiles| { assert levels'[k] == levels[k] && tiles'[k] == tiles[k]; }
    }
  }

  /** The stack after the neighbour loop holds buildings of the map of the
      seed's kind. */
  lemma FillAddQueue(g: map<Axial, Building>, seed: Building, queue: seq<Building>, tiles: seq<Axial>,
                     visited: set<Axial>, delta: int, out: seq<Building>)
    requires |queue| > 0 && (tiles == [] ==> |queue| == 1)
    requires forall k :: 0 <= k < |queue| ==> queue[k].coord in g
    requires tiles != [] ==> forall k :: 0 <= k < |queue| ==> queue[k] == g[queue[k].coord] && queue[k].kind == seed.kind
    requires var cur := queue[|queue| - 1];
      Pushed(g, delta, seed.kind, cur, visited + {cur.coord}, queue[..|queue| - 1], out)
    ensures forall k :: 0 <= k < |out| ==> out[k].coord in g
    ensures forall k :: 0 <= k < |out| ==> out[k] == g[out[k].coord] && out[k].kind == seed.kind
  {
    var q0 := queue[..|queue| - 1];
    forall k | 0 <= k < |out| ensures out[k].coord in g && out[k] == g[out[k].coord] && out[k].kind == seed.kind {
      if k < |q0| {
        assert out[k] == q0[k] && q0[k] == queue[k];
      }
    }
  }

  /** ... and keeps the soundness and the frontier. */
  lemma FillAddFrontier(g: map<Axial, Building>, delta: int, seed: Building,
                        queue: seq<Building>, tiles: seq<Axial>, visited: set<Axial>, out: seq<Building>)
    requires WellFormedMap(g) && seed.coord in g && g[seed.coord] == seed
    requires |queue| > 0 && queue[|queue| - 1].coord !in visited
    requires forall k :: 0 <= k < |queue| ==> queue[k].coord in g
    requires tiles == [] ==> queue == [seed]
    requires tiles != [] ==> forall k :: 0 <= k < |queue| ==> queue[k] == g[queue[k].coord] && queue[k].kind == seed.kind
    requires Frontier(g, delta, seed.coord, queue, tiles, visited)
    requires var cur := queue[|queue| - 1];
      Pushed(g, delta, seed.kind, cur, visited + {cur.coord}, queue[..|queue| - 1], out)
    ensures var cur := queue[|queue| - 1];
      Frontier(g, delta, seed.coord, out, tiles + [cur.coord], visited + {cur.coord})
  {
    var cur := queue[|queue| - 1];
    assert cur == g[cur.coord] && cur.kind == seed.kind;
    FillAddReachable(g, delta, seed.coord, seed.kind, queue, visited + {cur.coord}, out);
    FillAddClosed(g, delta, seed.kind, queue, tiles, visited, out);
  }

  /** The pushed buildings are reachable from the seed. */
  lemma FillAddReachable(g: map<Axial, Building>, delta: int, s: Axial, kind: string,
                         queue: seq<Building>, visited: set<Axial>, out: seq<Building>)
    requires WellFormedMap(g) && |queue| > 0
    requires var cur := queue[|queue| - 1];
      cur.coord in g && cur == g[cur.coord] && cur.kind == kind
    requires forall k :: 0 <= k < |queue| ==> Reachable(g, delta, s, queue[k].coord)
    requires Pushed(g, delta, kind, queue[|queue| - 1], visited, queue[..|queue| - 1], out)
    ensures forall k :: 0 <= k < |out| ==> Reachable(g, delta, s, out[k].coord)
  {
    var cur, q0 := queue[|queue| - 1], queue[..|queue| - 1];
    assert Reachable(g, delta, s, cur.coord);
    forall k | 0 <= k < |out| ensures Reachable(g, delta, s, out[k].coord) {
      if k < |q0| {
        assert out[k] == q0[k] && q0[k] == queue[k];
      } else {
        assert Linked(g, delta, cur.coord, out[k].coord);
        ReachableStep(g, delta, s, cur.coord, out[k].coord);
      }
    }
  }

  /** Every compatible neighbour of a recorded tile is visited or queued. */
  lemma FillAddClosed(g: map<Axial, Building>, delta: int, kind: string,
                      queue: seq<Building>, tiles: seq<Axial>, visited: set<Axial>, out: seq<Building>)
    requires WellFormedMap(g) && |queue| > 0
    requires var cur := queue[|queue| - 1];
      cur.coord in g && cur == g[cur.coord] && cur.kind == kind && cur.coord !in visited
    requires forall t, n :: t in tiles && Linked(g, delta, t, n) ==> n in visited || (n in g && g[n] in queue)
    requires var cur := queue[|queue| - 1];
      Pushed(g, delta, kind, cur, visited + {cur.coord}, queue[..|queue| - 1], out)
    ensures var cur := queue[|queue| - 1];
      forall t, n :: t in tiles + [cur.coord] && Linked(g, delta, t, n) ==>
        n in visited + {cur.coord} || (n in g && g[n] in out)
  {
    var cur, q0 := queue[|queue| - 1], queue[..|queue| - 1];
    assert queue == q0 + [cur];
    var tiles', visited' := tiles + [cur.coord], visited + {cur.coord};
    forall t, n | t in tiles' && Linked(g, delta, t, n) ensures n in visited' || (n in g && g[n] in out) {
      if t == cur.coord {
        var j := AdjacentDirection(t, n);
        assert PushedIfCompatible(g, delta, kind, cur, visited', out, Add(cur.coord, NEIGHBORS[j]));
      } else {
        assert t in tiles;
        if n !in visited' {
          assert g[n] in q0 + [cur];
          assert g[n] != cur by { assert g[n].coord == n; }
          var k :| 0 <= k < |q0| && q0[k] == g[n];
          assert out[k] == g[n];
        }
      }
    }
  }

  lemma CardDecreases(keys: set<Axial>, visited: set<Axial>, x: Axial)
    requires x in keys && x !in visited
    ensures |keys - (visited + {x})| < |keys - visited|
  {
    assert keys - visited == (keys - (visited + {x})) + {x};
  }

  /** What the `while (queue.length)` loop for one seed achieves: the tiles
      are new, distinct and start at the seed; the levels are the seed's and
      then the map's; every popped building is mapped to `cid`; and, when the
      seed is the building the map holds and the coordinates visited before
      are closed under the compatibility relation, the tiles are exactly the
      seed's connected component. */
  ghost predicate Grown(g: map<Axial, Building>, delta: int, seed: Building, visited0: set<Axial>,
                        byId0: map<string, ClusterId>, cid: ClusterId,
                        tiles: seq<Axial>, levels: seq<int>, visited: set<Axial>, byId: map<string, ClusterId>) {
    visited == visited0 + Elems(tiles) && |visited| == |visited0| + |tiles|
    && |tiles| >= 1 && tiles[0] == seed.coord && NoDup(tiles)
    && (forall t :: t in tiles ==> t in g && t !in visited0)
    && |levels| == |tiles| && levels[0] == seed.level
    && (forall k :: 1 <= k < |tiles| ==> levels[k] == g[tiles[k]].level && g[tiles[k]].kind == seed.kind)
    && byId == byId0 + MapTo(PoppedIds(g, seed, tiles), cid)
    && (seed.coord in g && g[seed.coord] == seed && Closed(g, delta, visited0) ==>
          Elems(tiles) == Component(g, delta, seed.coord) && Closed(g, delta, visited))
  }

  /** The `while (queue.length)` loop for one seed. */
  method GrowCluster(g: map<Axial, Building>, delta: int, seed: Building, visited0: set<Axial>,
                     byId0: map<string, ClusterId>, cid: ClusterId)
    returns (tiles: seq<Axial>, levels: seq<int>, visited: set<Axial>, byId: map<string, ClusterId>)
    requires WellFormedMap(g)
    requires seed.coord in g && seed.coord !in visited0
    ensures Grown(g, delta, seed, visited0, byId0, cid, tiles, levels, visited, byId)
  {
    var queue := [seed];
    tiles, levels, visited, byId := [], [], visited0, byId0;
    var kind := seed.kind;
    FillInit(g, delta, seed, visited0, byId0, cid);
    while |queue| > 0
      invariant FillInv(g, delta, seed, visited0, byId0, cid, queue, tiles, levels, visited, byId)
      decreases |g.Keys - visited|, |queue|
    {
      var cur := queue[|queue| - 1];
      if cur.coord !in visited {
        CardDecreases(g.Keys, visited, cur.coord);
        var out := PushNeighbors(g, delta, kind, cur, visited + {cur.coord}, queue[..|queue| - 1]);
        FillAdd(g, delta, seed, visited0, byId0, cid, queue, tiles, levels, visited, byId, out);
        visited := visited + {cur.coord};
        tiles := tiles + [cur.coord];
        levels := levels + [cur.level];
        byId := byId[cur.id := cid];
        queue := out;
      } else {
        FillSkip(g, delta, seed, visited0, byId0, cid, queue, tiles, levels, visited, byId);
        queue := queue[..|queue| - 1];
      }
    }
    FillDone(g, delta, seed, visited0, byId0, cid, tiles, levels, visited, byId);
  }

  /** The invariant holds with only the seed queued. */
  lemma FillInit(g: map<Axial, Building>, delta: int, seed: Building, visited0: set<Axial>,
                 byId0: map<string, ClusterId>, cid: ClusterId)
    requires seed.coord in g && seed.coord !in visited0
    ensures FillInv(g, delta, seed, visited0, byId0, cid, [seed], [], [], visited0, byId0)
  {
    ReachableRefl(g, delta, seed.coord);
    assert Elems<Axial>([]) == {};
    assert byId0 + MapTo({}, cid) == byId0;
  }

  /** One pop of an unvisited building keeps the loop invariant. */
  lemma FillAdd(g: map<Axial, Building>, delta: int, seed: Building, visited0: set<Axial>,
                byId0: map<string, ClusterId>, cid: ClusterId,
                queue: seq<Building>, tiles: seq<Axial>, levels: seq<int>,
                visited: set<Axial>, byId: map<string, ClusterId>, out: seq<Building>)
    requires WellFormedMap(g)
    requires |queue| > 0 && queue[|queue| - 1].coord !in visited
    requires FillInv(g, delta, seed, visited0, byId0, cid, queue, tiles, levels, visited, byId)
    requires var cur := queue[|queue| - 1];
      Pushed(g, delta, seed.kind, cur, visited + {cur.coord}, queue[..|queue| - 1], out)
    ensures var cur := queue[|queue| - 1];
      FillInv(g, delta, seed, visited0, byId0, cid, out, tiles + [cur.coord], levels + [cur.level],
              visited + {cur.coord}, byId[cur.id := cid])
  {
    FillAddBasic(g, seed, visited0, byId0, cid, queue, tiles, levels, visited, byId, delta, out);
    if g[seed.coord] == seed {
      FillAddFrontier(g, delta, seed, queue, tiles, visited, out);
    }
  }

  /** An empty queue leaves what `Grown` states. */
  lemma FillDone(g: map<Axial, Building>, delta: int, seed: Building, visited0: set<Axial>,
                 byId0: map<string, ClusterId>, cid: ClusterId,
                 tiles: seq<Axial>, levels: seq<int>, visited: set<Axial>, byId: map<string, ClusterId>)
    requires WellFormedMap(g)
    requires FillInv(g, delta, seed, visited0, byId0, cid, [], tiles, levels, visited, byId)
    ensures Grown(g, delta, seed, visited0, byId0, cid, tiles, levels, visited, byId)
  {
    if g[seed.coord] == seed && Closed(g, delta, visited0) {
      ClosureAfterFill(g, delta, seed.coord, visited0, tiles, visited);
    }
  }

  lemma ClosureAfterFill(g: map<Axial, Building>, delta: int, s: Axial, visited0: set<Axial>,
                         tiles: seq<Axial>, visited: set<Axial>)
    requires visited == visited0 + Elems(tiles) && Closed(g, delta, visited0)
    requires s in tiles && forall t :: t in tiles ==> t !in visited0
    requires forall t :: t in tiles ==> Reachable(g, delta, s, t)
    requires forall t, n :: t in tiles && Linked(g, delta, t, n) ==> n in visited
    ensures Elems(tiles) == Component(g, delta, s) && Closed(g, delta, visited)
  {
    var T := Elems(tiles);
    assert Closed(g, delta, T) by {
      forall a, b | a in T && Linked(g, delta, a, b) ensures b in T {
        if b in visited0 {
          LinkedSymmetric(g, delta, a, b);
        }
      }
    }
    forall c | c in Component(g, delta, s) ensures c in T {
      var p :| IsPath(g, delta, p) && p[0] == s && p[|p| - 1] == c;
      PathStaysIn(g, delta, T, p);
    }
    forall t | t in T ensures t in Component(g, delta, s) {
      ReachableEndsIn(g, delta, s, t);
    }
  }

  // ---------------------------------------------------------------------
  // The outer loop.

  /** The sum of the clusters' tile counts. */
  function TotalTiles(cs: seq<Cluster>): int {
    if cs == [] then 0 else TotalTiles(cs[..|cs| - 1]) + |cs[|cs| - 1].tiles|
  }

  lemma {:induction false} TotalTilesAppend(cs: seq<Cluster>, c: Cluster)
    ensures TotalTiles(cs + [c]) == TotalTiles(cs) + |c.tiles|
  {
    assert (cs + [c])[..|cs|] == cs;
  }

  /** What every cluster satisfies: its tiles are occupied, distinct and
      start at the seed; its id is made of its kind, its seed and its salt;
      its centroid is the rounded mean of its tiles. */
  ghost predicate WellShaped(g: map<Axial, Building>, c: Cluster, salt: string) {
    |c.tiles| >= 1 && NoDup(c.tiles) && (forall t :: t in c.tiles ==> t in g)
    && c.id == ClusterId(c.kind, c.tiles[0], salt)
    && c.centroid == Centroid(c.tiles)
  }

  /** What a cluster satisfies when no two buildings share a coordinate: its
      tiles are the connected component of its seed, every member has the
      cluster's kind, and the level is the rounded mean of the members' levels. */
  ghost predicate IsComponent(g: map<Axial, Building>, delta: int, c: Cluster) {
    |c.tiles| >= 1 && (forall t :: t in c.tiles ==> t in g)
    && Elems(c.tiles) == Component(g, delta, c.tiles[0])
    && (forall t :: t in c.tiles ==> g[t].kind == c.kind)
    && c.level == RoundedMean(LevelsAt(g, c.tiles), |c.tiles|)
  }

  ghost predicate AllShaped(g: map<Axial, Building>, cs: seq<Cluster>, salt: nat -> string) {
    forall k :: 0 <= k < |cs| ==> WellShaped(g, cs[k], salt(k))
  }

  ghost predicate AllComponents(g: map<Axial, Building>, delta: int, cs: seq<Cluster>) {
    forall k :: 0 <= k < |cs| ==> IsComponent(g, delta, cs[k])
  }

  /** `owner` records which cluster holds each visited coordinate, and every
      cluster's tiles are owned by it. */
  ghost predicate Owned(visited: set<Axial>, owner: map<Axial, nat>, cs: seq<Cluster>) {
    owner.Keys == visited
    && (forall c :: c in visited ==> owner[c] < |cs| && c in cs[owner[c]].tiles)
    && (forall k, t :: 0 <= k < |cs| && t in cs[k].tiles ==> t in owner && owner[t] == k)
  }

  function Assign(tiles: seq<Axial>, k: nat): map<Axial, nat> {
    map t | t in Elems(tiles) :: k
  }

  /** The ids of the buildings the map holds at the given coordinates. */
  ghost function IdsAt(g: map<Axial, Building>, s: set<Axial>): set<string>
    requires s <= g.Keys
  {
    set t | t in s :: g[t].id
  }

  /** Every visited building's id is mapped to the id of the cluster owning it. */
  ghost predicate IdsMapped(g: map<Axial, Building>, visited: set<Axial>, owner: map<Axial, nat>,
                            cs: seq<Cluster>, byId: map<string, ClusterId>) {
    forall t :: t in visited ==>
      t in g && t in owner && owner[t] < |cs| && g[t].id in byId && byId[g[t].id] == cs[owner[t]].id
  }

  /** No two coordinates of the map hold buildings with the same id. */
  ghost predicate DistinctIds(g: map<Axial, Building>) {
    forall a, b :: a in g && b in g && g[a].id == g[b].id ==> a == b
  }

  /** The invariant of the outer `for (const b of buildings)` loop after `i`
      buildings. `uc` and `ui` stand for "no two buildings share a coordinate"
      and "no two buildings share an id". */
  ghost predicate OuterInv(g: map<Axial, Building>, delta: int, bs: seq<Building>, i: int, salt: nat -> string,
                           uc: bool, ui: bool, visited: set<Axial>, owner: map<Axial, nat>, clusters: seq<Cluster>,
                           byId: map<string, ClusterId>) {
    0 <= i <= |bs| && visited <= g.Keys
    && (forall j :: 0 <= j < i ==> bs[j].coord in visited)
    && Owned(visited, owner, clusters)
    && AllShaped(g, clusters, salt)
    && |visited| == TotalTiles(clusters)
    && (uc ==> Closed(g, delta, visited) && AllComponents(g, delta, clusters) && byId.Keys == IdsAt(g, visited))
    && (uc && ui ==> IdsMapped(g, visited, owner, clusters, byId))
  }

  lemma {:induction false} OwnedAdd(visited: set<Axial>, owner: map<Axial, nat>, cs: seq<Cluster>, c: Cluster)
    requires Owned(visited, owner, cs)
    requires forall t :: t in c.tiles ==> t !in visited
    ensures Owned(visited + Elems(c.tiles), owner + Assign(c.tiles, |cs|), cs + [c])
  {
    var n := |cs|;
    var owner', cs' := owner + Assign(c.tiles, n), cs + [c];
    forall x | x in visited + Elems(c.tiles) ensures owner'[x] < |cs'| && x in cs'[owner'[x]].tiles {
      if x in visited {
        assert x !in Elems(c.tiles);
        assert cs'[owner[x]] == cs[owner[x]];
      }
    }
    forall k, t | 0 <= k < |cs'| && t in cs'[k].tiles ensures t in owner' && owner'[t] == k {
      if k < n {
        assert cs'[k] == cs[k];
        assert t !in Elems(c.tiles);
      }
    }
  }

  lemma {:induction false} AllShapedAdd(g: map<Axial, Building>, cs: seq<Cluster>, salt: nat -> string, c: Cluster)
    requires AllShaped(g, cs, salt) && WellShaped(g, c, salt(|cs|))
    ensures AllShaped(g, cs + [c], salt)
  {
    forall k | 0 <= k < |cs| + 1 ensures WellShaped(g, (cs + [c])[k], salt(k)) {
      if k < |cs| { assert (cs + [c])[k] == cs[k]; }
    }
  }

  lemma {:induction false} AllComponentsAdd(g: map<Axial, Building>, delta: int, cs: seq<Cluster>, c: Cluster)
    requires AllComponents(g, delta, cs) && IsComponent(g, delta, c)
    ensures AllComponents(g, delta, cs + [c])
  {
    forall k | 0 <= k < |cs| + 1 ensures IsComponent(g, delta, (cs + [c])[k]) {
      if k < |cs| { assert (cs + [c])[k] == cs[k]; }
    }
  }

  /** The cluster the outer loop builds from one flood fill. */
  function MakeCluster(cid: ClusterId, kind: string, tiles: seq<Axial>, levels: seq<int>): Cluster
    requires |tiles| >= 1
  {
    Cluster(cid, kind, RoundedMean(levels, Max(1, |levels|)), tiles, Centroid(tiles))
  }

  lemma {:induction false} GrownShaped(g: map<Axial, Building>, delta: int, seed: Building, visited0: set<Axial>,
                    byId0: map<string, ClusterId>, cid: ClusterId, salt: string,
                    tiles: seq<Axial>, levels: seq<int>, visited: set<Axial>, byId: map<string, ClusterId>)
    requires cid == ClusterId(seed.kind, seed.coord, salt)
    requires Grown(g, delta, seed, visited0, byId0, cid, tiles, levels, visited, byId)
    ensures WellShaped(g, MakeCluster(cid, seed.kind, tiles, levels), salt)
  {
  }

  lemma {:induction false} GrownComponent(g: map<Axial, Building>, delta: int, seed: Building, visited0: set<Axial>,
                       byId0: map<string, ClusterId>, cid: ClusterId,
                       tiles: seq<Axial>, levels: seq<int>, visited: set<Axial>, byId: map<string, ClusterId>)
    requires seed.coord in g && g[seed.coord] == seed && Closed(g, delta, visited0)
    requires Grown(g, delta, seed, visited0, byId0, cid, tiles, levels, visited, byId)
    ensures IsComponent(g, delta, MakeCluster(cid, seed.kind, tiles, levels))
  {
    assert LevelsAt(g, tiles) == levels;
    forall t | t in tiles ensures g[t].kind == seed.kind {
      var k :| 0 <= k < |tiles| && tiles[k] == t;
    }
  }

  /** The ids of the buildings the map holds at the given tiles. */
  ghost function TileIds(g: map<Axial, Building>, tiles: seq<Axial>): set<string>
    requires forall t :: t in tiles ==> t in g
  {
    set t | t in tiles :: g[t].id
  }

  lemma {:induction false} PoppedIdsAll(g: map<Axial, Building>, seed: Building, tiles: seq<Axial>)
    requires forall t :: t in tiles ==> t in g
    requires |tiles| >= 1 && tiles[0] == seed.coord && g[seed.coord] == seed
    ensures PoppedIds(g, seed, tiles) == TileIds(g, tiles)
  {
    forall id | id in TileIds(g, tiles) ensures id in PoppedIds(g, seed, tiles) {
      var t :| t in tiles && g[t].id == id;
      var k :| 0 <= k < |tiles| && tiles[k] == t;
      if k != 0 { assert g[tiles[k]].id in set k' | 1 <= k' < |tiles| :: g[tiles[k']].id; }
    }
    forall id | id in PoppedIds(g, seed, tiles) ensures id in TileIds(g, tiles) {
      if id != seed.id {
        var k :| 1 <= k < |tiles| && g[tiles[k]].id == id;
        assert tiles[k] in tiles;
      } else {
        assert tiles[0] in tiles;
      }
    }
  }

  lemma {:induction false} IdsAtUnion(g: map<Axial, Building>, s: set<Axial>, tiles: seq<Axial>)
    requires s <= g.Keys && forall t :: t in tiles ==> t in g
    ensures IdsAt(g, s + Elems(tiles)) == IdsAt(g, s) + TileIds(g, tiles)
  {
    forall id | id in IdsAt(g, s + Elems(tiles)) ensures id in IdsAt(g, s) + TileIds(g, tiles) {
      var t :| t in s + Elems(tiles) && g[t].id == id;
    }
  }

  lemma {:induction false} MapToKeys(m: map<string, ClusterId>, ids: set<string>, v: ClusterId)
    ensures (m + MapTo(ids, v)).Keys == m.Keys + ids
  {
  }

  lemma {:induction false} IdsMappedAdd(g: map<Axial, Building>, visited: set<Axial>, owner: map<Axial, nat>,
                     cs: seq<Cluster>, byId: map<string, ClusterId>, c: Cluster)
    requires IdsMapped(g, visited, owner, cs, byId)
    requires DistinctIds(g)
    requires forall t :: t in c.tiles ==> t in g && t !in visited
    ensures IdsMapped(g, visited + Elems(c.tiles), owner + Assign(c.tiles, |cs|), cs + [c],
                      byId + MapTo(TileIds(g, c.tiles), c.id))
  {
    var owner', cs', byId' := owner + Assign(c.tiles, |cs|), cs + [c], byId + MapTo(TileIds(g, c.tiles), c.id);
    forall t | t in visited + Elems(c.tiles)
      ensures t in g && t in owner' && owner'[t] < |cs'| && g[t].id in byId' && byId'[g[t].id] == cs'[owner'[t]].id
    {
      if t in visited {
        assert t !in Elems(c.tiles);
        assert g[t].id !in TileIds(g, c.tiles);
        assert cs'[owner[t]] == cs[owner[t]];
      } else {
        assert g[t].id in TileIds(g, c.tiles);
      }
    }
  }

  /** A building whose coordinate is already visited is skipped. */
  lemma {:induction false} OuterSkip(g: map<Axial, Building>, delta: int, bs: seq<Building>, i: int, salt: nat -> string,
                                     uc: bool, ui: bool, visited: set<Axial>, owner: map<Axial, nat>, clusters: seq<Cluster>,
                                     byId: map<string, ClusterId>)
    requires 0 <= i < |bs| && bs[i].coord in visited
    requires OuterInv(g, delta, bs, i, salt, uc, ui, visited, owner, clusters, byId)
    ensures OuterInv(g, delta, bs, i + 1, salt, uc, ui, visited, owner, clusters, byId)
  {
  }

  /** One new cluster keeps the outer invariant. */
  lemma {:induction false} OuterAdd(g: map<Axial, Building>, delta: int, bs: seq<Building>, i: int, salt: nat -> string,
                                    uc: bool, ui: bool, visited: set<Axial>, owner: map<Axial, nat>, clusters: seq<Cluster>,
                                    byId: map<string, ClusterId>, cid: ClusterId,
                                    tiles: seq<Axial>, levels: seq<int>, visited': set<Axial>, byId': map<string, ClusterId>)
    requires 0 <= i < |bs| && bs[i].coord !in visited
    requires uc ==> bs[i].coord in g && g[bs[i].coord] == bs[i]
    requires ui ==> DistinctIds(g)
    requires OuterInv(g, delta, bs, i, salt, uc, ui, visited, owner, clusters, byId)
    requires cid == ClusterId(bs[i].kind, bs[i].coord, salt(|clusters|))
    requires Grown(g, delta, bs[i], visited, byId, cid, tiles, levels, visited', byId')
    ensures OuterInv(g, delta, bs, i + 1, salt, uc, ui, visited', owner + Assign(tiles, |clusters|),
                     clusters + [MakeCluster(cid, bs[i].kind, tiles, levels)], byId')
  {
    var seed := bs[i];
    var c := MakeCluster(cid, seed.kind, tiles, levels);
    assert c.tiles == tiles;
    OwnedAdd(visited, owner, clusters, c);
    GrownShaped(g, delta, seed, visited, byId, cid, salt(|clusters|), tiles, levels, visited', byId');
    AllShapedAdd(g, clusters, salt, c);
    TotalTilesAppend(clusters, c);
    assert seed.coord in visited' by { assert tiles[0] in tiles; }
    CoveredAdd(bs, i, visited, visited');
    assert visited' <= g.Keys by {
      forall t | t in visited' ensures t in g {
        if t !in visited {
          assert t in Elems(tiles);
        }
      }
    }
    assert Owned(visited', owner + Assign(tiles, |clusters|), clusters + [c]);
    assert AllShaped(g, clusters + [c], salt);
    assert |visited'| == |visited| + |tiles|;
    assert TotalTiles(clusters + [c]) == TotalTiles(clusters) + |tiles|;
    assert |visited'| == TotalTiles(clusters + [c]);
    assert 0 <= i + 1 <= |bs|;
    if uc {
      OuterAddComponent(g, delta, bs, i, salt, ui, visited, owner, clusters, byId, cid, tiles, levels, visited', byId');
    }
    assert !uc ==> OuterInv(g, delta, bs, i + 1, salt, uc, ui, visited', owner + Assign(tiles, |clusters|), clusters + [c], byId');
  }

  /** The first `i + 1` buildings are visited once the `i`-th one is. */
  lemma CoveredAdd(bs: seq<Building>, i: int, visited: set<Axial>, visited': set<Axial>)
    requires 0 <= i < |bs| && visited <= visited' && bs[i].coord in visited'
    requires forall j :: 0 <= j < i ==> bs[j].coord in visited
    ensures forall j :: 0 <= j < i + 1 ==> bs[j].coord in visited'
  {
  }

  /** The part of `OuterAdd` that holds when coordinates are unique. */
  lemma {:induction false} OuterAddComponent(g: map<Axial, Building>, delta: int, bs: seq<Building>, i: int, salt: nat -> string,
                                             ui: bool, visited: set<Axial>, owner: map<Axial, nat>, clusters: seq<Cluster>,
                                             byId: map<string, ClusterId>, cid: ClusterId,
                                             tiles: seq<Axial>, levels: seq<int>, visited': set<Axial>, byId': map<string, ClusterId>)
    requires 0 <= i < |bs| && bs[i].coord !in visited
    requires bs[i].coord in g && g[bs[i].coord] == bs[i]
    requires ui ==> DistinctIds(g)
    requires visited <= g.Keys
    requires Closed(g, delta, visited) && AllComponents(g, delta, clusters) && byId.Keys == IdsAt(g, visited)
    requires ui ==> IdsMapped(g, visited, owner, clusters, byId)
    requires Grown(g, delta, bs[i], visited, byId, cid, tiles, levels, visited', byId')
    ensures Closed(g, delta, visited') && visited' <= g.Keys
    ensures AllComponents(g, delta, clusters + [MakeCluster(cid, bs[i].kind, tiles, levels)])
    ensures byId'.Keys == IdsAt(g, visited')
    ensures ui ==> IdsMapped(g, visited', owner + Assign(tiles, |clusters|),
                             clusters + [MakeCluster(cid, bs[i].kind, tiles, levels)], byId')
  {
    var seed := bs[i];
    var c := MakeCluster(cid, seed.kind, tiles, levels);
    GrownComponent(g, delta, seed, visited, byId, cid, tiles, levels, visited', byId');
    AllComponentsAdd(g, delta, clusters, c);
    PoppedIdsAll(g, seed, tiles);
    IdsAtUnion(g, visited, tiles);
    MapToKeys(byId, TileIds(g, tiles), cid);
    assert byId'.Keys == IdsAt(g, visited');
    if ui {
      IdsMappedAdd(g, visited, owner, clusters, byId, c);
    }
  }


  lemma {:induction false} OwnedDisjoint(visited: set<Axial>, owner: map<Axial, nat>, cs: seq<Cluster>)
    requires Owned(visited, owner, cs)
    ensures forall k1, k2, t :: (0 <= k1 < |cs| && 0 <= k2 < |cs|
      && t in cs[k1].tiles && t in cs[k2].tiles) ==> k1 == k2
  {
    forall k1, k2, t | 0 <= k1 < |cs| && 0 <= k2 < |cs| && t in cs[k1].tiles && t in cs[k2].tiles
      ensures k1 == k2
    {
      assert owner[t] == k1;
    }
  }

  /** Distinct clusters have distinct seeds, hence distinct ids. */
  lemma {:induction false} OwnedDistinctIds(g: map<Axial, Building>, visited: set<Axial>, owner: map<Axial, nat>,
                                            cs: seq<Cluster>, salt: nat -> string)
    requires Owned(visited, owner, cs) && AllShaped(g, cs, salt)
    ensures forall k1, k2 :: 0 <= k1 < k2 < |cs| ==> cs[k1].id != cs[k2].id
  {
    forall k1, k2 | 0 <= k1 < k2 < |cs| ensures cs[k1].id != cs[k2].id {
      SeedOf(g, cs, salt, k1);
      SeedOf(g, cs, salt, k2);
      var t1, t2 := cs[k1].tiles[0], cs[k2].tiles[0];
      assert t1 in cs[k1].tiles && owner[t1] == k1;
      assert t2 in cs[k2].tiles && owner[t2] == k2;
    }
  }

  lemma {:induction false} SeedOf(g: map<Axial, Building>, cs: seq<Cluster>, salt: nat -> string, k: int)
    requires AllShaped(g, cs, salt) && 0 <= k < |cs|
    ensures |cs[k].tiles| >= 1 && cs[k].id.seed == cs[k].tiles[0]
  {
    assert WellShaped(g, cs[k], salt(k));
  }

  /** Some cluster holds the coordinate. */
  ghost predicate InSomeCluster(cs: seq<Cluster>, c: Axial) {
    exists k :: 0 <= k < |cs| && c in cs[k].tiles
  }

  lemma {:induction false} OwnedCovers(bs: seq<Building>, visited: set<Axial>, owner: map<Axial, nat>, cs: seq<Cluster>)
    requires Owned(visited, owner, cs)
    requires forall j :: 0 <= j < |bs| ==> bs[j].coord in visited
    ensures forall i :: 0 <= i < |bs| ==> InSomeCluster(cs, bs[i].coord)
  {
    forall i | 0 <= i < |bs| ensures InSomeCluster(cs, bs[i].coord) {
      var c := bs[i].coord;
      var k := owner[c];
      assert 0 <= k < |cs| && c in cs[k].tiles;
    }
  }

  lemma {:induction false} VisitedAll(g: map<Axial, Building>, bs: seq<Building>, visited: set<Axial>)
    requires g.Keys == Coords(bs) && visited <= g.Keys
    requires forall j :: 0 <= j < |bs| ==> bs[j].coord in visited
    ensures visited == g.Keys
  {
    forall c | c in g.Keys ensures c in visited {
      var b :| b in bs && b.coord == c;
      var j :| 0 <= j < |bs| && bs[j] == b;
    }
  }

  lemma {:induction false} IdsAtAll(g: map<Axial, Building>, bs: seq<Building>)
    requires g.Keys == Coords(bs) && forall c :: c in g ==> g[c] in bs
    requires forall j :: 0 <= j < |bs| ==> g[bs[j].coord] == bs[j]
    ensures IdsAt(g, g.Keys) == BuildingIds(bs)
  {
    forall id | id in IdsAt(g, g.Keys) ensures id in BuildingIds(bs) {
      var t :| t in g.Keys && g[t].id == id;
      assert g[t] in bs;
    }
    forall id | id in BuildingIds(bs) ensures id in IdsAt(g, g.Keys) {
      var b :| b in bs && b.id == id;
      var j :| 0 <= j < |bs| && bs[j] == b;
      assert bs[j].coord in Coords(bs);
      assert g[bs[j].coord].id == id;
    }
  }

  lemma {:induction false} IdsMappedAll(g: map<Axial, Building>, bs: seq<Building>, visited: set<Axial>,
                                        owner: map<Axial, nat>, cs: seq<Cluster>, byId: map<string, ClusterId>)
    requires Owned(visited, owner, cs) && IdsMapped(g, visited, owner, cs, byId)
    requires forall j :: 0 <= j < |bs| ==> bs[j].coord in g && g[bs[j].coord] == bs[j]
    ensures forall i, k :: (0 <= i < |bs| && 0 <= k < |cs| && bs[i].coord in cs[k].tiles) ==> byId[bs[i].id] == cs[k].id
  {
    forall i, k | 0 <= i < |bs| && 0 <= k < |cs| && bs[i].coord in cs[k].tiles
      ensures byId[bs[i].id] == cs[k].id
    {
      assert g[bs[i].coord] == bs[i];
    }
  }

  /** `recomputeClusters(buildings, maxLevelDelta)`. `salt(k)` stands for the
      random suffix drawn for the `k`-th cluster. */
  method RecomputeClusters(bs: seq<Building>, maxLevelDelta: int, salt: nat -> string)
    returns (clusters: seq<Cluster>, byBuildingId: map<string, ClusterId>)
    ensures AllShaped(ByCoord(bs), clusters, salt)
    ensures forall k1, k2, t :: (0 <= k1 < |clusters| && 0 <= k2 < |clusters|
      && t in clusters[k1].tiles && t in clusters[k2].tiles) ==> k1 == k2
    ensures forall k1, k2 :: 0 <= k1 < k2 < |clusters| ==> clusters[k1].id != clusters[k2].id
    ensures forall i :: 0 <= i < |bs| ==> InSomeCluster(clusters, bs[i].coord)
    ensures TotalTiles(clusters) == |Coords(bs)|
    ensures UniqueCoords(bs) ==> TotalTiles(clusters) == |bs|
    ensures UniqueCoords(bs) ==> AllComponents(ByCoord(bs), maxLevelDelta, clusters)
    ensures UniqueCoords(bs) ==> byBuildingId.Keys == BuildingIds(bs)
    ensures UniqueCoords(bs) && UniqueIds(bs) ==> (forall i, k ::
      (0 <= i < |bs| && 0 <= k < |clusters| && bs[i].coord in clusters[k].tiles) ==> byBuildingId[bs[i].id] == clusters[k].id)
  {
    var g := BuildByCoord(bs);
    ghost var uc, ui := UniqueCoords(bs), UniqueIds(bs);
    MapFacts(bs, g);
    var visited;
    ghost var owner;
    clusters, byBuildingId, visited, owner := ClusterAll(g, maxLevelDelta, bs, salt, uc, ui);
    Finish(g, maxLevelDelta, bs, salt, uc, ui, visited, owner, clusters, byBuildingId);
    if uc {
      FinishUnique(g, maxLevelDelta, bs, salt, ui, owner, clusters, byBuildingId);
    }
  }

  /** What the outer loop needs of the coordinate map. */
  lemma {:induction false} MapFacts(bs: seq<Building>, g: map<Axial, Building>)
    requires g == ByCoord(bs)
    ensures WellFormedMap(g) && g.Keys == Coords(bs) && (forall c :: c in g ==> g[c] in bs)
    ensures forall j :: 0 <= j < |bs| ==> bs[j].coord in g
    ensures UniqueCoords(bs) ==> |g.Keys| == |bs| && forall j :: 0 <= j < |bs| ==> g[bs[j].coord] == bs[j]
    ensures UniqueIds(bs) ==> DistinctIds(g)
  {
    forall j | 0 <= j < |bs| ensures bs[j].coord in g {
      assert bs[j] in bs;
    }
    if UniqueCoords(bs) { ByCoordUnique(bs); }
    if UniqueIds(bs) { ByCoordIds(bs); }
  }

  /** The consequences of the outer invariant once every building is processed. */
  lemma {:induction false} Finish(g: map<Axial, Building>, delta: int, bs: seq<Building>, salt: nat -> string,
                                  uc: bool, ui: bool, visited: set<Axial>, owner: map<Axial, nat>,
                                  clusters: seq<Cluster>, byBuildingId: map<string, ClusterId>)
    requires g.Keys == Coords(bs)
    requires OuterInv(g, delta, bs, |bs|, salt, uc, ui, visited, owner, clusters, byBuildingId)
    ensures visited == g.Keys
    ensures forall k1, k2, t :: (0 <= k1 < |clusters| && 0 <= k2 < |clusters|
      && t in clusters[k1].tiles && t in clusters[k2].tiles) ==> k1 == k2
    ensures forall k1, k2 :: 0 <= k1 < k2 < |clusters| ==> clusters[k1].id != clusters[k2].id
    ensures forall i :: 0 <= i < |bs| ==> InSomeCluster(clusters, bs[i].coord)
    ensures TotalTiles(clusters) == |Coords(bs)|
  {
    VisitedAll(g, bs, visited);
    OwnedDisjoint(visited, owner, clusters);
    OwnedDistinctIds(g, visited, owner, clusters, salt);
    OwnedCovers(bs, visited, owner, clusters);
  }

  /** ... and, without shared coordinates, the id map. */
  lemma {:induction false} FinishUnique(g: map<Axial, Building>, delta: int, bs: seq<Building>, salt: nat -> string,
                                        ui: bool, owner: map<Axial, nat>,
                                        clusters: seq<Cluster>, byBuildingId: map<string, ClusterId>)
    requires g.Keys == Coords(bs) && (forall c :: c in g ==> g[c] in bs)
    requires forall j :: 0 <= j < |bs| ==> g[bs[j].coord] == bs[j]
    requires OuterInv(g, delta, bs, |bs|, salt, true, ui, g.Keys, owner, clusters, byBuildingId)
    ensures byBuildingId.Keys == BuildingIds(bs)
    ensures ui ==> (forall i, k ::
      (0 <= i < |bs| && 0 <= k < |clusters| && bs[i].coord in clusters[k].tiles) ==> byBuildingId[bs[i].id] == clusters[k].id)
  {
    IdsAtAll(g, bs);
    if ui { IdsMappedAll(g, bs, g.Keys, owner, clusters, byBuildingId); }
  }

  /** The `for (const b of buildings)` loop of `recomputeClusters`. */
  method ClusterAll(g: map<Axial, Building>, delta: int, bs: seq<Building>, salt: nat -> string,
                    ghost uc: bool, ghost ui: bool)
    returns (clusters: seq<Cluster>, byId: map<string, ClusterId>, visited: set<Axial>, ghost owner: map<Axial, nat>)
    requires WellFormedMap(g)
    requires forall j :: 0 <= j < |bs| ==> bs[j].coord in g
    requires uc ==> forall j :: 0 <= j < |bs| ==> g[bs[j].coord] == bs[j]
    requires ui ==> DistinctIds(g)
    ensures OuterInv(g, delta, bs, |bs|, salt, uc, ui, visited, owner, clusters, byId)
  {
    visited := {};
    clusters, byId := [], map[];
    owner := map[];
    for i := 0 to |bs|
      invariant OuterInv(g, delta, bs, i, salt, uc, ui, visited, owner, clusters, byId)
    {
      var b := bs[i];
      if b.coord !in visited {
        var cid := ClusterId(b.kind, b.coord, salt(|clusters|));
        var tiles, levels, visited', byId' := GrowCluster(g, delta, b, visited, byId, cid);
        OuterAdd(g, delta, bs, i, salt, uc, ui, visited, owner, clusters, byId, cid, tiles, levels, visited', byId');
        owner := owner + Assign(tiles, |clusters|);
        clusters := clusters + [MakeCluster(cid, b.kind, tiles, levels)];
        visited := visited';
        byId := byId';
      } else {
        OuterSkip(g, delta, bs, i, salt, uc, ui, visited, owner, clusters, byId);
      }
    }
  }

  // ---------------------------------------------------------------------
  // What the clusters are.

  /** In a cluster that is a connected component, an occupied coordinate joins
      a member's cluster exactly when the two are connected. */
  lemma {:induction false} SameClusterIffReachable(g: map<Axial, Building>, delta: int, c: Cluster, a: Axial, b: Axial)
    requires IsComponent(g, delta, c) && a in c.tiles
    ensures b in c.tiles <==> Reachable(g, delta, a, b)
  {
    var s := c.tiles[0];
    assert a in Elems(c.tiles);
    assert Reachable(g, delta, s, a);
    if b in c.tiles {
      assert b in Elems(c.tiles);
      ReachableSymmetric(g, delta, s, a);
      ReachableTransitive(g, delta, a, s, b);
    }
    if Reachable(g, delta, a, b) {
      ReachableTransitive(g, delta, s, a, b);
      ReachableEndsIn(g, delta, a, b);
      assert b in Component(g, delta, s);
    }
  }

  /** Two adjacent buildings of one kind whose levels differ by at most
      `delta` always land in the same cluster. */
  lemma {:induction false} LinkedSameCluster(g: map<Axial, Building>, delta: int, c: Cluster, a: Axial, b: Axial)
    requires IsComponent(g, delta, c) && a in c.tiles && Linked(g, delta, a, b)
    ensures b in c.tiles
  {
    ReachableRefl(g, delta, a);
    ReachableStep(g, delta, a, a, b);
    SameClusterIffReachable(g, delta, c, a, b);
  }

  lemma {:induction false} ComponentOfMember(g: map<Axial, Building>, delta: int, c: Cluster, a: Axial)
    requires IsComponent(g, delta, c) && a in c.tiles
    ensures Elems(c.tiles) == Component(g, delta, a)
  {
    forall b | b in Elems(c.tiles) ensures b in Component(g, delta, a) {
      SameClusterIffReachable(g, delta, c, a, b);
      ReachableEndsIn(g, delta, a, b);
    }
    forall b | b in Component(g, delta, a) ensures b in Elems(c.tiles) {
      SameClusterIffReachable(g, delta, c, a, b);
    }
  }

  /** The tile sets of the clusters. */
  ghost function TileSets(cs: seq<Cluster>): set<set<Axial>> {
    set k | 0 <= k < |cs| :: Elems(cs[k].tiles)
  }

  /** The connected components of the compatibility graph. */
  ghost function Components(g: map<Axial, Building>, delta: int): set<set<Axial>> {
    set c | c in g.Keys :: Component(g, delta, c)
  }

  /** Clusters that are components and cover the map are exactly the connected
      components: the partition depends on the buildings and `delta` alone,
      not on the random salts or the order clusters are found in. */
  lemma {:induction false} ClustersAreComponents(g: map<Axial, Building>, delta: int, cs: seq<Cluster>)
    requires AllComponents(g, delta, cs)
    requires forall c :: c in g ==> InSomeCluster(cs, c)
    ensures TileSets(cs) == Components(g, delta)
  {
    forall T | T in TileSets(cs) ensures T in Components(g, delta) {
      var k :| 0 <= k < |cs| && T == Elems(cs[k].tiles);
      assert IsComponent(g, delta, cs[k]);
      var s := cs[k].tiles[0];
      assert s in cs[k].tiles;
      assert T == Component(g, delta, s);
    }
    forall T | T in Components(g, delta) ensures T in TileSets(cs) {
      var c :| c in g.Keys && T == Component(g, delta, c);
      assert InSomeCluster(cs, c);
      var k :| 0 <= k < |cs| && c in cs[k].tiles;
      assert IsComponent(g, delta, cs[k]);
      ComponentOfMember(g, delta, cs[k], c);
    }
  }

  /** Coverage of the buildings is coverage of the map. */
  lemma {:induction false} CoversMap(bs: seq<Building>, cs: seq<Cluster>)
    requires forall i :: 0 <= i < |bs| ==> InSomeCluster(cs, bs[i].coord)
    ensures forall c :: c in ByCoord(bs) ==> InSomeCluster(cs, c)
  {
    forall c | c in ByCoord(bs) ensures InSomeCluster(cs, c) {
      assert c in Coords(bs);
      var b :| b in bs && b.coord == c;
      var i :| 0 <= i < |bs| && bs[i] == b;
    }
  }

  /** Each neighbour is compared with the building it is reached from, not with
      the seed: with `maxLevelDelta` 1, four houses in a row at levels 1, 2, 3
      and 4 are one cluster, although its ends differ by 3 levels. */
  lemma {:induction false} LevelDrift(g: map<Axial, Building>, c: Cluster)
    requires forall k :: 0 <= k < 4 ==> Axial(k, 0) in g && g[Axial(k, 0)].kind == "house" && g[Axial(k, 0)].level == k + 1
    requires IsComponent(g, 1, c) && Axial(0, 0) in c.tiles
    ensures Axial(3, 0) in c.tiles
    ensures g[Axial(3, 0)].level - g[Axial(0, 0)].level == 3
  {
    forall k | 0 <= k < 3 ensures Linked(g, 1, Axial(k, 0), Axial(k + 1, 0)) {
      assert Axial(k, 0) in g && Axial(k + 1, 0) in g;
      assert NEIGHBORS[0] == Axial(1, 0);
    }
    LinkedSameCluster(g, 1, c, Axial(0, 0), Axial(1, 0));
    LinkedSameCluster(g, 1, c, Axial(1, 0), Axial(2, 0));
    LinkedSameCluster(g, 1, c, Axial(2, 0), Axial(3, 0));
  }
}
