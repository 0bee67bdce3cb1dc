/** The city page (app/pages/City/index.tsx): the guard a tile click goes
    through before a house is built, and the wheel zoom of the SVG view box.
    Alerts become the click's outcome; the view box is a field of the page. */
module City {
  import opened Common
  import opened Hex
  import opened Game
  import G = Grid

  /** The price of a house. */
  const COST: real := 100.0

  /** `isOccupied(q, r)`: some building stands at `(q, r)`. */
  function IsOccupied(bs: seq<Building>, q: int, r: int): (o: bool)
    ensures o <==> exists i :: 0 <= i < |bs| && bs[i].coord == Axial(q, r)
  {
    if bs == [] then false
    else if bs[0].coord == Axial(q, r) then true
    else
      var o := IsOccupied(bs[1..], q, r);
      assert forall i :: 1 <= i < |bs| ==> bs[i] == bs[1..][i - 1];
      assert o ==> exists i :: 1 <= i < |bs| && bs[i].coord == Axial(q, r) by {
        if o {
          var j :| 0 <= j < |bs[1..]| && bs[1..][j].coord == Axial(q, r);
          assert bs[j + 1].coord == Axial(q, r);
        }
      }
      o
  }

  /** No two buildings share a coordinate. */
  ghost predicate UniqueCoords(bs: seq<Building>) {
    forall i, j :: 0 <= i < j < |bs| ==> bs[i].coord != bs[j].coord
  }

  /** Building only on a free coordinate keeps the coordinates distinct. */
  lemma PlaceKeepsUnique(bs: seq<Building>, b: Building)
    requires UniqueCoords(bs) && !IsOccupied(bs, b.coord.q, b.coord.r)
    ensures UniqueCoords(bs + [b])
  {
    var s := bs + [b];
    forall i, j | 0 <= i < j < |s| ensures s[i].coord != s[j].coord {
      assert s[i] == bs[i];
      if j < |bs| {
        assert s[j] == bs[j];
      }
    }
  }

  /** What a click on a tile leads to: the alert it shows, or a new house. */
  datatype Outcome = OnWater | Occupied | Insufficient | Built

  /** The SVG view box. */
  datatype ViewBox = ViewBox(x: real, y: real, w: real, h: real)

  /** The bounding rectangle of the SVG element on the screen. */
  datatype Rect = Rect(left: real, top: real, width: real, height: real)

  const MIN_ZOOM: real := 0.25
  const MAX_ZOOM: real := 4.0
  const BASE_W: real := 800.0

  /** `clampW(w)`: the view width kept between a quarter and four times the
      base width. */
  function ClampW(w: real): (r: real)
    ensures BASE_W * MIN_ZOOM <= r <= BASE_W * MAX_ZOOM
    ensures BASE_W * MIN_ZOOM <= w <= BASE_W * MAX_ZOOM ==> r == w
    ensures w < BASE_W * MIN_ZOOM ==> r == BASE_W * MIN_ZOOM
    ensures w > BASE_W * MAX_ZOOM ==> r == BASE_W * MAX_ZOOM
  {
    MinR(MaxR(w, BASE_W * MIN_ZOOM), BASE_W * MAX_ZOOM)
  }

  /** `clientToView`: the view coordinates of a screen point. */
  function ClientToView(cx: real, cy: real, v: ViewBox, rect: Rect): Point
    requires rect.width != 0.0 && rect.height != 0.0
  {
    Point(v.x + (cx - rect.left) / rect.width * v.w, v.y + (cy - rect.top) / rect.height * v.h)
  }

  /** The wheel's zoom factor: out on a downward turn, in otherwise. */
  function Scale(deltaY: real): real {
    if deltaY > 0.0 then 1.1 else 0.9
  }

  /** The view box the `setVb` updater of `onWheel` returns. */
  function Zoom(cur: ViewBox, rect: Rect, cx: real, cy: real, deltaY: real): (next: ViewBox)
    requires cur.w > 0.0 && cur.h > 0.0 && rect.width != 0.0 && rect.height != 0.0
    ensures next.w == ClampW(cur.w * Scale(deltaY))
    ensures next.w >= 200.0 && next.h > 0.0
  {
    var m := ClientToView(cx, cy, cur, rect);
    var nextW := ClampW(cur.w * Scale(deltaY));
    var nextH := nextW / cur.w * cur.h;
    assert nextH > 0.0 by { PositiveQuotient(nextW, cur.w, cur.h); }
    ViewBox(m.x - (m.x - cur.x) * nextW / cur.w, m.y - (m.y - cur.y) * nextH / cur.h, nextW, nextH)
  }

  lemma PositiveQuotient(a: real, b: real, c: real)
    requires a > 0.0 && b > 0.0 && c > 0.0
    ensures a / b * c > 0.0
  {
  }

  /** Zooming keeps the height-to-width ratio of the view. */
  lemma ZoomAspect(cur: ViewBox, rect: Rect, cx: real, cy: real, deltaY: real)
    requires cur.w > 0.0 && cur.h > 0.0 && rect.width != 0.0 && rect.height != 0.0
    ensures Zoom(cur, rect, cx, cy, deltaY).h / Zoom(cur, rect, cx, cy, deltaY).w == cur.h / cur.w
  {
    var next := Zoom(cur, rect, cx, cy, deltaY);
    QuotientScale(next.w, cur.w, cur.h);
  }

  lemma QuotientScale(a: real, b: real, c: real)
    requires a > 0.0 && b > 0.0
    ensures (a / b * c) / a == c / b
  {
    assert a / b * c == a * (c / b);
  }

  /** Zooming keeps the point under the cursor where it is: the cursor shows
      the same view coordinates before and after. */
  lemma ZoomAnchor(cur: ViewBox, rect: Rect, cx: real, cy: real, deltaY: real)
    requires cur.w > 0.0 && cur.h > 0.0 && rect.width != 0.0 && rect.height != 0.0
    ensures ClientToView(cx, cy, Zoom(cur, rect, cx, cy, deltaY), rect) == ClientToView(cx, cy, cur, rect)
  {
    var next := Zoom(cur, rect, cx, cy, deltaY);
    var m := ClientToView(cx, cy, cur, rect);
    AnchorAxis(cur.x, cur.w, next.w, (cx - rect.left) / rect.width);
    AnchorAxis(cur.y, cur.h, next.h, (cy - rect.top) / rect.height);
  }

  /** One axis of the anchoring: with `m = x + f * w`, the new origin
      `m - (m - x) * w' / w` puts `m` at the same fraction `f` of `w'`. */
  lemma AnchorAxis(x: real, w: real, w': real, f: real)
    requires w > 0.0
    ensures var m := x + f * w;
      (m - (m - x) * w' / w) + f * w' == m
  {
    var m := x + f * w;
    assert (m - x) * w' / w == f * w' by {
      assert m - x == f * w;
      assert f * w * w' / w == f * w';
    }
  }

  class CityPage {
    /** The game store the page reads and changes. */
    const game: GameStore
    var vb: ViewBox
    /** Whether the map's SVG is on screen (`svgRef.current` is set): it is
        rendered once the world has loaded. */
    var mounted: bool

    /** The view box is never empty. */
    ghost predicate Valid()
      reads this
    {
      vb.w > 0.0 && vb.h > 0.0
    }

    /** Before the world loads: the fixed base view and no SVG. */
    constructor(game: GameStore)
      ensures this.game == game && vb == ViewBox(0.0, 0.0, 800.0, 600.0) && !mounted && Valid()
    {
      this.game := game;
      vb := ViewBox(0.0, 0.0, 800.0, 600.0);
      mounted := false;
    }

    /** Once the world has loaded, the view is centred on the origin tile and
        the SVG is shown. */
    method OnWorldLoaded()
      modifies this
      ensures vb == ViewBox(-400.0, -300.0, 800.0, 600.0) && mounted && Valid()
    {
      var c := AxialToPixel(Axial(0, 0));
      vb := ViewBox(c.x - 400.0, c.y - 300.0, 800.0, 600.0);
      mounted := true;
    }

    /** A tile's `onClick`: nothing on water, nothing on an occupied tile,
        nothing when the house cannot be paid for; otherwise it is paid for
        and a house with an hourly income of 12 is added at the tile. */
    method OnTileClick(t: G.Tile, freshId: string) returns (o: Outcome)
      modifies game
      ensures t.biome == G.Water ==> o == OnWater
      ensures t.biome != G.Water && IsOccupied(old(game.buildings), t.coord.q, t.coord.r) ==> o == Occupied
      ensures (t.biome != G.Water && !IsOccupied(old(game.buildings), t.coord.q, t.coord.r)
               && old(game.coins) < COST) ==> o == Insufficient
      ensures o != Built ==>
        (game.coins == old(game.coins) && game.buildings == old(game.buildings) && game.saved == old(game.saved))
      ensures o == Built <==>
        (t.biome != G.Water && !IsOccupied(old(game.buildings), t.coord.q, t.coord.r) && COST <= old(game.coins))
      ensures o == Built ==>
        (game.coins == old(game.coins) - COST
         && game.buildings == old(game.buildings) + [NewBuilding(freshId, t.coord.q, t.coord.r, House, None, Some(12.0))]
         && game.saved == Some(Snapshot(game.coins, old(game.buildings))))
      ensures UniqueCoords(old(game.buildings)) ==> UniqueCoords(game.buildings)
    {
      if t.biome == G.Water {
        return OnWater;
      }
      if IsOccupied(game.buildings, t.coord.q, t.coord.r) {
        return Occupied;
      }
      var paid := game.Spend(COST);
      if !paid {
        return Insufficient;
      }
      ghost var before := game.buildings;
      game.AddBuildingAt(t.coord.q, t.coord.r, House, None, Some(12.0), freshId);
      if UniqueCoords(before) {
        PlaceKeepsUnique(before, NewBuilding(freshId, t.coord.q, t.coord.r, House, None, Some(12.0)));
      }
      return Built;
    }

    /** `onWheel`: nothing before the SVG is shown or on a pinch (the control
        key held); otherwise the zoomed view box. */
    method OnWheel(ctrlKey: bool, deltaY: real, clientX: real, clientY: real, rect: Rect)
      requires Valid() && rect.width != 0.0 && rect.height != 0.0
      modifies this
      ensures Valid() && mounted == old(mounted)
      ensures !mounted || ctrlKey ==> vb == old(vb)
      ensures mounted && !ctrlKey ==> vb == Zoom(old(vb), rect, clientX, clientY, deltaY)
    {
      if !mounted {
        return;
      }
      if ctrlKey {
        return;
      }
      vb := Zoom(vb, rect, clientX, clientY, deltaY);
    }
  }
}
