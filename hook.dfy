/** The economy hook (app/hooks/useEconomyTicker.ts): credits every delta the
    ticker reports, keeps a five-second window of deltas to show coins per
    second, and ticks the economy every frame with a clamped employment ratio. */
module Hook {
  import opened Common
  import opened Hex
  import F = Formulas
  import G = Game
  import T = Ticker
  import C = Clustering
  import W = Worker

  /** `clamp(v, a, b)` */
  function Clamp(v: real, a: real, b: real): real {
    MaxR(a, MinR(b, v))
  }

  lemma ClampSpec(v: real, a: real, b: real)
    requires a <= b
    ensures a <= Clamp(v, a, b) <= b
    ensures a <= v <= b ==> Clamp(v, a, b) == v
    ensures v < a ==> Clamp(v, a, b) == a
    ensures b < v ==> Clamp(v, a, b) == b
  {
  }

  /** `clamp(population / Math.max(1, jobs), 0, 1.2)` */
  function EmploymentRatio(population: real, jobs: real): (r: real)
    ensures 0.0 <= r <= 1.2
    ensures 0.0 <= population / MaxR(1.0, jobs) <= 1.2 ==> r == population / MaxR(1.0, jobs)
  {
    ClampSpec(population / MaxR(1.0, jobs), 0.0, 1.2);
    Clamp(population / MaxR(1.0, jobs), 0.0, 1.2)
  }

  /** The economy's view of a stored building: it has no health, productivity
      or cluster id, and its kind is the type's name. */
  function KindName(k: G.Kind): string {
    match k
      case House => "house"
      case Shop => "shop"
      case Factory => "factory"
      case Park => "park"
      case Bank => "bank"
      case Farm => "farm"
  }

  function ToEconomy(bs: seq<G.Building>): (r: seq<F.Building>)
    ensures |r| == |bs|
    ensures forall i :: 0 <= i < |bs| ==> r[i].id == bs[i].id && r[i].coord == bs[i].coord && r[i].level == bs[i].level
  {
    seq(|bs|, i requires 0 <= i < |bs| =>
      F.Building(bs[i].id, KindName(bs[i].kind), bs[i].level, None, bs[i].coord, None, None))
  }

  // ---------------------------------------------------------------------
  // The rolling window.

  datatype Entry = Entry(t: real, d: real)

  const WINDOW_MS: real := 5000.0

  /** The `while`/`shift` loop: drop entries from the front while the first is
      older than the cutoff. */
  function Evict(w: seq<Entry>, cutoff: real): seq<Entry> {
    if w != [] && w[0].t < cutoff then Evict(w[1..], cutoff) else w
  }

  ghost predicate Sorted(w: seq<Entry>) {
    forall i, j :: 0 <= i < j < |w| ==> w[i].t <= w[j].t
  }

  /** Eviction only removes a prefix, keeps the last entry when that one is
      recent, and leaves a sorted window holding only recent entries. */
  lemma {:induction false} EvictSpec(w: seq<Entry>, cutoff: real)
    ensures |Evict(w, cutoff)| <= |w| && Evict(w, cutoff) == w[|w| - |Evict(w, cutoff)|..]
    ensures w != [] && w[|w| - 1].t >= cutoff ==>
      Evict(w, cutoff) != [] && Evict(w, cutoff)[|Evict(w, cutoff)| - 1] == w[|w| - 1]
    ensures Sorted(w) ==> Sorted(Evict(w, cutoff))
    ensures Sorted(w) ==> forall e :: e in Evict(w, cutoff) ==> e.t >= cutoff
  {
    if w != [] && w[0].t < cutoff {
      EvictSpec(w[1..], cutoff);
      assert w[1..][|w| - 1 - |Evict(w, cutoff)|..] == w[|w| - |Evict(w, cutoff)|..];
      if Sorted(w) {
        assert Sorted(w[1..]);
      }
    } else if Sorted(w) && w != [] {
      forall e | e in w ensures e.t >= cutoff {
        var j :| 0 <= j < |w| && w[j] == e;
        assert w[0].t <= w[j].t || j == 0;
      }
    }
  }

  lemma SortedPush(w: seq<Entry>, e: Entry)
    requires Sorted(w) && (w == [] || w[|w| - 1].t <= e.t)
    ensures Sorted(w + [e])
  {
    var v := w + [e];
    forall i, j | 0 <= i < j < |v| ensures v[i].t <= v[j].t {
      if j < |w| {
        assert v[i] == w[i] && v[j] == w[j];
      } else if i < |w| - 1 {
        assert v[i] == w[i] && w[i].t <= w[|w| - 1].t;
      }
    }
  }

  /** The `while`/`shift` loop itself. */
  method EvictOld(w0: seq<Entry>, cutoff: real) returns (w: seq<Entry>)
    ensures w == Evict(w0, cutoff)
  {
    w := w0;
    while |w| > 0 && w[0].t < cutoff
      invariant Evict(w, cutoff) == Evict(w0, cutoff)
      decreases |w|
    {
      w := w[1..];
    }
  }

  /** `window.reduce((a, v) => a + v.d, 0)` */
  function SumD(w: seq<Entry>): real {
    if w == [] then 0.0 else SumD(w[..|w| - 1]) + w[|w| - 1].d
  }

  /** `Math.max(1, (now - (window[0]?.t ?? now)) / 1000)`: the span in seconds,
      never below one. */
  function Divisor(w: seq<Entry>, now: real): (r: real)
    ensures r >= 1.0
    ensures w != [] ==> r >= (now - w[0].t) / 1000.0
  {
    MaxR(1.0, (now - (if w != [] then w[0].t else now)) / 1000.0)
  }

  /** The coins per second the hook reports. */
  function Rate(w: seq<Entry>, now: real): real {
    SumD(w) / Divisor(w, now)
  }

  /** The rate never exceeds the summed deltas when they are non-negative. */
  lemma RateBounds(w: seq<Entry>, now: real)
    requires SumD(w) >= 0.0
    ensures 0.0 <= Rate(w, now) <= SumD(w)
  {
    var dv := Divisor(w, now);
    var x := SumD(w) / dv;
    assert x * dv == SumD(w);
    F.MulLe(1.0, dv, x);
  }

  class EconomyHook {
    var window: seq<Entry>
    var coinsPerSec: real
    const game: G.GameStore
    const ticker: T.EconomyTicker

    ghost predicate Valid()
      reads this
    {
      Sorted(window)
    }

    constructor(game: G.GameStore, ticker: T.EconomyTicker)
      ensures Valid() && window == [] && coinsPerSec == 0.0
      ensures this.game == game && this.ticker == ticker
    {
      window := [];
      coinsPerSec := 0.0;
      this.game := game;
      this.ticker := ticker;
    }

    /** The subscriber callback, run with the clock reading `now`. Its
        timestamps never go backwards, so the window stays sorted. */
    method OnDelta(delta: real, now: real)
      requires Valid()
      requires window == [] || window[|window| - 1].t <= now
      modifies this, game
      ensures Valid()
      ensures game.coins == old(game.coins) + delta && game.buildings == old(game.buildings)
      ensures window == Evict(old(window) + [Entry(now, delta)], now - WINDOW_MS)
      ensures window != [] && window[|window| - 1] == Entry(now, delta)
      ensures forall e :: e in window ==> e.t >= now - WINDOW_MS
      ensures coinsPerSec == Rate(window, now)
    {
      ghost var pushed := window + [Entry(now, delta)];
      SortedPush(window, Entry(now, delta));
      EvictSpec(pushed, now - WINDOW_MS);
      game.AddCoins(delta);
      var w := window + [Entry(now, delta)];
      w := EvictOld(w, now - 5000.0);
      window := w;
      var sum := SumD(w);
      var dt := Divisor(w, now);
      coinsPerSec := sum / dt;
    }

    /** One animation frame: tick with the current buildings and the clamped
        employment ratio. `population` and `jobs` are the hook's inputs. The
        clusters the tick computes are returned as ghost values. */
    method Frame(bs: seq<G.Building>, population: real, jobs: real, now: real, salt: nat -> string)
      returns (emp: real, ghost clusters: seq<F.Cluster>, ghost byId: map<string, F.ClusterId>)
      modifies ticker
      ensures emp == EmploymentRatio(population, jobs) && 0.0 <= emp <= 1.2
      ensures ticker.lastTs == now && ticker.subs == old(ticker.subs) && ticker.calls == old(ticker.calls)
      ensures |ticker.outbox| == |old(ticker.outbox)| + 1 && ticker.outbox[..|old(ticker.outbox)|] == old(ticker.outbox)
      ensures ticker.outbox[|old(ticker.outbox)|]
        == W.Request(T.Enrich(ToEconomy(bs), clusters, byId, Some(emp)), [], now - old(ticker.lastTs))
      ensures C.UniqueCoords(ToEconomy(bs)) ==>
        C.TileSets(clusters) == C.Components(C.ByCoord(ToEconomy(bs)), 1)
        && byId.Keys == C.BuildingIds(ToEconomy(bs))
      ensures C.UniqueCoords(ToEconomy(bs)) && C.UniqueIds(ToEconomy(bs)) ==>
        T.PricedByOwnCluster(ToEconomy(bs), clusters, ticker.outbox[|ticker.outbox| - 1].buildings, emp)
    {
      emp := EmploymentRatio(population, jobs);
      var ebs := ToEconomy(bs);
      clusters, byId := ticker.Tick(ebs, Some(emp), now, salt);
    }
  }
}
