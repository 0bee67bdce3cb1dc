/** The economy ticker (app/services/economy/ticker.ts): on every tick it
    measures the elapsed time, recomputes clusters, prices each building with
    its cluster size and posts the result to the worker; the worker's answers
    are fanned out to the subscribers. */
module Ticker {
  import opened Common
  import opened Formulas
  import opened Clustering
  import opened Worker
  import opened Seqs

  /** A subscriber callback, identified by the identity of the function object. */
  type SubscriberId = nat

  /** One call `fn(coinsDelta)` made by the fan-out. */
  datatype Call = Call(subscriber: SubscriberId, coinsDelta: real)

  /** `Set.prototype.delete` on a set kept in insertion order. */
  function Without(s: seq<SubscriberId>, x: SubscriberId): (r: seq<SubscriberId>)
    ensures forall y :: y in r <==> y in s && y != x
    ensures Distinct(s) ==> Distinct(r)
  {
    if s == [] then []
    else if s[0] == x then Without(s[1..], x)
    else
      var rest := Without(s[1..], x);
      assert s[0] !in rest ==> Distinct(s) ==> Distinct([s[0]] + rest) by {
        if s[0] !in rest && Distinct(s) {
          var t := [s[0]] + rest;
          forall i, j | 0 <= i < j < |t| ensures t[i] != t[j] {
            if i == 0 { assert t[j] in rest; }
          }
        }
      }
      assert Distinct(s) ==> s[0] !in s[1..];
      [s[0]] + rest
  }

  // ---------------------------------------------------------------------
  // Enrichment.

  /** `clusters.find((c) => c.id === id)`, as the index of the first match. */
  function FindIndex(cs: seq<Cluster>, id: ClusterId): (r: Option<nat>)
    ensures r.Some? ==> (r.value < |cs| && cs[r.value].id == id
      && (forall j :: 0 <= j < r.value ==> cs[j].id != id))
    ensures r.None? ==> forall j :: 0 <= j < |cs| ==> cs[j].id != id
  {
    if cs == [] then None
    else if cs[0].id == id then Some(0)
    else match FindIndex(cs[1..], id)
      case None => None
      case Some(k) => Some(k + 1)
  }

  /** The tile count used for a building: the size of the cluster its id maps
      to, or 1 when it has none. Cluster ids are never empty strings, so the
      source's truthiness test on the id is a presence test. */
  function ClusterSize(id: string, clusters: seq<Cluster>, byId: map<string, ClusterId>): int {
    if id in byId then
      match FindIndex(clusters, byId[id])
        case Some(k) => |clusters[k].tiles|
        case None => 1
    else 1
  }

  /** The options `tick` passes to `incomePerHour`. */
  function TickOptions(size: int, employmentRatio: Option<real>): IncomeOptions {
    IncomeOptions(Some(size), Some(employmentRatio.GetOr(1.0)))
  }

  /** `buildings.map(...)` in `tick`: every building, in order, with its price. */
  function Enrich(bs: seq<Building>, clusters: seq<Cluster>, byId: map<string, ClusterId>,
                  employmentRatio: Option<real>): (r: seq<Priced>)
    ensures |r| == |bs|
    ensures forall i :: 0 <= i < |bs| ==> r[i].building == bs[i]
  {
    seq(|bs|, i requires 0 <= i < |bs| =>
      Priced(bs[i], IncomePerHour(bs[i], TickOptions(ClusterSize(bs[i].id, clusters, byId), employmentRatio))))
  }

  /** Every building's price uses the tile count of the cluster holding it. */
  ghost predicate PricedByOwnCluster(bs: seq<Building>, clusters: seq<Cluster>, ps: seq<Priced>, ratio: real) {
    |ps| == |bs| &&
    forall i, k :: 0 <= i < |bs| && 0 <= k < |clusters| && bs[i].coord in clusters[k].tiles ==>
      ps[i].incomePerHour == IncomePerHour(bs[i], IncomeOptions(Some(|clusters[k].tiles|), Some(ratio)))
  }

  /** With distinct cluster ids, a building whose id maps to cluster `k`'s id
      is priced with cluster `k`'s tile count; a building with no entry uses 1;
      a missing ratio counts as 1. */
  lemma EnrichSizes(bs: seq<Building>, clusters: seq<Cluster>, byId: map<string, ClusterId>,
                    ratio: Option<real>, i: int, k: int)
    requires forall k1, k2 :: 0 <= k1 < k2 < |clusters| ==> clusters[k1].id != clusters[k2].id
    requires 0 <= i < |bs| && 0 <= k < |clusters|
    ensures bs[i].id in byId && byId[bs[i].id] == clusters[k].id ==>
      Enrich(bs, clusters, byId, ratio)[i].incomePerHour
        == IncomePerHour(bs[i], IncomeOptions(Some(|clusters[k].tiles|), Some(ratio.GetOr(1.0))))
    ensures bs[i].id !in byId ==>
      Enrich(bs, clusters, byId, ratio)[i].incomePerHour
        == IncomePerHour(bs[i], IncomeOptions(Some(1), Some(ratio.GetOr(1.0))))
    ensures ratio.None? ==>
      Enrich(bs, clusters, byId, ratio)[i].incomePerHour
        == IncomePerHour(bs[i], IncomeOptions(Some(ClusterSize(bs[i].id, clusters, byId)), Some(1.0)))
  {
    if bs[i].id in byId && byId[bs[i].id] == clusters[k].id {
      var f := FindIndex(clusters, clusters[k].id);
      assert f == Some(k);
    }
  }

  /** What `recomputeClusters` hands the enrichment, when buildings sit on
      distinct hexes and have distinct ids, makes every price use the
      building's own cluster. */
  lemma EnrichOwnCluster(bs: seq<Building>, clusters: seq<Cluster>, byId: map<string, ClusterId>, ratio: Option<real>)
    requires forall k1, k2 :: 0 <= k1 < k2 < |clusters| ==> clusters[k1].id != clusters[k2].id
    requires byId.Keys == BuildingIds(bs)
    requires forall i, k ::
      (0 <= i < |bs| && 0 <= k < |clusters| && bs[i].coord in clusters[k].tiles) ==> byId[bs[i].id] == clusters[k].id
    ensures PricedByOwnCluster(bs, clusters, Enrich(bs, clusters, byId, ratio), ratio.GetOr(1.0))
  {
    forall i, k | 0 <= i < |bs| && 0 <= k < |clusters| && bs[i].coord in clusters[k].tiles
      ensures Enrich(bs, clusters, byId, ratio)[i].incomePerHour
        == IncomePerHour(bs[i], IncomeOptions(Some(|clusters[k].tiles|), Some(ratio.GetOr(1.0))))
    {
      assert bs[i].id in BuildingIds(bs);
      EnrichSizes(bs, clusters, byId, ratio, i, k);
    }
  }

  /** The clustering and enrichment part of `tick`. */
  method PriceBuildings(bs: seq<Building>, employmentRatio: Option<real>, salt: nat -> string)
    returns (enriched: seq<Priced>, ghost clusters: seq<Cluster>, ghost byId: map<string, ClusterId>)
    ensures enriched == Enrich(bs, clusters, byId, employmentRatio)
    ensures forall i :: 0 <= i < |bs| ==> InSomeCluster(clusters, bs[i].coord)
    ensures UniqueCoords(bs) ==> AllComponents(ByCoord(bs), 1, clusters)
    ensures UniqueCoords(bs) ==> TileSets(clusters) == Components(ByCoord(bs), 1)
    ensures UniqueCoords(bs) ==> byId.Keys == BuildingIds(bs)
    ensures UniqueCoords(bs) && UniqueIds(bs) ==>
      PricedByOwnCluster(bs, clusters, enriched, employmentRatio.GetOr(1.0))
  {
    var cs, ids := RecomputeClusters(bs, 1, salt);
    enriched := Enrich(bs, cs, ids, employmentRatio);
    clusters, byId := cs, ids;
    if UniqueCoords(bs) {
      CoversMap(bs, cs);
      ClustersAreComponents(ByCoord(bs), 1, cs);
      if UniqueIds(bs) {
        EnrichOwnCluster(bs, cs, ids, employmentRatio);
      }
    }
  }

  // ---------------------------------------------------------------------
  // Fan-out.

  /** The calls `subs.forEach((fn) => fn(coinsDelta))` makes, in order. */
  function Fanout(subs: seq<SubscriberId>, coinsDelta: real): (r: seq<Call>)
    ensures |r| == |subs|
  {
    seq(|subs|, i requires 0 <= i < |subs| => Call(subs[i], coinsDelta))
  }

  /** Every current subscriber is called exactly once with the delta, nobody
      else is called, and no call carries another value. */
  lemma FanoutOnce(subs: seq<SubscriberId>, coinsDelta: real, s: SubscriberId)
    requires Distinct(subs)
    ensures Count(Fanout(subs, coinsDelta), Call(s, coinsDelta)) == (if s in subs then 1 else 0)
    ensures forall c :: c in Fanout(subs, coinsDelta) ==> c.coinsDelta == coinsDelta && c.subscriber in subs
  {
    var f := Fanout(subs, coinsDelta);
    assert Distinct(f) by {
      forall i, j | 0 <= i < j < |f| ensures f[i] != f[j] {
        assert f[i].subscriber == subs[i] && f[j].subscriber == subs[j];
      }
    }
    CountDistinct(f, Call(s, coinsDelta));
    if s in subs {
      var j :| 0 <= j < |subs| && subs[j] == s;
      assert f[j] == Call(s, coinsDelta);
    }
  }

  // ---------------------------------------------------------------------
  // The ticker object.

  class EconomyTicker {
    /** The time of the previous tick, in milliseconds. */
    var lastTs: real
    /** The subscribers, in insertion order. */
    var subs: seq<SubscriberId>
    /** The messages posted to the worker. */
    var outbox: seq<Request>
    /** The subscriber calls made so far. */
    var calls: seq<Call>

    ghost predicate Valid()
      reads this
    {
      Distinct(subs)
    }

    /** `now` is the clock reading at construction. */
    constructor(now: real)
      ensures Valid()
      ensures lastTs == now && subs == [] && outbox == [] && calls == []
    {
      lastTs := now;
      subs := [];
      outbox := [];
      calls := [];
    }

    /** `subscribe(fn)`: adding a callback already present changes nothing. */
    method Subscribe(fn: SubscriberId)
      requires Valid()
      modifies this
      ensures Valid()
      ensures subs == if fn in old(subs) then old(subs) else old(subs) + [fn]
      ensures lastTs == old(lastTs) && outbox == old(outbox) && calls == old(calls)
    {
      if fn !in subs {
        subs := subs + [fn];
      }
    }

    /** The function `subscribe` returns: it removes `fn` and only `fn`. */
    method Unsubscribe(fn: SubscriberId)
      requires Valid()
      modifies this
      ensures Valid()
      ensures subs == Without(old(subs), fn)
      ensures lastTs == old(lastTs) && outbox == old(outbox) && calls == old(calls)
    {
      subs := Without(subs, fn);
    }

    /** `tick(buildings, opts)` at clock reading `now`; `salt` stands for the
        random cluster-id suffixes. The clusters computed on the way are
        returned as ghost values so that the contract can speak of them. */
    method Tick(bs: seq<Building>, employmentRatio: Option<real>, now: real, salt: nat -> string)
      returns (ghost clusters: seq<Cluster>, ghost byId: map<string, ClusterId>)
      modifies this
      ensures lastTs == now
      ensures outbox == old(outbox) + [Request(Enrich(bs, clusters, byId, employmentRatio), [], now - old(lastTs))]
      ensures subs == old(subs) && calls == old(calls)
      ensures forall i :: 0 <= i < |bs| ==> InSomeCluster(clusters, bs[i].coord)
      ensures UniqueCoords(bs) ==> TileSets(clusters) == Components(ByCoord(bs), 1)
      ensures UniqueCoords(bs) ==> byId.Keys == BuildingIds(bs)
      ensures UniqueCoords(bs) && UniqueIds(bs) ==>
        PricedByOwnCluster(bs, clusters, outbox[|outbox| - 1].buildings, employmentRatio.GetOr(1.0))
    {
      var dtMs := now - lastTs;
      lastTs := now;
      var enriched;
      enriched, clusters, byId := PriceBuildings(bs, employmentRatio, salt);
      outbox := outbox + [Request(enriched, [], dtMs)];
    }

    /** The worker's `onmessage`: every subscriber, in insertion order, is
        called with the delta. */
    method Deliver(coinsDelta: real)
      requires Valid()
      modifies this
      ensures Valid()
      ensures calls == old(calls) + Fanout(subs, coinsDelta)
      ensures subs == old(subs) && lastTs == old(lastTs) && outbox == old(outbox)
    {
      var fns := subs;
      ghost var start := calls;
      for i := 0 to |fns|
        invariant subs == fns && lastTs == old(lastTs) && outbox == old(outbox)
        invariant calls == start + Fanout(fns[..i], coinsDelta)
      {
        assert Fanout(fns[..i + 1], coinsDelta) == Fanout(fns[..i], coinsDelta) + [Call(fns[i], coinsDelta)];
        calls := calls + [Call(fns[i], coinsDelta)];
      }
      assert fns[..|fns|] == fns;
    }
  }
}
