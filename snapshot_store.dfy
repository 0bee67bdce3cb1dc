/** The minimal snapshot store (app/store/game.store.ts): a validated load
    from storage, a patch-merging `setState` that saves and notifies. The
    storage text and `JSON.parse` are inputs: `parse` returns `None` when
    parsing fails or throws. */
module SnapshotStore {
  import opened Common
  import opened Seqs

  datatype BuildingType = House | Factory | Shop

  datatype Building = Building(id: string, kind: BuildingType, x: real, y: real, level: int,
                               baseIncomePerMinute: real)

  datatype GameSnapshot = GameSnapshot(coins: real, buildings: seq<Building>, lastTickISO: string)

  /** A parsed JSON value, as far as `load` inspects it. */
  datatype Json = JNumber(n: real) | JArray(items: seq<Building>) | JOther

  /** The parsed record: each field absent or a value. A `null`
      `lastTickISO` counts as absent, as `??` treats it. */
  datatype Parsed = Parsed(coins: Option<Json>, buildings: Option<Json>, lastTickISO: Option<string>)

  const INITIAL_COINS: real := 100.0

  /** `typeof obj.coins === 'number' && Array.isArray(obj.buildings)` */
  predicate WellTyped(p: Parsed) {
    p.coins.Some? && p.coins.value.JNumber? && p.buildings.Some? && p.buildings.value.JArray?
  }

  /** `load()`, with the stored text, the parser and the current time as an
      ISO string. */
  function Load(raw: Option<string>, parse: string -> Option<Parsed>, nowISO: string): (r: Option<GameSnapshot>)
    ensures r.Some? <==> raw.Some? && raw.value != "" && parse(raw.value).Some? && WellTyped(parse(raw.value).value)
    ensures r.Some? ==> r.value.coins == parse(raw.value).value.coins.value.n
    ensures r.Some? ==> r.value.buildings == parse(raw.value).value.buildings.value.items
    ensures r.Some? ==> r.value.lastTickISO == parse(raw.value).value.lastTickISO.GetOr(nowISO)
  {
    if raw.None? || raw.value == "" then None
    else match parse(raw.value)
      case None => None
      case Some(obj) =>
        if !WellTyped(obj) then None
        else Some(GameSnapshot(obj.coins.value.n, obj.buildings.value.items, obj.lastTickISO.GetOr(nowISO)))
  }

  /** The state the module starts with. */
  function InitialState(raw: Option<string>, parse: string -> Option<Parsed>, nowISO: string): (s: GameSnapshot)
    ensures Load(raw, parse, nowISO).None? ==> s == GameSnapshot(INITIAL_COINS, [], nowISO)
    ensures Load(raw, parse, nowISO).Some? ==> s == Load(raw, parse, nowISO).value
  {
    Load(raw, parse, nowISO).GetOr(GameSnapshot(INITIAL_COINS, [], nowISO))
  }

  /** What `JSON.parse` gives back for the text `save` writes for `s`. */
  function Encoded(s: GameSnapshot): Parsed {
    Parsed(Some(JNumber(s.coins)), Some(JArray(s.buildings)), Some(s.lastTickISO))
  }

  /** What `save` wrote is what `load` reads back: when the stored text parses
      to the snapshot's fields, loading gives the snapshot itself, whatever
      the current time, and the store restarts in that state. */
  lemma Reload(s: GameSnapshot, text: string, parse: string -> Option<Parsed>, nowISO: string)
    requires text != "" && parse(text) == Some(Encoded(s))
    ensures Load(Some(text), parse, nowISO) == Some(s)
    ensures InitialState(Some(text), parse, nowISO) == s
  {
  }

  /** A `Partial<GameSnapshot>`: the keys it carries. */
  datatype Patch = Patch(coins: Option<real>, buildings: Option<seq<Building>>, lastTickISO: Option<string>)

  /** The argument of `setState`: a patch or a function computing one. */
  datatype PatchArg = Value(patch: Patch) | Compute(f: GameSnapshot -> Patch)

  /** `{ ...state, ...patch }` */
  function Merge(s: GameSnapshot, p: Patch): GameSnapshot {
    GameSnapshot(p.coins.GetOr(s.coins), p.buildings.GetOr(s.buildings), p.lastTickISO.GetOr(s.lastTickISO))
  }

  /** The patch that carries the keys of both, `q` winning. */
  function Then(p: Patch, q: Patch): Patch {
    Patch(if q.coins.Some? then q.coins else p.coins,
          if q.buildings.Some? then q.buildings else p.buildings,
          if q.lastTickISO.Some? then q.lastTickISO else p.lastTickISO)
  }

  /** Merging replaces exactly the keys the patch carries: an empty patch
      changes nothing, a full patch replaces everything, merging twice is
      merging once, and two merges are one merge of the combined patch. */
  lemma MergeLaws(s: GameSnapshot, p: Patch, q: Patch)
    ensures Merge(s, Patch(None, None, None)) == s
    ensures p.coins.Some? && p.buildings.Some? && p.lastTickISO.Some? ==>
      Merge(s, p) == GameSnapshot(p.coins.value, p.buildings.value, p.lastTickISO.value)
    ensures Merge(Merge(s, p), p) == Merge(s, p)
    ensures Merge(Merge(s, p), q) == Merge(s, Then(p, q))
    ensures p.coins.None? ==> Merge(s, p).coins == s.coins
    ensures p.buildings.None? ==> Merge(s, p).buildings == s.buildings
    ensures p.lastTickISO.None? ==> Merge(s, p).lastTickISO == s.lastTickISO
  {
  }

  /** A listener callback, identified by the function object. */
  type ListenerId = nat

  class Store {
    var state: GameSnapshot
    /** The listeners, in insertion order. */
    var listeners: seq<ListenerId>
    /** The listener calls made so far. */
    var notified: seq<ListenerId>
    /** What `save` last wrote to storage. */
    ghost var saved: Option<GameSnapshot>

    ghost predicate Valid()
      reads this
    {
      Distinct(listeners)
    }

    /** The module's initialisation. */
    constructor(raw: Option<string>, parse: string -> Option<Parsed>, nowISO: string)
      ensures Valid()
      ensures state == InitialState(raw, parse, nowISO)
      ensures listeners == [] && notified == [] && saved == None
    {
      state := Load(raw, parse, nowISO).GetOr(GameSnapshot(100.0, [], nowISO));
      listeners := [];
      notified := [];
      saved := None;
    }

    /** `setState(patch)`: a function patch sees the state before the update;
        the new state is saved, then every listener is called once. */
    method SetState(arg: PatchArg)
      requires Valid()
      modifies this
      ensures Valid() && listeners == old(listeners)
      ensures arg.Value? ==> state == Merge(old(state), arg.patch)
      ensures arg.Compute? ==> state == Merge(old(state), arg.f(old(state)))
      ensures saved == Some(state)
      ensures notified == old(notified) + listeners
    {
      var next := match arg
        case Value(p) => p
        case Compute(f) => f(state);
      state := Merge(state, next);
      saved := Some(state);
      var ls := listeners;
      ghost var before := notified;
      ghost var after := state;
      for i := 0 to |ls|
        invariant listeners == ls && state == after && saved == Some(after)
        invariant notified == before + ls[..i]
      {
        assert ls[..i + 1] == ls[..i] + [ls[i]];
        notified := notified + [ls[i]];
      }
      assert ls[..|ls|] == ls;
    }
  }

  /** After `setState` each listener has been called exactly once more. */
  lemma NotifiedOnce(before: seq<ListenerId>, listeners: seq<ListenerId>, l: ListenerId)
    requires Distinct(listeners)
    ensures Count(before + listeners, l) == Count(before, l) + (if l in listeners then 1 else 0)
  {
    CountAppend(before, listeners, l);
    CountDistinct(listeners, l);
  }
}
