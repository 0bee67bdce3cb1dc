/** The strict quest store (app/store/questStore.ts): quests move
    available -> active -> completed -> rewarded, progress is counted towards
    a goal, and claiming pays the reward through the game ledger. */
module QuestStore {
  import opened Common
  import opened Seqs
  import opened Game

  datatype Period = Daily | Weekly | Monthly
  datatype Status = Locked | Available | Active | Completed | Rewarded

  datatype Quest = Quest(
    id: string,
    title: string,
    description: Option<string>,
    rewardCoins: real,
    period: Period,
    tags: seq<string>,
    endsAt: Option<string>,
    status: Status,
    progress: real,
    current: real,
    goal: real)

  /** What `addQuest` and `updateQuest` take. */
  datatype QuestInput = QuestInput(
    title: string,
    description: Option<string>,
    rewardCoins: real,
    period: Period,
    tags: Option<seq<string>>,
    endsAt: Option<string>,
    goal: Option<real>)

  /** `current / goal`. A zero goal gives a non-finite number in the source;
      the model uses 0 there. */
  function Ratio(current: real, goal: real): real {
    if goal == 0.0 then 0.0 else current / goal
  }

  /** The index of the first quest with that id. */
  function FirstIndex(qs: seq<Quest>, id: string): (r: Option<nat>)
    ensures r.Some? ==> r.value < |qs| && qs[r.value].id == id
    ensures r.Some? ==> forall j :: 0 <= j < r.value ==> qs[j].id != id
    ensures r.None? ==> forall i :: 0 <= i < |qs| ==> qs[i].id != id
  {
    if qs == [] then None
    else if qs[0].id == id then Some(0)
    else match FirstIndex(qs[1..], id)
      case None => None
      case Some(k) => Some(k + 1)
  }

  /** `quests.find((q) => q.id === id)` */
  function FindQuest(qs: seq<Quest>, id: string): Option<Quest> {
    match FirstIndex(qs, id)
      case None => None
      case Some(k) => Some(qs[k])
  }

  // ---------------------------------------------------------------------
  // The per-quest updates.

  function StartOne(q: Quest, id: string): Quest {
    if q.id == id && q.status == Available then q.(status := Active) else q
  }

  function RewardOne(q: Quest, id: string): Quest {
    if q.id == id then q.(status := Rewarded) else q
  }

  function UpdateOne(q: Quest, id: string, input: QuestInput): Quest {
    if q.id != id then q
    else
      var goal := input.goal.GetOr(q.goal);
      var current := if q.current > goal then goal else q.current;
      q.(title := input.title, description := input.description, rewardCoins := input.rewardCoins,
         period := input.period, tags := input.tags.GetOr([]), endsAt := input.endsAt,
         goal := goal, current := current, progress := Ratio(current, goal))
  }

  /** Whether `incrementProgressForTag(tag)` changes the quest. */
  predicate Advances(q: Quest, tag: string) {
    q.status == Active && tag in q.tags && q.current < q.goal
  }

  function IncrementOne(q: Quest, tag: string, amount: real): Quest {
    if !Advances(q, tag) then q
    else
      var next := q.current + amount;
      var current := if next > q.goal then q.goal else next;
      var status := if current >= q.goal then Completed else q.status;
      q.(current := current, progress := Ratio(current, q.goal), status := status)
  }

  function NewQuest(id: string, input: QuestInput): (q: Quest)
    ensures q.id == id && q.status == Available && q.progress == 0.0 && q.current == 0.0
    ensures q.goal == input.goal.GetOr(1.0) && q.tags == input.tags.GetOr([])
    ensures q.title == input.title && q.rewardCoins == input.rewardCoins && q.period == input.period
  {
    Quest(id, input.title, input.description, input.rewardCoins, input.period, input.tags.GetOr([]),
          input.endsAt, Available, 0.0, 0.0, input.goal.GetOr(1.0))
  }

  function Started(qs: seq<Quest>, id: string): seq<Quest> { Map(qs, (q: Quest) => StartOne(q, id)) }
  function Claimed(qs: seq<Quest>, id: string): seq<Quest> { Map(qs, (q: Quest) => RewardOne(q, id)) }
  function Updated(qs: seq<Quest>, id: string, input: QuestInput): seq<Quest> {
    Map(qs, (q: Quest) => UpdateOne(q, id, input))
  }
  function Incremented(qs: seq<Quest>, tag: string, amount: real): seq<Quest> {
    Map(qs, (q: Quest) => IncrementOne(q, tag, amount))
  }
  function WithoutQuest(qs: seq<Quest>, id: string): seq<Quest> { Filter(qs, (q: Quest) => q.id != id) }

  /** `claim(id)` pays only when the first quest with that id is completed. */
  predicate Claimable(qs: seq<Quest>, id: string) {
    FindQuest(qs, id).Some? && FindQuest(qs, id).value.status == Completed
  }

  // ---------------------------------------------------------------------
  // Properties.

  /** `start` only turns an available quest with that id into an active one. */
  lemma StartSpec(qs: seq<Quest>, id: string, i: int)
    requires 0 <= i < |qs|
    ensures qs[i].id == id && qs[i].status == Available ==> Started(qs, id)[i] == qs[i].(status := Active)
    ensures !(qs[i].id == id && qs[i].status == Available) ==> Started(qs, id)[i] == qs[i]
  {
  }

  /** A quest added under a fresh id is the one found by that id; it cannot be
      claimed before it is completed, `start` makes it active, it keeps the
      store within its goals, and updating it with the input it was created
      from changes nothing. */
  lemma AddedQuest(qs: seq<Quest>, id: string, input: QuestInput)
    requires forall i :: 0 <= i < |qs| ==> qs[i].id != id
    requires input.goal.GetOr(1.0) >= 0.0
    ensures FindQuest(qs + [NewQuest(id, input)], id) == Some(NewQuest(id, input))
    ensures !Claimable(qs + [NewQuest(id, input)], id)
    ensures Started(qs + [NewQuest(id, input)], id)[|qs|].status == Active
    ensures AllBounded(qs) ==> AllBounded(qs + [NewQuest(id, input)])
    ensures UpdateOne(NewQuest(id, input), id, input) == NewQuest(id, input)
  {
    var all := qs + [NewQuest(id, input)];
    assert all[|qs|].id == id;
    var k := FirstIndex(all, id);
    assert k.Some?;
  }

  /** After a claim the quest found by that id is rewarded, so claiming again
      pays nothing. */
  lemma {:induction false} ClaimOnce(qs: seq<Quest>, id: string)
    ensures !Claimable(Claimed(qs, id), id)
    ensures FindQuest(Claimed(qs, id), id).Some? <==> FindQuest(qs, id).Some?
  {
    var r := Claimed(qs, id);
    match FirstIndex(qs, id)
    case None =>
      assert forall i :: 0 <= i < |r| ==> r[i].id != id by {
        forall i | 0 <= i < |r| ensures r[i].id != id {
          assert r[i] == RewardOne(qs[i], id);
        }
      }
    case Some(k) =>
      var k' := FirstIndex(r, id);
      assert r[k].id == id;
      assert FindQuest(r, id) == Some(r[k'.value]);
      assert r[k'.value] == RewardOne(qs[k'.value], id);
  }

  /** `updateQuest` bounds `current` by the new goal, recomputes the progress,
      and keeps id and status. */
  lemma UpdateSpec(q: Quest, id: string, input: QuestInput)
    requires q.id == id
    ensures UpdateOne(q, id, input).id == q.id && UpdateOne(q, id, input).status == q.status
    ensures UpdateOne(q, id, input).goal == input.goal.GetOr(q.goal)
    ensures UpdateOne(q, id, input).current == MinR(q.current, UpdateOne(q, id, input).goal)
    ensures UpdateOne(q, id, input).progress
      == Ratio(UpdateOne(q, id, input).current, UpdateOne(q, id, input).goal)
  {
  }

  /** `incrementProgressForTag` leaves every other quest alone and moves an
      advancing one to `min(current + amount, goal)`; it becomes completed
      exactly when that reaches the goal. */
  lemma IncrementSpec(q: Quest, tag: string, amount: real)
    ensures !Advances(q, tag) ==> IncrementOne(q, tag, amount) == q
    ensures Advances(q, tag) ==> IncrementOne(q, tag, amount).current == MinR(q.current + amount, q.goal)
    ensures Advances(q, tag) ==> (IncrementOne(q, tag, amount).status == Completed
      <==> IncrementOne(q, tag, amount).current >= q.goal)
    ensures IncrementOne(q, tag, amount).goal == q.goal && IncrementOne(q, tag, amount).id == q.id
  {
  }

  /** For a non-negative amount, `0 <= current <= goal` is kept and progress
      never goes back. */
  lemma IncrementKeepsBounds(q: Quest, tag: string, amount: real)
    requires 0.0 <= q.current <= q.goal && amount >= 0.0
    ensures 0.0 <= IncrementOne(q, tag, amount).current <= IncrementOne(q, tag, amount).goal
    ensures IncrementOne(q, tag, amount).current >= q.current
  {
  }

  ghost predicate AllBounded(qs: seq<Quest>) {
    forall i :: 0 <= i < |qs| ==> 0.0 <= qs[i].current <= qs[i].goal
  }

  /** The bound holds for a whole store through increments and updates
      (an update with a non-negative goal). */
  lemma BoundsPreserved(qs: seq<Quest>, tag: string, amount: real, id: string, input: QuestInput)
    requires AllBounded(qs) && amount >= 0.0
    requires input.goal.Some? ==> input.goal.value >= 0.0
    ensures AllBounded(Incremented(qs, tag, amount))
    ensures AllBounded(Updated(qs, id, input))
  {
    forall i | 0 <= i < |qs| ensures 0.0 <= Incremented(qs, tag, amount)[i].current <= Incremented(qs, tag, amount)[i].goal {
      IncrementKeepsBounds(qs[i], tag, amount);
    }
  }

  // ---------------------------------------------------------------------
  // The store.

  class Quests {
    var quests: seq<Quest>
    const game: GameStore

    constructor(game: GameStore)
      ensures quests == [] && this.game == game
    {
      quests := [];
      this.game := game;
    }

    /** `fetch()`: republishes the same list. */
    method Fetch()
      modifies this
      ensures quests == old(quests)
    {
      quests := quests[..];
    }

    method Start(id: string)
      modifies this
      ensures quests == Started(old(quests), id)
    {
      quests := Started(quests, id);
    }

    /** `claim(id)` */
    method Claim(id: string)
      modifies this, game
      ensures game.buildings == old(game.buildings)
      ensures !Claimable(old(quests), id) ==>
        quests == old(quests) && game.coins == old(game.coins) && game.saved == old(game.saved)
      ensures Claimable(old(quests), id) ==>
        quests == Claimed(old(quests), id)
        && game.coins == old(game.coins) + FindQuest(old(quests), id).value.rewardCoins
    {
      var quest := FindQuest(quests, id);
      if quest.None? || quest.value.status != Completed {
        return;
      }
      game.AddCoins(quest.value.rewardCoins);
      quests := Claimed(quests, id);
    }

    /** `addQuest(input)` with a fresh id. */
    method AddQuest(input: QuestInput, freshId: string)
      modifies this
      ensures quests == old(quests) + [NewQuest(freshId, input)]
    {
      quests := quests + [NewQuest(freshId, input)];
    }

    method UpdateQuest(id: string, input: QuestInput)
      modifies this
      ensures quests == Updated(old(quests), id, input)
    {
      quests := Updated(quests, id, input);
    }

    method DeleteQuest(id: string)
      modifies this
      ensures quests == WithoutQuest(old(quests), id)
    {
      quests := WithoutQuest(quests, id);
    }

    /** `incrementProgressForTag(tag, amount)`; the amount defaults to 1. */
    method IncrementProgressForTag(tag: string, amount: Option<real>)
      modifies this
      ensures quests == Incremented(old(quests), tag, amount.GetOr(1.0))
    {
      quests := Incremented(quests, tag, amount.GetOr(1.0));
    }
  }

  /** `deleteQuest` removes exactly the quests with that id, keeping the order. */
  lemma DeleteSpec(qs: seq<Quest>, id: string)
    ensures forall q :: q in WithoutQuest(qs, id) <==> q in qs && q.id != id
    ensures IsSubsequence(WithoutQuest(qs, id), qs)
  {
    FilterIsSubsequence(qs, (q: Quest) => q.id != id);
  }
}
