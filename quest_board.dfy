/** The quest board's own store (app/pages/Quests/questStore.ts): a
    permissive list whose actions overwrite the status of the quest they
    name, whatever it was, and pay nothing. `fetch` loads a fixed list; the
    start and end of its running event are taken from the clock, so they
    are parameters here. */
module QuestBoard {
  import opened Common
  import opened Seqs
  import opened QuestTypes

  function Regular(id: string, title: string, description: string, status: Status, progress: real,
                   period: Period, rewardType: RewardType, rewardValue: real, tags: seq<string>): Quest {
    Quest(id, title, Some(description), status, progress, QuestType.Regular, rewardType, rewardValue,
          Some(period), None, None, tags)
  }

  function EventQuest(id: string, title: string, description: string, status: Status, progress: real,
                      rewardType: RewardType, rewardValue: real, startsAt: string, endsAt: string,
                      tags: seq<string>): Quest {
    Quest(id, title, Some(description), status, progress, QuestType.Event, rewardType, rewardValue,
          None, Some(startsAt), Some(endsAt), tags)
  }

  /** The list `fetch` installs. `e1Start` and `e1End` are the ISO strings of
      two days before and five days after the moment of loading. */
  function MockQuests(e1Start: string, e1End: string): (r: seq<Quest>)
    ensures |r| == 8
  {
    [ Regular("d1", "Утренняя зарядка", "10 минут растяжки и приседаний", Available, 0.0,
              Daily, Coins, 50.0, ["спорт", "здоровье"]),
      Regular("d2", "Прочитать 10 страниц", "Любая книга или статья", Locked, 0.0,
              Daily, Coins, 30.0, ["чтение"]),
      Regular("w1", "Пробежать 5 км", "Можно на улице или на беговой дорожке", Available, 0.0,
              Weekly, Coins, 200.0, ["спорт"]),
      Regular("w2", "Посетить спортзал 2 раза", "В течение недели", Locked, 0.0,
              Weekly, Booster, 1.0, ["спорт", "дисциплина"]),
      Regular("m1", "Прочитать одну книгу", "Завершить любую книгу за месяц", Available, 0.25,
              Monthly, Coupon, 1.0, ["чтение"]),
      Regular("m2", "Закрыть 20 тренировок", "Подсчёт тренировок за месяц", Locked, 0.0,
              Monthly, Coins, 1000.0, ["спорт"]),
      EventQuest("e1", "Осенний марафон", "Специальный ивент на октябрь", Active, 0.4,
                 Booster, 2.0, e1Start, e1End, ["ивент", "осень"]),
      EventQuest("e2", "Новый год 2025", "Специальные задания к празднику", Available, 0.0,
                 Coins, 500.0, "2025-12-25T00:00:00.000Z", "2026-01-10T23:59:59.000Z",
                 ["ивент", "зима", "праздник"]) ]
  }

  ghost predicate UniqueIds(qs: seq<Quest>) {
    forall i, j :: 0 <= i < j < |qs| ==> qs[i].id != qs[j].id
  }

  /** The fixed list has unique ids. */
  lemma MockQuestsUniqueIds(e1Start: string, e1End: string)
    ensures UniqueIds(MockQuests(e1Start, e1End))
  {
    var m := MockQuests(e1Start, e1End);
    var ids := ["d1", "d2", "w1", "w2", "m1", "m2", "e1", "e2"];
    assert forall i :: 0 <= i < 8 ==> m[i].id == ids[i];
    forall i, j | 0 <= i < j < 8 ensures ids[i] != ids[j] {
      assert ids[i][0] != ids[j][0] || ids[i][1] != ids[j][1];
    }
  }

  /** A regular quest carries a period and no dates, an event dates and no
      period. */
  predicate Shaped(q: Quest) {
    (q.questType == QuestType.Regular <==> q.period.Some?)
    && (q.questType == QuestType.Event <==> q.startsAt.Some? && q.endsAt.Some?)
  }

  /** Every quest of the fixed list is shaped so. */
  lemma MockQuestsShaped(e1Start: string, e1End: string)
    ensures forall q :: q in MockQuests(e1Start, e1End) ==> Shaped(q)
  {
    var m := MockQuests(e1Start, e1End);
    assert forall i :: 0 <= i < 6 ==> m[i].questType == QuestType.Regular && m[i].period.Some?;
    assert forall i :: 6 <= i < 8 ==>
      (m[i].questType == QuestType.Event && m[i].startsAt.Some? && m[i].endsAt.Some? && m[i].period.None?);
    forall q | q in m ensures Shaped(q) {
      var i :| 0 <= i < 8 && m[i] == q;
    }
  }

  function ReplaceOne(x: Quest, q: Quest): Quest { if x.id == q.id then q else x }
  function StartOne(q: Quest, id: string): Quest {
    if q.id == id then q.(status := Active, progress := MaxR(0.0, q.progress)) else q
  }
  function ClaimOne(q: Quest, id: string): Quest { if q.id == id then q.(status := Rewarded) else q }

  function Replaced(qs: seq<Quest>, q: Quest): seq<Quest> { Map(qs, (x: Quest) => ReplaceOne(x, q)) }
  function Started(qs: seq<Quest>, id: string): seq<Quest> { Map(qs, (q: Quest) => StartOne(q, id)) }
  function Claimed(qs: seq<Quest>, id: string): seq<Quest> { Map(qs, (q: Quest) => ClaimOne(q, id)) }
  function Without(qs: seq<Quest>, id: string): seq<Quest> { Filter(qs, (x: Quest) => x.id != id) }

  /** `updateQuest(q)` puts `q` in the place of every quest with its id and
      keeps the length and every other quest. */
  lemma ReplacedSpec(qs: seq<Quest>, q: Quest)
    ensures |Replaced(qs, q)| == |qs|
    ensures forall i :: 0 <= i < |qs| && qs[i].id == q.id ==> Replaced(qs, q)[i] == q
    ensures forall i :: 0 <= i < |qs| && qs[i].id != q.id ==> Replaced(qs, q)[i] == qs[i]
    ensures (forall x :: x in qs ==> x.id != q.id) ==> Replaced(qs, q) == qs
  {
    if forall x :: x in qs ==> x.id != q.id {
      forall i | 0 <= i < |qs| ensures Replaced(qs, q)[i] == qs[i] {
        assert qs[i] in qs;
      }
    }
  }

  /** `start(id)` activates the quests with that id whatever their status
      (a rewarded quest included), with a non-negative progress, and changes
      no other quest. */
  lemma StartedSpec(qs: seq<Quest>, id: string)
    ensures |Started(qs, id)| == |qs|
    ensures forall i :: 0 <= i < |qs| && qs[i].id == id ==>
      Started(qs, id)[i].status == Active && Started(qs, id)[i].progress == MaxR(0.0, qs[i].progress)
      && Started(qs, id)[i].progress >= 0.0
      && Started(qs, id)[i].(status := qs[i].status, progress := qs[i].progress) == qs[i]
    ensures forall i :: 0 <= i < |qs| && qs[i].id != id ==> Started(qs, id)[i] == qs[i]
  {
  }

  /** `claim(id)` marks the quests with that id rewarded whatever their
      status, and changes no other quest. */
  lemma ClaimedSpec(qs: seq<Quest>, id: string)
    ensures |Claimed(qs, id)| == |qs|
    ensures forall i :: 0 <= i < |qs| && qs[i].id == id ==> Claimed(qs, id)[i] == qs[i].(status := Rewarded)
    ensures forall i :: 0 <= i < |qs| && qs[i].id != id ==> Claimed(qs, id)[i] == qs[i]
  {
  }

  /** `deleteQuest(id)` removes exactly the quests with that id, in order. */
  lemma WithoutSpec(qs: seq<Quest>, id: string)
    ensures forall x :: x in Without(qs, id) <==> x in qs && x.id != id
    ensures IsSubsequence(Without(qs, id), qs)
  {
    FilterIsSubsequence(qs, (x: Quest) => x.id != id);
  }

  /** Updates, starts and claims keep the ids in place, so unique ids stay
      unique. */
  lemma UniqueIdsKept(qs: seq<Quest>, q: Quest, id: string)
    requires UniqueIds(qs)
    ensures UniqueIds(Replaced(qs, q)) && UniqueIds(Started(qs, id)) && UniqueIds(Claimed(qs, id))
  {
    assert forall i :: 0 <= i < |qs| ==>
      Replaced(qs, q)[i].id == qs[i].id && Started(qs, id)[i].id == qs[i].id && Claimed(qs, id)[i].id == qs[i].id;
  }

  class Board {
    var quests: seq<Quest>

    constructor()
      ensures quests == []
    {
      quests := [];
    }

    /** `fetch()`, after its simulated delay. */
    method Fetch(e1Start: string, e1End: string)
      modifies this
      ensures quests == MockQuests(e1Start, e1End)
    {
      quests := MockQuests(e1Start, e1End);
    }

    /** `addQuest(q)` appends `q` as given. */
    method AddQuest(q: Quest)
      modifies this
      ensures quests == old(quests) + [q]
    {
      quests := quests + [q];
    }

    method UpdateQuest(q: Quest)
      modifies this
      ensures quests == Replaced(old(quests), q)
    {
      quests := Replaced(quests, q);
    }

    method DeleteQuest(id: string)
      modifies this
      ensures quests == Without(old(quests), id)
    {
      quests := Without(quests, id);
    }

    method Start(id: string)
      modifies this
      ensures quests == Started(old(quests), id)
    {
      quests := Started(quests, id);
    }

    method Claim(id: string)
      modifies this
      ensures quests == Claimed(old(quests), id)
    {
      quests := Claimed(quests, id);
    }
  }
}
