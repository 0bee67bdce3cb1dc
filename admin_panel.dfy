/** The admin panel's quest lists (app/pages/Quests/components/AdminPanel.tsx):
    which quests are active, which are scheduled, and which regular quests
    fall in the selected day, week or month. Dates are instants in
    milliseconds; parsing a date string is a parameter, and the day, week and
    month ranges are inputs. */
module AdminPanel {
  import opened Common
  import opened Seqs
  import opened QuestTypes

  /** `toDate(s)`: no date for an absent or empty string. */
  function ToDate(s: Option<string>, parse: string -> Instant): (r: Option<Instant>)
    ensures r.None? <==> s.None? || s.value == ""
    ensures r.Some? ==> r.value == parse(s.value)
  {
    if s.None? || s.value == "" then None else Some(parse(s.value))
  }

  /** `isBetween(d, a, b)`: inclusive at both ends. */
  predicate IsBetween(d: Instant, a: Instant, b: Instant) {
    Le(a, d) && Le(d, b)
  }

  lemma IsBetweenSpec(d: int, a: int, b: int)
    ensures IsBetween(At(d), At(a), At(b)) <==> a <= d <= b
    ensures IsBetween(At(a), At(a), At(b)) <==> a <= b
    ensures !IsBetween(InvalidDate, At(a), At(b))
  {
  }

  function IsEvent(q: Quest): bool { q.questType == QuestType.Event }
  function IsRegular(q: Quest): bool { q.questType == QuestType.Regular }

  /** `isScheduled(q)`: it has a start, and that start is after `now`. */
  function IsScheduled(q: Quest, now: int, parse: string -> Instant): (r: bool)
    ensures r <==> ToDate(q.startsAt, parse).Some? && Lt(At(now), ToDate(q.startsAt, parse).value)
  {
    var start := ToDate(q.startsAt, parse);
    start.Some? && Lt(At(now), start.value)
  }

  /** `isActive(q)`: without a start it follows the status; with one it has
      started and has not ended. */
  function IsActive(q: Quest, now: int, parse: string -> Instant): (r: bool)
    ensures ToDate(q.startsAt, parse).None? ==> (r <==> q.status == Active || q.status == Available)
    ensures ToDate(q.startsAt, parse).Some? ==>
      (r <==> (Le(ToDate(q.startsAt, parse).value, At(now))
               && (ToDate(q.endsAt, parse).None? || Le(At(now), ToDate(q.endsAt, parse).value))))
  {
    var start := ToDate(q.startsAt, parse);
    var end := ToDate(q.endsAt, parse);
    if start.None? then q.status == Active || q.status == Available
    else Le(start.value, At(now)) && (end.None? || Le(At(now), end.value))
  }

  /** No quest is both active and scheduled. */
  lemma NotActiveAndScheduled(q: Quest, now: int, parse: string -> Instant)
    ensures !(IsActive(q, now, parse) && IsScheduled(q, now, parse))
  {
  }

  /** Over time a quest is scheduled first, then possibly active: a quest
      scheduled at `t2` was scheduled at every earlier `t1`, and a dated
      quest active at `t1` is never scheduled again. */
  lemma ScheduleOverTime(q: Quest, t1: int, t2: int, parse: string -> Instant)
    requires t1 <= t2
    ensures IsScheduled(q, t2, parse) ==> IsScheduled(q, t1, parse)
    ensures ToDate(q.startsAt, parse).Some? && IsActive(q, t1, parse) ==> !IsScheduled(q, t2, parse)
  {
  }

  /** The instants at which a quest is active form an interval. */
  lemma ActiveInterval(q: Quest, t1: int, t2: int, t3: int, parse: string -> Instant)
    requires t1 <= t2 <= t3
    ensures IsActive(q, t1, parse) && IsActive(q, t3, parse) ==> IsActive(q, t2, parse)
  {
  }

  /** A scheduled quest becomes active at its start, unless its end is
      before that. */
  lemma ScheduledThenActive(q: Quest, now: int, parse: string -> Instant)
    requires IsScheduled(q, now, parse)
    ensures ToDate(q.startsAt, parse).value.At?
    ensures var start := ToDate(q.startsAt, parse).value;
      ToDate(q.endsAt, parse).None? || Le(start, ToDate(q.endsAt, parse).value) ==>
        IsActive(q, start.ms, parse) && !IsScheduled(q, start.ms, parse)
  {
  }

  /** A start and an end instant. */
  datatype Range = Range(start: Instant, end: Instant)

  /** The ranges of the selected day, week and month. */
  datatype Ranges = Ranges(day: Range, week: Range, month: Range)

  function RangeOf(p: Period, ranges: Ranges): Range {
    match p
      case Daily => ranges.day
      case Weekly => ranges.week
      case Monthly => ranges.month
  }

  /** `inSelectedBucket(q)` for the selected period. */
  function InSelectedBucket(q: Quest, selected: Period, ranges: Ranges, parse: string -> Instant): (r: bool)
    ensures r ==> IsRegular(q) && q.period == Some(selected)
    ensures IsRegular(q) && q.period == Some(selected) && (q.startsAt.None? || q.startsAt.value == "") ==> r
    ensures IsRegular(q) && q.period == Some(selected) && q.startsAt.Some? && q.startsAt.value != "" ==>
      (r <==> IsBetween(parse(q.startsAt.value), RangeOf(selected, ranges).start, RangeOf(selected, ranges).end))
  {
    if !IsRegular(q) then false
    else if q.period != Some(selected) then false
    else if q.startsAt.None? || q.startsAt.value == "" then true
    else
      var d := parse(q.startsAt.value);
      match selected
        case Daily => IsBetween(d, ranges.day.start, ranges.day.end)
        case Weekly => IsBetween(d, ranges.week.start, ranges.week.end)
        case Monthly => IsBetween(d, ranges.month.start, ranges.month.end)
  }

  /** A quest is in the bucket of at most one selected period. */
  lemma BucketsDisjoint(q: Quest, p1: Period, p2: Period, ranges: Ranges, parse: string -> Instant)
    ensures InSelectedBucket(q, p1, ranges, parse) && InSelectedBucket(q, p2, ranges, parse) ==> p1 == p2
  {
  }

  /** The lists the panel shows. */
  datatype Lists = Lists(
    events: seq<Quest>,
    regular: seq<Quest>,
    activeEvents: seq<Quest>,
    scheduledEvents: seq<Quest>,
    scopedRegular: seq<Quest>,
    activeRegular: seq<Quest>,
    scheduledRegular: seq<Quest>)

  function PanelLists(quests: seq<Quest>, selected: Period, ranges: Ranges, now: int, parse: string -> Instant)
    : Lists
  {
    var events := Filter(quests, IsEvent);
    var regular := Filter(quests, IsRegular);
    var scoped := Filter(regular, (q: Quest) => InSelectedBucket(q, selected, ranges, parse));
    Lists(events, regular,
          Filter(events, (q: Quest) => IsActive(q, now, parse)),
          Filter(events, (q: Quest) => IsScheduled(q, now, parse)),
          scoped,
          Filter(scoped, (q: Quest) => IsActive(q, now, parse)),
          Filter(scoped, (q: Quest) => IsScheduled(q, now, parse)))
  }

  /** The active and scheduled regular lists are subsequences of the scoped
      list, which is one of the regular quests; the event lists are
      subsequences of the events. */
  lemma PanelListsOrder(quests: seq<Quest>, selected: Period, ranges: Ranges, now: int, parse: string -> Instant)
    ensures var l := PanelLists(quests, selected, ranges, now, parse);
      IsSubsequence(l.activeRegular, l.scopedRegular) && IsSubsequence(l.scheduledRegular, l.scopedRegular)
      && IsSubsequence(l.scopedRegular, l.regular)
      && IsSubsequence(l.activeEvents, l.events) && IsSubsequence(l.scheduledEvents, l.events)
  {
    var l := PanelLists(quests, selected, ranges, now, parse);
    FilterIsSubsequence(l.scopedRegular, (q: Quest) => IsActive(q, now, parse));
    FilterIsSubsequence(l.scopedRegular, (q: Quest) => IsScheduled(q, now, parse));
    FilterIsSubsequence(l.regular, (q: Quest) => InSelectedBucket(q, selected, ranges, parse));
    FilterIsSubsequence(l.events, (q: Quest) => IsActive(q, now, parse));
    FilterIsSubsequence(l.events, (q: Quest) => IsScheduled(q, now, parse));
  }

  /** The event lists hold only events of the store, each active or
      scheduled as its list says. */
  lemma PanelListsEvents(quests: seq<Quest>, selected: Period, ranges: Ranges, now: int, parse: string -> Instant)
    ensures var l := PanelLists(quests, selected, ranges, now, parse);
      (forall q :: q in l.events ==> q in quests && IsEvent(q))
      && (forall q :: q in l.activeEvents ==> q in quests && IsEvent(q) && IsActive(q, now, parse))
      && (forall q :: q in l.scheduledEvents ==> q in quests && IsEvent(q) && IsScheduled(q, now, parse))
  {
  }

  /** No quest is in both an active and a scheduled list. */
  lemma PanelListsDisjoint(quests: seq<Quest>, selected: Period, ranges: Ranges, now: int, parse: string -> Instant)
    ensures var l := PanelLists(quests, selected, ranges, now, parse);
      (forall q :: q in l.activeEvents ==> q !in l.scheduledEvents)
      && (forall q :: q in l.activeRegular ==> q !in l.scheduledRegular)
  {
    var l := PanelLists(quests, selected, ranges, now, parse);
    forall q | q in l.activeEvents ensures q !in l.scheduledEvents {
      NotActiveAndScheduled(q, now, parse);
    }
    forall q | q in l.activeRegular ensures q !in l.scheduledRegular {
      NotActiveAndScheduled(q, now, parse);
    }
  }

  /** The scoped list holds exactly the store's quests in the selected
      bucket, and each is a regular quest with the selected period. */
  lemma PanelListsScoped(quests: seq<Quest>, selected: Period, ranges: Ranges, now: int, parse: string -> Instant)
    ensures var l := PanelLists(quests, selected, ranges, now, parse);
      (forall q :: q in l.scopedRegular ==> q in quests && IsRegular(q) && q.period == Some(selected))
      && (forall q :: q in quests && InSelectedBucket(q, selected, ranges, parse) ==> q in l.scopedRegular)
  {
  }
}
