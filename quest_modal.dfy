/** The admin's quest editor (app/pages/Quests/components/QuestModal.tsx): the
    form it opens with, when it lets the admin save, and the quest it builds.
    Date parsing is a parameter; a fresh id is an input. */
module QuestModal {
  import opened Common
  import opened Seqs
  import opened Text
  import opened QuestTypes

  /** The editor's fields; the tags are the text `"a, b"`. */
  datatype Form = Form(
    title: string,
    description: string,
    questType: QuestType,
    status: Status,
    progress: real,
    rewardType: RewardType,
    rewardValue: real,
    period: Option<Period>,
    startsAt: string,
    endsAt: string,
    tags: string)

  /** The fields the editor opens with for `initial`. */
  function InitialForm(d: Draft): (f: Form)
    ensures f.title == d.title.GetOr("") && f.description == d.description.GetOr("")
    ensures f.questType == d.questType.GetOr(QuestType.Regular) && f.status == d.status.GetOr(Available)
    ensures f.progress == d.progress.GetOr(0.0) && f.rewardType == d.rewardType.GetOr(Coins)
    ensures f.rewardValue == d.rewardValue.GetOr(0.0) && f.period == d.period
    ensures f.startsAt == d.startsAt.GetOr("") && f.endsAt == d.endsAt.GetOr("")
    ensures f.tags == TagsText(d.tags.GetOr([]))
  {
    Form(d.title.GetOr(""), d.description.GetOr(""), d.questType.GetOr(QuestType.Regular),
         d.status.GetOr(Available), d.progress.GetOr(0.0), d.rewardType.GetOr(Coins),
         d.rewardValue.GetOr(0.0), d.period, d.startsAt.GetOr(""), d.endsAt.GetOr(""),
         TagsText(d.tags.GetOr([])))
  }

  /** `canSubmit`: a title, a non-negative reward, a period for a regular
      quest, and for an event an end not before its start. */
  function CanSubmit(f: Form, parse: string -> Instant): (r: bool)
    ensures Trim(f.title) == "" ==> !r
    ensures f.rewardValue < 0.0 ==> !r
    ensures f.questType == QuestType.Regular && f.period.None? ==> !r
    ensures f.questType == QuestType.Event && f.startsAt != "" && f.endsAt != "" && Lt(parse(f.endsAt), parse(f.startsAt)) ==> !r
    ensures Trim(f.title) != "" && f.rewardValue >= 0.0 && !(f.questType == QuestType.Regular && f.period.None?)
      && !(f.questType == QuestType.Event && f.startsAt != "" && f.endsAt != "" && Lt(parse(f.endsAt), parse(f.startsAt)))
      ==> r
  {
    if Trim(f.title) == "" then false
    else if f.rewardValue < 0.0 then false
    else if f.questType == QuestType.Regular && f.period.None? then false
    else if f.questType == QuestType.Event && f.startsAt != "" && f.endsAt != ""
      && Lt(parse(f.endsAt), parse(f.startsAt)) then false
    else true
  }

  /** A date field of the built quest: it is read for an event, or for any
      quest when filled in. */
  function DateField(isEvent: bool, s: string): Option<string> {
    if isEvent || s != "" then Nonblank(s) else None
  }

  /** The quest `handleSubmit` builds. */
  function Submit(f: Form, initialId: Option<string>, freshId: string): Quest {
    var isEvent := f.questType == QuestType.Event;
    Quest(initialId.GetOr(freshId), Trim(f.title), Nonblank(Trim(f.description)), f.status,
          MinR(1.0, MaxR(0.0, f.progress)), f.questType, f.rewardType, f.rewardValue,
          if f.questType == QuestType.Regular then f.period else None,
          DateField(isEvent, f.startsAt), DateField(isEvent, f.endsAt), CleanTags(f.tags))
  }

  /** The built quest keeps the initial id when there is one, and has a
      trimmed title and a trimmed, non-blank description or none. */
  lemma SubmitText(f: Form, initialId: Option<string>, freshId: string)
    ensures Submit(f, initialId, freshId).id == initialId.GetOr(freshId)
    ensures Submit(f, initialId, freshId).title == Trim(f.title)
    ensures Trim(Submit(f, initialId, freshId).title) == Submit(f, initialId, freshId).title
    ensures Submit(f, initialId, freshId).description == None <==> Trim(f.description) == ""
    ensures Submit(f, initialId, freshId).description != None ==>
      Submit(f, initialId, freshId).description.value != ""
      && Trim(Submit(f, initialId, freshId).description.value) == Submit(f, initialId, freshId).description.value
  {
    TrimIsTrimmed(f.title);
    NonblankTrimmed(f.description);
  }

  /** The progress lies in [0, 1] (the entered value when it is already
      there), and only a regular quest has a period. */
  lemma SubmitProgress(f: Form, initialId: Option<string>, freshId: string)
    ensures var q := Submit(f, initialId, freshId);
      0.0 <= q.progress <= 1.0 && (0.0 <= f.progress <= 1.0 ==> q.progress == f.progress)
      && (q.questType != QuestType.Regular ==> q.period.None?)
      && (q.questType == QuestType.Regular ==> q.period == f.period)
  {
  }

  /** A date is set exactly where one was entered, whatever the quest's type,
      and the tags are clean. */
  lemma SubmitDatesAndTags(f: Form, initialId: Option<string>, freshId: string)
    ensures var q := Submit(f, initialId, freshId);
      q.startsAt == Nonblank(f.startsAt) && q.endsAt == Nonblank(f.endsAt)
      && forall t :: t in q.tags ==> CleanTag(t)
  {
    CleanTagsSpec(f.tags);
  }

  /** What `canSubmit` demands, stated of the quest the editor builds: a
      title, a non-negative reward, a period for a regular quest, and for an
      event with both dates an end not before its start. */
  predicate Saveable(q: Quest, parse: string -> Instant) {
    q.title != "" && q.rewardValue >= 0.0
    && (q.questType == QuestType.Regular ==> q.period.Some?)
    && (q.questType == QuestType.Event && q.startsAt.Some? && q.endsAt.Some? ==>
          !Lt(parse(q.endsAt.value), parse(q.startsAt.value)))
  }

  /** The editor lets the admin save exactly when the quest it would build
      meets those demands. */
  lemma CanSubmitIffSaveable(f: Form, initialId: Option<string>, freshId: string, parse: string -> Instant)
    ensures CanSubmit(f, parse) <==> Saveable(Submit(f, initialId, freshId), parse)
  {
  }

  /** A new quest's editor opens with saving off; the editor of a quest it
      could have produced opens with saving on exactly when that quest meets
      the demands. */
  lemma OpenedFormState(q: Quest, parse: string -> Instant)
    ensures !CanSubmit(InitialForm(EMPTY_DRAFT), parse)
    ensures Normalised(q) ==> (CanSubmit(InitialForm(DraftOf(q)), parse) <==> Saveable(q, parse))
  {
    assert Trim("") == "";
    if Normalised(q) {
      EditRoundTrip(q, q.id);
      CanSubmitIffSaveable(InitialForm(DraftOf(q)), Some(q.id), q.id, parse);
    }
  }

  /** Opening the editor on a quest it could have produced and saving at once
      gives the same quest back. */
  lemma EditRoundTrip(q: Quest, freshId: string)
    requires Normalised(q)
    ensures Submit(InitialForm(DraftOf(q)), Some(q.id), freshId) == q
  {
    var f := InitialForm(DraftOf(q));
    var r := Submit(f, Some(q.id), freshId);
    TagsRoundTrip(q.tags);
    assert r.tags == q.tags;
    assert r.title == q.title;
    assert r.description == q.description by {
      if q.description.None? {
        assert Trim("") == "";
      }
    }
    assert r.progress == q.progress;
    assert r.period == q.period;
    assert r.startsAt == q.startsAt && r.endsAt == q.endsAt;
  }
}
