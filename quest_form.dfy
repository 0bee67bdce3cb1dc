/** The simple quest form (app/pages/Quests/components/QuestForm.tsx): the
    fields it opens with, when saving is disabled, and the values it submits
    (everything of a quest but its id). Its two number inputs may hold a
    value that is not a number. */
module QuestForm {
  import opened Common
  import opened Seqs
  import opened Text
  import opened QuestTypes

  /** A number input's value: a number or `NaN`. */
  datatype Num = Finite(value: real) | NaN

  /** `Number(x) || 0` */
  function OrZero(n: Num): (r: real)
    ensures n.NaN? ==> r == 0.0
    ensures n.Finite? ==> r == n.value
  {
    match n
      case NaN => 0.0
      case Finite(v) => v
  }

  datatype Fields = Fields(
    title: string,
    description: string,
    status: Status,
    progress: Num,
    questType: QuestType,
    period: Option<Period>,
    rewardType: RewardType,
    rewardValue: Num,
    startsAt: string,
    endsAt: string,
    tags: string)

  /** `Omit<Quest, 'id'>` */
  datatype Values = Values(
    title: string,
    description: Option<string>,
    status: Status,
    progress: real,
    questType: QuestType,
    rewardType: RewardType,
    rewardValue: real,
    period: Option<Period>,
    startsAt: Option<string>,
    endsAt: Option<string>,
    tags: seq<string>)

  function ValuesOf(q: Quest): Values {
    Values(q.title, q.description, q.status, q.progress, q.questType, q.rewardType, q.rewardValue,
           q.period, q.startsAt, q.endsAt, q.tags)
  }

  /** The fields the form opens with for `initial`. */
  function InitialFields(d: Draft): (f: Fields)
    ensures f.title == d.title.GetOr("") && f.description == d.description.GetOr("")
    ensures f.status == d.status.GetOr(Available) && f.progress == Finite(d.progress.GetOr(0.0))
    ensures f.questType == d.questType.GetOr(QuestType.Regular) && f.period == d.period
    ensures f.rewardType == d.rewardType.GetOr(Coins) && f.rewardValue == Finite(d.rewardValue.GetOr(0.0))
    ensures f.startsAt == d.startsAt.GetOr("") && f.endsAt == d.endsAt.GetOr("")
    ensures f.tags == TagsText(d.tags.GetOr([]))
  {
    Fields(d.title.GetOr(""), d.description.GetOr(""), d.status.GetOr(Available),
           Finite(d.progress.GetOr(0.0)), d.questType.GetOr(QuestType.Regular), d.period,
           d.rewardType.GetOr(Coins), Finite(d.rewardValue.GetOr(0.0)), d.startsAt.GetOr(""),
           d.endsAt.GetOr(""), TagsText(d.tags.GetOr([])))
  }

  /** `disabled`: the save button is off exactly when the title is blank. */
  function Disabled(f: Fields): (r: bool)
    ensures r <==> Trim(f.title) == ""
  {
    |Trim(f.title)| == 0
  }

  /** Saving is enabled exactly when the submitted title would be non-empty. */
  lemma DisabledIffNoTitle(f: Fields)
    ensures !Disabled(f) <==> SubmitValues(f).title != ""
  {
  }

  /** A form opened to create a quest starts with saving off, and submitting
      it would give every default; a form opened on a quest it could have
      produced has saving on exactly when that quest has a title, and its
      number inputs open holding numbers. */
  lemma OpenedFields(q: Quest)
    ensures Disabled(InitialFields(EMPTY_DRAFT))
    ensures SubmitValues(InitialFields(EMPTY_DRAFT))
      == Values("", None, Available, 0.0, QuestType.Regular, Coins, 0.0, None, None, None, [])
    ensures Normalised(q) ==> (Disabled(InitialFields(DraftOf(q))) <==> q.title == "")
    ensures InitialFields(DraftOf(q)).progress.Finite? && InitialFields(DraftOf(q)).rewardValue.Finite?
  {
    assert Trim("") == "";
    TagsRoundTrip([]);
  }

  /** The `result` object of `submit`. */
  function SubmitValues(f: Fields): Values {
    Values(Trim(f.title), Nonblank(Trim(f.description)), f.status,
           MaxR(0.0, MinR(1.0, OrZero(f.progress))), f.questType, f.rewardType, OrZero(f.rewardValue),
           if f.questType == QuestType.Regular then f.period else None,
           Nonblank(f.startsAt), Nonblank(f.endsAt), CleanTags(f.tags))
  }

  /** The submitted title is trimmed, and a blank description is absent. */
  lemma SubmitText(f: Fields)
    ensures SubmitValues(f).title == Trim(f.title) && Trim(SubmitValues(f).title) == SubmitValues(f).title
    ensures SubmitValues(f).description == None <==> Trim(f.description) == ""
    ensures SubmitValues(f).description != None ==>
      SubmitValues(f).description.value != ""
      && Trim(SubmitValues(f).description.value) == SubmitValues(f).description.value
  {
    TrimIsTrimmed(f.title);
    NonblankTrimmed(f.description);
  }

  /** The progress lies in [0, 1], is the entered value when that is already
      there, and is 0 for an entry that is not a number; a reward that is not
      a number becomes 0. */
  lemma SubmitNumbers(f: Fields)
    ensures 0.0 <= SubmitValues(f).progress <= 1.0
    ensures f.progress.NaN? ==> SubmitValues(f).progress == 0.0
    ensures f.progress.Finite? && 0.0 <= f.progress.value <= 1.0 ==> SubmitValues(f).progress == f.progress.value
    ensures f.rewardValue.NaN? ==> SubmitValues(f).rewardValue == 0.0
    ensures f.rewardValue.Finite? ==> SubmitValues(f).rewardValue == f.rewardValue.value
  {
  }

  /** Only a regular quest carries a period; empty dates are absent; the tags
      are clean. */
  lemma SubmitRest(f: Fields)
    ensures f.questType == QuestType.Regular ==> SubmitValues(f).period == f.period
    ensures f.questType != QuestType.Regular ==> SubmitValues(f).period.None?
    ensures SubmitValues(f).startsAt.None? <==> f.startsAt == ""
    ensures SubmitValues(f).endsAt.None? <==> f.endsAt == ""
    ensures SubmitValues(f).startsAt.Some? ==> SubmitValues(f).startsAt.value == f.startsAt
    ensures SubmitValues(f).endsAt.Some? ==> SubmitValues(f).endsAt.value == f.endsAt
    ensures forall t :: t in SubmitValues(f).tags ==> CleanTag(t)
  {
    CleanTagsSpec(f.tags);
  }

  /** Opening the form on a quest it could have produced and submitting at
      once gives that quest's values back. */
  lemma EditRoundTrip(q: Quest)
    requires Normalised(q)
    ensures SubmitValues(InitialFields(DraftOf(q))) == ValuesOf(q)
  {
    var f := InitialFields(DraftOf(q));
    var r := SubmitValues(f);
    TagsRoundTrip(q.tags);
    assert r.tags == q.tags;
    assert r.title == q.title;
    assert r.description == q.description by {
      if q.description.None? {
        assert Trim("") == "";
      }
    }
    assert r.progress == q.progress;
    assert r.period == q.period;
    assert r.startsAt == q.startsAt && r.endsAt == q.endsAt;
  }
}
