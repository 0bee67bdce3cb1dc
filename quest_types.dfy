/** The quest record shared by the quest board, its admin panel and its
    forms (app/pages/Quests/types.ts), and the tag-list normalisation both
    forms apply. */
module QuestTypes {
  import opened Common
  import opened Seqs
  import opened Text

  datatype Status = Locked | Available | Active | Completed | Rewarded
  datatype Period = Daily | Weekly | Monthly
  datatype RewardType = Coins | Discount | Coupon | Booster
  datatype QuestType = Regular | Event

  datatype Quest = Quest(
    id: string,
    title: string,
    description: Option<string>,
    status: Status,
    progress: real,
    questType: QuestType,
    rewardType: RewardType,
    rewardValue: real,
    period: Option<Period>,
    startsAt: Option<string>,
    endsAt: Option<string>,
    tags: seq<string>)

  /** `Partial<Quest>`: what a form is opened with. */
  datatype Draft = Draft(
    id: Option<string>,
    title: Option<string>,
    description: Option<string>,
    status: Option<Status>,
    progress: Option<real>,
    questType: Option<QuestType>,
    rewardType: Option<RewardType>,
    rewardValue: Option<real>,
    period: Option<Period>,
    startsAt: Option<string>,
    endsAt: Option<string>,
    tags: Option<seq<string>>)

  /** `{}`, the draft a form is opened with to create a quest. */
  const EMPTY_DRAFT := Draft(None, None, None, None, None, None, None, None, None, None, None, None)

  /** The draft with every field of `q`. */
  function DraftOf(q: Quest): Draft {
    Draft(Some(q.id), Some(q.title), q.description, Some(q.status), Some(q.progress), Some(q.questType),
          Some(q.rewardType), Some(q.rewardValue), q.period, q.startsAt, q.endsAt, Some(q.tags))
  }

  /** A `Date`: a valid instant in milliseconds or an invalid one, which
      compares false with everything. */
  datatype Instant = At(ms: int) | InvalidDate

  predicate Le(a: Instant, b: Instant) {
    a.At? && b.At? && a.ms <= b.ms
  }

  predicate Lt(a: Instant, b: Instant) {
    a.At? && b.At? && a.ms < b.ms
  }

  predicate NonEmpty(s: string) { s != "" }

  /** `s || undefined` for a string. */
  function Nonblank(s: string): Option<string> {
    if s == "" then None else Some(s)
  }

  /** `s.trim() || undefined`: absent for a blank text, otherwise trimmed and
      non-empty. */
  lemma NonblankTrimmed(s: string)
    ensures Nonblank(Trim(s)) == None <==> Trim(s) == ""
    ensures Nonblank(Trim(s)) != None ==>
      Nonblank(Trim(s)).value != "" && Trim(Nonblank(Trim(s)).value) == Nonblank(Trim(s)).value
  {
    TrimIsTrimmed(s);
  }

  /** A tag as the forms produce them. */
  predicate CleanTag(t: string) {
    t != "" && Trim(t) == t && ',' !in t
  }

  /** `tags.split(',').map((t) => t.trim()).filter(Boolean)` */
  function CleanTags(tags: string): seq<string> {
    Filter(Map(Split(tags, ','), Trim), NonEmpty)
  }

  /** Every cleaned tag is non-empty, already trimmed and free of commas, and
      every non-blank comma-separated piece of the input appears trimmed. */
  lemma CleanTagsSpec(tags: string)
    ensures forall t :: t in CleanTags(tags) ==> t != "" && Trim(t) == t && ',' !in t
    ensures forall piece :: piece in Split(tags, ',') && Trim(piece) != "" ==> Trim(piece) in CleanTags(tags)
  {
    var parts := Split(tags, ',');
    var trimmed := Map(parts, Trim);
    forall t | t in CleanTags(tags) ensures t != "" && Trim(t) == t && ',' !in t {
      var i :| 0 <= i < |trimmed| && trimmed[i] == t;
      TrimIsTrimmed(parts[i]);
      TrimSubstring(parts[i]);
    }
    forall piece | piece in Split(tags, ',') && Trim(piece) != "" ensures Trim(piece) in CleanTags(tags) {
      var i :| 0 <= i < |parts| && parts[i] == piece;
      assert trimmed[i] == Trim(piece);
    }
  }

  /** Trimming keeps a part of the string, so it adds no character. */
  lemma TrimSubstring(s: string)
    ensures forall c :: c in Trim(s) ==> c in s
  {
    TrimSlice(s);
    var i := |s| - |TrimStart(s)|;
    forall c | c in Trim(s) ensures c in s {
      var k :| 0 <= k < |Trim(s)| && Trim(s)[k] == c;
      assert c == s[i + k];
    }
  }

  /** A quest in the form the quest forms produce: trimmed title, trimmed
      non-blank description or none, progress in [0, 1], a period only on a
      regular quest, no empty date, clean tags. */
  predicate Normalised(q: Quest) {
    Trim(q.title) == q.title
    && (q.description.Some? ==> q.description.value != "" && Trim(q.description.value) == q.description.value)
    && 0.0 <= q.progress <= 1.0
    && (q.questType != QuestType.Regular ==> q.period.None?)
    && (q.startsAt.Some? ==> q.startsAt.value != "") && (q.endsAt.Some? ==> q.endsAt.value != "")
    && forall t :: t in q.tags ==> CleanTag(t)
  }

  /** The text a form shows for a tag list. */
  function TagsText(tags: seq<string>): string {
    Join(tags, ", ")
  }

  function Spaced(t: string): string { " " + t }

  /** Splitting joined tags at the commas gives the first tag (after the
      prefix `p`) and every other tag behind the space of the separator. */
  lemma {:induction false} SplitJoined(p: string, ts: seq<string>)
    requires ts != [] && ',' !in p
    requires forall t :: t in ts ==> ',' !in t
    ensures Split(p + Join(ts, ", "), ',') == [p + ts[0]] + Map(ts[1..], Spaced)
    decreases |ts|
  {
    if |ts| == 1 {
      assert p + Join(ts, ", ") == p + ts[0];
      assert Map(ts[1..], Spaced) == [];
    } else {
      var tail := ts[1..];
      var rest := Join(tail, ", ");
      var a := p + ts[0];
      assert p + Join(ts, ", ") == a + [','] + (" " + rest);
      SplitAt(a, " " + rest, ',');
      assert forall t :: t in tail ==> t in ts;
      SplitJoined(" ", tail);
      MapCons(tail, Spaced);
    }
  }

  /** A leading space makes no difference to a trimmed string. */
  lemma TrimSpaced(t: string)
    requires Trim(t) == t
    ensures Trim(Spaced(t)) == t
  {
    SpaceTrimmed(t);
  }

  lemma SpaceTrimmed(t: string)
    ensures TrimStart(Spaced(t)) == TrimStart(t)
  {
    var s := Spaced(t);
    assert s[0] == ' ' && s[1..] == t;
  }

  /** A form opened on clean tags shows them joined by ", ", and cleaning
      that text gives the same tags back. */
  lemma TagsRoundTrip(ts: seq<string>)
    requires forall t :: t in ts ==> CleanTag(t)
    ensures CleanTags(TagsText(ts)) == ts
  {
    if ts == [] {
      assert Split("", ',') == [""];
      assert Map([""], Trim) == [""];
      assert Filter([""], NonEmpty) == [];
    } else {
      TrimmedTags(ts);
      forall i | 0 <= i < |ts| ensures NonEmpty(ts[i]) {
        assert ts[i] in ts;
      }
      FilterKeepsAll(ts, NonEmpty);
    }
  }

  lemma TrimmedTags(ts: seq<string>)
    requires ts != [] && forall t :: t in ts ==> CleanTag(t)
    ensures Map(Split(TagsText(ts), ','), Trim) == ts
  {
    var parts := Split(TagsText(ts), ',');
    SplitTags(ts);
    var trimmed := Map(parts, Trim);
    forall i | 0 <= i < |ts| ensures trimmed[i] == ts[i] {
      assert ts[i] in ts;
      TrimmedPart(ts, parts, i);
    }
  }

  lemma TrimmedPart(ts: seq<string>, parts: seq<string>, i: int)
    requires ts != [] && parts == [ts[0]] + Map(ts[1..], Spaced)
    requires 0 <= i < |ts| && Trim(ts[i]) == ts[i]
    ensures Trim(parts[i]) == ts[i]
  {
    if i > 0 {
      assert parts[i] == Spaced(ts[i]);
      TrimSpaced(ts[i]);
    } else {
      assert parts[0] == ts[0];
    }
  }

  lemma SplitTags(ts: seq<string>)
    requires ts != [] && forall t :: t in ts ==> ',' !in t
    ensures Split(TagsText(ts), ',') == [ts[0]] + Map(ts[1..], Spaced)
  {
    SplitJoined("", ts);
    assert "" + Join(ts, ", ") == TagsText(ts);
    assert "" + ts[0] == ts[0];
  }
}
