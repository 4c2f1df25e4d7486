/**
 * The generator's records are Python dicts from key strings to values.
 * A record is modelled as a map from Field (the key strings the generator
 * uses, numbered in sorted order) to a Value; the few Python
 * operations on them the generator uses (`d.get(k, default)`, `int(v)`,
 * `str(v)`) are functions here. Exceptions the generator can raise are
 * values of GenError.
 */
module Records {
  import opened Text

  datatype Option<+T> = None | Some(value: T)

  datatype Result<+T, +E> = Ok(value: T) | Err(error: E)

  /** The exceptions a generator can raise on its input. */
  datatype GenError =
    | EmptySequence          // IndexError: random.choice on an empty list
    | EmptyRange             // ValueError: random.randint(lo, hi) with hi < lo
    | NotAnInteger           // TypeError/ValueError: an integer field holds a non-integer
    | MissingKey(key: Field)  // KeyError: d[key] on a dict without that key

  /** The kinds of value the generator stores in a record. */
  datatype Value =
    | Str(s: string)
    | Int(i: int)
    | Bool(b: bool)
    | Null
    | StrList(items: seq<string>)

  /**
   * The dict keys the generator uses. A key is identified by its position in
   * Python's order of the key strings (ascending `str` comparison), so that
   * comparing two keys compares their strings; Name gives the string.
   */
  type Field = k: nat | k < 32

  const AddedToList: Field := 0
  const CommentAdded: Field := 1
  const CompletionPercentage: Field := 2
  const ContentId: Field := 3
  const ContentType: Field := 4
  const Creator: Field := 5
  const Description: Field := 6
  const DeviceType: Field := 7
  const DurationMinutes: Field := 8
  const EngagementDate: Field := 9
  const EngagementId: Field := 10
  const EngagementType: Field := 11
  const EpisodeCount: Field := 12
  const Genre: Field := 13
  const IsDownloaded: Field := 14
  const IsOriginal: Field := 15
  const Language: Field := 16
  const Liked: Field := 17
  const Location: Field := 18
  const Platform: Field := 19
  const Rating: Field := 20
  const ReleaseDate: Field := 21
  const SeasonCount: Field := 22
  const Shared: Field := 23
  const StartTime: Field := 24
  const StreamingQuality: Field := 25
  const Tags: Field := 26
  const Title: Field := 27
  const UserId: Field := 28
  const ViewDate: Field := 29
  const ViewDurationMinutes: Field := 30
  const ViewId: Field := 31

  // The dict key strings.
  const AddedToListKey := "added_to_list"
  const CommentAddedKey := "comment_added"
  const CompletionPercentageKey := "completion_percentage"
  const ContentIdKey := "content_id"
  const ContentTypeKey := "content_type"
  const CreatorKey := "creator"
  const DescriptionKey := "description"
  const DeviceTypeKey := "device_type"
  const DurationMinutesKey := "duration_minutes"
  const EngagementDateKey := "engagement_date"
  const EngagementIdKey := "engagement_id"
  const EngagementTypeKey := "engagement_type"
  const EpisodeCountKey := "episode_count"
  const GenreKey := "genre"
  const IsDownloadedKey := "is_downloaded"
  const IsOriginalKey := "is_original"
  const LanguageKey := "language"
  const LikedKey := "liked"
  const LocationKey := "location"
  const PlatformKey := "platform"
  const RatingKey := "rating"
  const ReleaseDateKey := "release_date"
  const SeasonCountKey := "season_count"
  const SharedKey := "shared"
  const StartTimeKey := "start_time"
  const StreamingQualityKey := "streaming_quality"
  const TagsKey := "tags"
  const TitleKey := "title"
  const UserIdKey := "user_id"
  const ViewDateKey := "view_date"
  const ViewDurationMinutesKey := "view_duration_minutes"
  const ViewIdKey := "view_id"

  /** The dict key string of a field. */
  function Name(f: Field): string {
    match f
    case 0 => AddedToListKey
    case 1 => CommentAddedKey
    case 2 => CompletionPercentageKey
    case 3 => ContentIdKey
    case 4 => ContentTypeKey
    case 5 => CreatorKey
    case 6 => DescriptionKey
    case 7 => DeviceTypeKey
    case 8 => DurationMinutesKey
    case 9 => EngagementDateKey
    case 10 => EngagementIdKey
    case 11 => EngagementTypeKey
    case 12 => EpisodeCountKey
    case 13 => GenreKey
    case 14 => IsDownloadedKey
    case 15 => IsOriginalKey
    case 16 => LanguageKey
    case 17 => LikedKey
    case 18 => LocationKey
    case 19 => PlatformKey
    case 20 => RatingKey
    case 21 => ReleaseDateKey
    case 22 => SeasonCountKey
    case 23 => SharedKey
    case 24 => StartTimeKey
    case 25 => StreamingQualityKey
    case 26 => TagsKey
    case 27 => TitleKey
    case 28 => UserIdKey
    case 29 => ViewDateKey
    case 30 => ViewDurationMinutesKey
    case _ => ViewIdKey
  }

  /**
   * Any two adjacent fields have their key strings in order: the two agree
   * up to the position StrLessAt names, and differ there.
   */
  lemma AdjacentNames(f: Field)
    requires f < 31
    ensures StrLess(Name(f), Name(f + 1))
  {
    if f < 8 {
      AdjacentNamesOf0(f);
    } else if f < 16 {
      AdjacentNamesOf1(f);
    } else if f < 24 {
      AdjacentNamesOf2(f);
    } else {
      AdjacentNamesOf3(f);
    }
  }

  lemma AdjacentNamesOf0(f: Field)
    requires 0 <= f < 8
    ensures StrLess(Name(f), Name(f + 1))
  {
    if f == 0 {
      assert Name(f) == AddedToListKey && Name(f + 1) == CommentAddedKey;
      StrLessAt(AddedToListKey, CommentAddedKey, 0);
    } else if f == 1 {
      assert Name(f) == CommentAddedKey && Name(f + 1) == CompletionPercentageKey;
      StrLessAt(CommentAddedKey, CompletionPercentageKey, 3);
    } else if f == 2 {
      assert Name(f) == CompletionPercentageKey && Name(f + 1) == ContentIdKey;
      StrLessAt(CompletionPercentageKey, ContentIdKey, 2);
    } else if f == 3 {
      assert Name(f) == ContentIdKey && Name(f + 1) == ContentTypeKey;
      StrLessAt(ContentIdKey, ContentTypeKey, 8);
    } else if f == 4 {
      assert Name(f) == ContentTypeKey && Name(f + 1) == CreatorKey;
      StrLessAt(ContentTypeKey, CreatorKey, 1);
    } else if f == 5 {
      assert Name(f) == CreatorKey && Name(f + 1) == DescriptionKey;
      StrLessAt(CreatorKey, DescriptionKey, 0);
    } else if f == 6 {
      assert Name(f) == DescriptionKey && Name(f + 1) == DeviceTypeKey;
      StrLessAt(DescriptionKey, DeviceTypeKey, 2);
    } else {
      assert Name(f) == DeviceTypeKey && Name(f + 1) == DurationMinutesKey;
      StrLessAt(DeviceTypeKey, DurationMinutesKey, 1);
    }
  }

  lemma AdjacentNamesOf1(f: Field)
    requires 8 <= f < 16
    ensures StrLess(Name(f), Name(f + 1))
  {
    if f == 8 {
      assert Name(f) == DurationMinutesKey && Name(f + 1) == EngagementDateKey;
      StrLessAt(DurationMinutesKey, EngagementDateKey, 0);
    } else if f == 9 {
      assert Name(f) == EngagementDateKey && Name(f + 1) == EngagementIdKey;
      StrLessAt(EngagementDateKey, EngagementIdKey, 11);
    } else if f == 10 {
      assert Name(f) == EngagementIdKey && Name(f + 1) == EngagementTypeKey;
      StrLessAt(EngagementIdKey, EngagementTypeKey, 11);
    } else if f == 11 {
      assert Name(f) == EngagementTypeKey && Name(f + 1) == EpisodeCountKey;
      StrLessAt(EngagementTypeKey, EpisodeCountKey, 1);
    } else if f == 12 {
      assert Name(f) == EpisodeCountKey && Name(f + 1) == GenreKey;
      StrLessAt(EpisodeCountKey, GenreKey, 0);
    } else if f == 13 {
      assert Name(f) == GenreKey && Name(f + 1) == IsDownloadedKey;
      StrLessAt(GenreKey, IsDownloadedKey, 0);
    } else if f == 14 {
      assert Name(f) == IsDownloadedKey && Name(f + 1) == IsOriginalKey;
      StrLessAt(IsDownloadedKey, IsOriginalKey, 3);
    } else {
      assert Name(f) == IsOriginalKey && Name(f + 1) == LanguageKey;
      StrLessAt(IsOriginalKey, LanguageKey, 0);
    }
  }

  lemma AdjacentNamesOf2(f: Field)
    requires 16 <= f < 24
    ensures StrLess(Name(f), Name(f + 1))
  {
    if f == 16 {
      assert Name(f) == LanguageKey && Name(f + 1) == LikedKey;
      StrLessAt(LanguageKey, LikedKey, 1);
    } else if f == 17 {
      assert Name(f) == LikedKey && Name(f + 1) == LocationKey;
      StrLessAt(LikedKey, LocationKey, 1);
    } else if f == 18 {
      assert Name(f) == LocationKey && Name(f + 1) == PlatformKey;
      StrLessAt(LocationKey, PlatformKey, 0);
    } else if f == 19 {
      assert Name(f) == PlatformKey && Name(f + 1) == RatingKey;
      StrLessAt(PlatformKey, RatingKey, 0);
    } else if f == 20 {
      assert Name(f) == RatingKey && Name(f + 1) == ReleaseDateKey;
      StrLessAt(RatingKey, ReleaseDateKey, 1);
    } else if f == 21 {
      assert Name(f) == ReleaseDateKey && Name(f + 1) == SeasonCountKey;
      StrLessAt(ReleaseDateKey, SeasonCountKey, 0);
    } else if f == 22 {
      assert Name(f) == SeasonCountKey && Name(f + 1) == SharedKey;
      StrLessAt(SeasonCountKey, SharedKey, 1);
    } else {
      assert Name(f) == SharedKey && Name(f + 1) == StartTimeKey;
      StrLessAt(SharedKey, StartTimeKey, 1);
    }
  }

  lemma AdjacentNamesOf3(f: Field)
    requires 24 <= f < 31
    ensures StrLess(Name(f), Name(f + 1))
  {
    if f == 24 {
      assert Name(f) == StartTimeKey && Name(f + 1) == StreamingQualityKey;
      StrLessAt(StartTimeKey, StreamingQualityKey, 2);
    } else if f == 25 {
      assert Name(f) == StreamingQualityKey && Name(f + 1) == TagsKey;
      StrLessAt(StreamingQualityKey, TagsKey, 0);
    } else if f == 26 {
      assert Name(f) == TagsKey && Name(f + 1) == TitleKey;
      StrLessAt(TagsKey, TitleKey, 1);
    } else if f == 27 {
      assert Name(f) == TitleKey && Name(f + 1) == UserIdKey;
      StrLessAt(TitleKey, UserIdKey, 0);
    } else if f == 28 {
      assert Name(f) == UserIdKey && Name(f + 1) == ViewDateKey;
      StrLessAt(UserIdKey, ViewDateKey, 0);
    } else if f == 29 {
      assert Name(f) == ViewDateKey && Name(f + 1) == ViewDurationMinutesKey;
      StrLessAt(ViewDateKey, ViewDurationMinutesKey, 6);
    } else {
      assert Name(f) == ViewDurationMinutesKey && Name(f + 1) == ViewIdKey;
      StrLessAt(ViewDurationMinutesKey, ViewIdKey, 5);
    }
  }


  /** A smaller field has the smaller key string. */
  lemma {:induction false} NamesIncrease(f: Field, g: Field)
    requires f < g
    ensures StrLess(Name(f), Name(g))
    decreases g
  {
    AdjacentNames(g - 1);
    if f < g - 1 {
      NamesIncrease(f, g - 1);
      StrLessTransitive(Name(f), Name(g - 1), Name(g));
    }
  }

  /** Fields are ordered exactly as Python orders their key strings. */
  lemma NameOrder(f: Field, g: Field)
    ensures StrLess(Name(f), Name(g)) <==> f < g
  {
    if f < g {
      NamesIncrease(f, g);
    } else if g < f {
      NamesIncrease(g, f);
      StrLessAsymmetric(Name(g), Name(f));
    } else {
      StrLessIrreflexive(Name(f));
    }
  }

  /** Different fields have different key strings, so a record's keys are distinct dict keys. */
  lemma NameInjective(f: Field, g: Field)
    ensures f != g ==> Name(f) != Name(g)
  {
    if f < g {
      NamesIncrease(f, g);
      StrLessIrreflexive(Name(f));
    } else if g < f {
      NamesIncrease(g, f);
      StrLessIrreflexive(Name(g));
    }
  }

  /** The characters of the key strings: lower-case letters and '_'. */
  predicate KeyChar(c: char) {
    c == '_' || 'a' <= c <= 'z'
  }

  predicate KeyChars(s: string) {
    forall i :: 0 <= i < |s| ==> KeyChar(s[i])
  }

  /** No key string holds anything but lower-case letters and '_' (so no ',' and no newline). */
  lemma NameKeyChars(f: Field)
    ensures KeyChars(Name(f))
  {
    if f < 4 {
      NameKeyCharsOf0(f);
    } else if f < 8 {
      NameKeyCharsOf1(f);
    } else if f < 12 {
      NameKeyCharsOf2(f);
    } else if f < 16 {
      NameKeyCharsOf3(f);
    } else if f < 20 {
      NameKeyCharsOf4(f);
    } else if f < 24 {
      NameKeyCharsOf5(f);
    } else if f < 28 {
      NameKeyCharsOf6(f);
    } else {
      NameKeyCharsOf7(f);
    }
  }

  lemma NameKeyCharsOf0(f: Field)
    requires 0 <= f < 4
    ensures KeyChars(Name(f))
  {
  }

  lemma NameKeyCharsOf1(f: Field)
    requires 4 <= f < 8
    ensures KeyChars(Name(f))
  {
  }

  lemma NameKeyCharsOf2(f: Field)
    requires 8 <= f < 12
    ensures KeyChars(Name(f))
  {
  }

  lemma NameKeyCharsOf3(f: Field)
    requires 12 <= f < 16
    ensures KeyChars(Name(f))
  {
  }

  lemma NameKeyCharsOf4(f: Field)
    requires 16 <= f < 20
    ensures KeyChars(Name(f))
  {
  }

  lemma NameKeyCharsOf5(f: Field)
    requires 20 <= f < 24
    ensures KeyChars(Name(f))
  {
  }

  lemma NameKeyCharsOf6(f: Field)
    requires 24 <= f < 28
    ensures KeyChars(Name(f))
  {
  }

  lemma NameKeyCharsOf7(f: Field)
    requires 28 <= f < 32
    ensures KeyChars(Name(f))
  {
  }

  /** A record: a dict from key to value. */
  type Record = map<Field, Value>

  /** Every record has the key, and no two records agree on its value. */
  predicate DistinctOn(records: seq<Record>, key: Field) {
    && (forall k :: 0 <= k < |records| ==> key in records[k])
    && (forall k, m :: 0 <= k < m < |records| ==> records[k][key] != records[m][key])
  }

  /** `r.get(key, default)`. */
  function Get(r: Record, key: Field, default: Value): Value {
    if key in r then r[key] else default
  }

  /**
   * The integer a value stands for where Python needs one (`int(v)`,
   * `randint(1, v)`, `v // w`): an int, or a bool (Python's bool is an int).
   */
  function AsInt(v: Value): (r: Option<int>)
    ensures v.Int? ==> r == Some(v.i)
    ensures r.Some? <==> (v.Int? || v.Bool?)
  {
    match v
    case Int(i) => Some(i)
    case Bool(b) => Some(if b then 1 else 0)
    case _ => None
  }

  /**
   * `str(v)`, also what an f-string interpolation `{v}` renders.
   * A list renders as Python's repr of a list of strings, each quoted with '.
   */
  function Render(v: Value): string {
    match v
    case Str(s) => s
    case Int(i) => IntToString(i)
    case Bool(b) => if b then "True" else "False"
    case Null => "None"
    case StrList(items) => "[" + RenderItems(items) + "]"
  }

  function RenderItems(items: seq<string>): string
    decreases |items|
  {
    if |items| == 0 then ""
    else if |items| == 1 then "'" + items[0] + "'"
    else "'" + items[0] + "', " + RenderItems(items[1..])
  }


}
