/** The module-level reference lists every generator samples from. */
module Reference {
  const ContentTypes: seq<string> := ["movie", "series", "documentary", "music_video", "short_film"]
  const Genres: seq<string> := ["action", "comedy", "drama", "science_fiction", "horror", "thriller", "romance", "animation"]
  const Ratings: seq<string> := ["G", "PG", "PG-13", "R", "NC-17", "TV-Y", "TV-G", "TV-PG", "TV-14", "TV-MA"]
  const Platforms: seq<string> := ["web", "mobile_ios", "mobile_android", "smart_tv", "gaming_console"]
  const Countries: seq<string> := ["US", "UK", "CA", "AU", "FR", "DE", "JP", "BR", "IN", "MX"]
}

/**
 * The content catalog generator, `generate_content_metadata`. Each record
 * gets the sequential id CONT000001, CONT000002, ...; every other field is
 * drawn from a ContentDraw. Whether the series fields are attached is decided
 * by a draw of its own, not by the record's `content_type`.
 */
module ContentGen {
  import opened Text
  import opened Records
  import opened Sampling
  import opened Reference
  import opened Runs

  const Languages: seq<string> := ["en", "es", "fr", "de", "ja", "ko", "hi"]
  const TagVocabulary: seq<string> := ["trending", "popular", "exclusive", "award_winning", "new_release"]

  /** Fields every content record has. */
  const BaseFields: set<Field> := {
    ContentId, Title, ContentType, Genre, ReleaseDate, Rating,
    DurationMinutes, IsOriginal, Language, Creator, Description, Tags
  }

  /** Fields only a record whose series draw came up 'series' has. */
  const SeriesFields: set<Field> := {SeasonCount, EpisodeCount}

  /**
   * The random draws behind one content record. The release date is the
   * already formatted date (now minus a random number of days); the rest are
   * raw draws for the choice/randint/sample calls.
   */
  datatype ContentDraw = ContentDraw(
    seriesPick: nat,             // random.choice(content_types) == 'series'
    typePick: nat,               // content_type
    genrePick: nat,
    releaseDate: string,
    ratingPick: nat,
    durationDraw: nat,           // randint(1, 180)
    originalPick: nat,           // choice([True, False])
    languagePick: nat,
    creatorDraw: nat,            // randint(1, 20)
    tagCountDraw: nat,           // randint(1, 3)
    tagDraws: (nat, nat, nat),   // random.sample, one draw per tag
    seasonDraw: nat,             // randint(1, 5)
    perSeasonDraw: nat           // randint(8, 24)
  )

  /** The outcome of every random call behind one record. */
  datatype ContentValues = ContentValues(
    isSeries: bool, contentType: string, genre: string, releaseDate: string,
    rating: string, duration: int, original: bool, language: string,
    creatorNumber: nat, tags: seq<string>, seasons: int, perSeason: int, episodes: int)

  /** `f"CONT{i:06d}"`. */
  function SequentialId(i: nat): string {
    "CONT" + ZeroPad(i, 6)
  }

  /** The separate draw that decides whether the series fields are added. */
  predicate IsSeriesDraw(d: ContentDraw) {
    Choice(ContentTypes, d.seriesPick) == "series"
  }

  /** The season count and episode count of a series record are consistent. */
  predicate SeriesFieldsOk(r: Record)
    requires SeriesFields <= r.Keys
  {
    && r[SeasonCount].Int? && 1 <= r[SeasonCount].i <= 5
    && r[EpisodeCount].Int?
    && r[EpisodeCount].i % r[SeasonCount].i == 0
    && 8 <= r[EpisodeCount].i / r[SeasonCount].i <= 24
  }

  /** `a * b // b == a` and the division leaves no remainder. */
  lemma ExactDivision(a: int, b: int)
    requires b > 0
    ensures (a * b) / b == a && (a * b) % b == 0
  {
    var q, r := (a * b) / b, (a * b) % b;
    assert b * (a - q) == r;
    assert a - q >= 1 ==> b * (a - q) >= b;
    assert a - q <= -1 ==> b * (a - q) <= -b;
  }

  /** The outcomes of the random calls at lines 24-44 for one set of draws. */
  function Outcomes(d: ContentDraw): (v: ContentValues)
    ensures v.isSeries == IsSeriesDraw(d)
    ensures 1 <= v.duration <= 180
    ensures 1 <= |v.tags| <= 3
    ensures 1 <= v.seasons <= 5 && 8 <= v.perSeason <= 24
    ensures v.episodes == v.perSeason * v.seasons
  {
    var seasons := RandInt(1, 5, d.seasonDraw);
    var perSeason := RandInt(8, 24, d.perSeasonDraw);
    ContentValues(
      IsSeriesDraw(d),
      Choice(ContentTypes, d.typePick),
      Choice(Genres, d.genrePick),
      d.releaseDate,
      Choice(Ratings, d.ratingPick),
      RandInt(1, 180, d.durationDraw),
      Choice([true, false], d.originalPick),
      Choice(Languages, d.languagePick),
      RandInt(1, 20, d.creatorDraw),
      Sample(TagVocabulary, RandInt(1, 3, d.tagCountDraw), [d.tagDraws.0, d.tagDraws.1, d.tagDraws.2]),
      seasons,
      perSeason,
      perSeason * seasons)
  }

  /** The generated title, creator and description strings. */
  const TitlePrefix: string := "Sample Media Title "
  const CreatorPrefix: string := "Creator Studio "
  const DescriptionPrefix: string := "This is a sample description for content "

  function TitleFor(i: nat): string { TitlePrefix + Digits(i) }
  function CreatorFor(n: nat): string { CreatorPrefix + Digits(n) }
  function DescriptionFor(id: string): string { DescriptionPrefix + id + "." }

  /** The dict built for the i-th record (1-based) from its draws. */
  function ContentRecord(i: nat, d: ContentDraw): (r: Record)
    ensures ContentId in r && r[ContentId] == Str(SequentialId(i))
  {
    var v := Outcomes(d);
    var base := map[
      ContentId := Str(SequentialId(i)),
      Title := Str(TitleFor(i)),
      ContentType := Str(v.contentType),
      Genre := Str(v.genre),
      ReleaseDate := Str(v.releaseDate),
      Rating := Str(v.rating),
      DurationMinutes := Int(v.duration),
      IsOriginal := Bool(v.original),
      Language := Str(v.language),
      Creator := Str(CreatorFor(v.creatorNumber)),
      Description := Str(DescriptionFor(SequentialId(i))),
      Tags := StrList(v.tags)
    ];
    if v.isSeries then base[SeasonCount := Int(v.seasons)][EpisodeCount := Int(v.episodes)] else base
  }

  /** A record has the twelve base keys, plus the two series keys exactly when the series draw says so. */
  lemma ContentRecordKeys(i: nat, d: ContentDraw)
    ensures ContentRecord(i, d).Keys == BaseFields + (if IsSeriesDraw(d) then SeriesFields else {})
  {
  }

  /** The content type is one of the reference types. */
  lemma ContentRecordType(i: nat, d: ContentDraw)
    ensures var r := ContentRecord(i, d);
      ContentType in r && r[ContentType].Str? && r[ContentType].s in ContentTypes
  {
    ChoiceIn(ContentTypes, d.typePick);
  }

  /** The duration lies in [1, 180] minutes. */
  lemma ContentRecordDuration(i: nat, d: ContentDraw)
    ensures var r := ContentRecord(i, d);
      DurationMinutes in r && r[DurationMinutes].Int? && 1 <= r[DurationMinutes].i <= 180
  {
  }

  /** One to three distinct tags, all from the tag vocabulary. */
  lemma ContentRecordTags(i: nat, d: ContentDraw)
    ensures var r := ContentRecord(i, d);
      && Tags in r && r[Tags].StrList? && 1 <= |r[Tags].items| <= 3 && Distinct(r[Tags].items)
      && forall t :: t in r[Tags].items ==> t in TagVocabulary
  {
    var k := RandInt(1, 3, d.tagCountDraw);
    var ds := [d.tagDraws.0, d.tagDraws.1, d.tagDraws.2];
    assert Distinct(TagVocabulary);
    SampleProperties(TagVocabulary, k, ds);
  }

  /** A record with the series fields has 1-5 seasons of 8-24 episodes each. */
  lemma ContentRecordSeries(i: nat, d: ContentDraw)
    requires IsSeriesDraw(d)
    ensures SeriesFields <= ContentRecord(i, d).Keys && SeriesFieldsOk(ContentRecord(i, d))
  {
    var v := Outcomes(d);
    ExactDivision(v.perSeason, v.seasons);
  }

  /** A record carries either both series counts, consistent, or neither. */
  lemma ContentRecordSeriesOrNone(i: nat, d: ContentDraw)
    ensures var r := ContentRecord(i, d);
      || (SeriesFields <= r.Keys && SeriesFieldsOk(r))
      || (SeasonCount !in r && EpisodeCount !in r)
  {
    if IsSeriesDraw(d) {
      ContentRecordSeries(i, d);
    } else {
      assert SeasonCount !in ContentRecord(i, d) && EpisodeCount !in ContentRecord(i, d);
    }
  }

  /** Two different positions never get the same content id. */
  lemma SequentialIdInjective(i: nat, j: nat)
    requires SequentialId(i) == SequentialId(j)
    ensures i == j
  {
    assert SequentialId(i)[4..] == ZeroPad(i, 6);
    assert SequentialId(j)[4..] == ZeroPad(j, 6);
    ZeroPadInjective(i, j, 6);
  }

  /** Up to 999999 records an id is "CONT" and exactly six digits reading back as i. */
  lemma SequentialIdFormat(i: nat)
    requires i < 1000000
    ensures |SequentialId(i)| == 10 && SequentialId(i)[..4] == "CONT"
    ensures forall k :: 4 <= k < 10 ==> IsDigit(SequentialId(i)[k])
    ensures ParseDecimal(SequentialId(i)[4..]) == i
  {
    assert Pow10(6) == 1000000;
    ZeroPadLength(i, 6);
    assert SequentialId(i)[4..] == ZeroPad(i, 6);
    ZeroPadRoundTrip(i, 6);
  }

  /** A 'movie' can carry season fields: the two draws disagree. */
  lemma MovieWithSeasons(i: nat, d: ContentDraw)
    requires d.seriesPick % 5 == 1 && d.typePick % 5 == 0
    ensures ContentType in ContentRecord(i, d) && ContentRecord(i, d)[ContentType] == Str("movie")
    ensures SeasonCount in ContentRecord(i, d) && EpisodeCount in ContentRecord(i, d)
  {
    assert Choice(ContentTypes, d.typePick) == "movie";
    assert IsSeriesDraw(d);
  }

  /** A 'series' can lack season fields: the two draws disagree. */
  lemma SeriesWithoutSeasons(i: nat, d: ContentDraw)
    requires d.seriesPick % 5 == 0 && d.typePick % 5 == 1
    ensures ContentType in ContentRecord(i, d) && ContentRecord(i, d)[ContentType] == Str("series")
    ensures SeasonCount !in ContentRecord(i, d) && EpisodeCount !in ContentRecord(i, d)
  {
    assert Choice(ContentTypes, d.typePick) == "series";
    assert !IsSeriesDraw(d);
  }

  /** Records whose ids are the sequential ids of positions 1, 2, ... carry pairwise distinct ids. */
  lemma SequentialIdsDistinct(records: seq<Record>)
    requires forall k :: 0 <= k < |records| ==> ContentId in records[k] && records[k][ContentId] == Str(SequentialId(k + 1))
    ensures DistinctOn(records, ContentId)
  {
    forall k, m | 0 <= k < m < |records|
      ensures records[k][ContentId] != records[m][ContentId]
    {
      if records[k][ContentId] == records[m][ContentId] {
        SequentialIdInjective(k + 1, m + 1);
      }
    }
  }

  /** The catalog of n records: record k (1-based) is built from draw k - 1. */
  function ContentRecords(n: nat, draws: nat -> ContentDraw): (rs: seq<Record>)
    ensures |rs| == n
  {
    Numbered(n, k => ContentRecord(k + 1, draws(k)))
  }

  /** The k-th record of the catalog is the record for position k + 1. */
  lemma ContentRecordsAt(n: nat, draws: nat -> ContentDraw, k: nat)
    requires k < n
    ensures ContentRecords(n, draws)[k] == ContentRecord(k + 1, draws(k))
  {
    NumberedAt(n, k => ContentRecord(k + 1, draws(k)), k);
  }

  /** No two records of a catalog share a content id. */
  lemma CatalogIdsDistinct(n: nat, draws: nat -> ContentDraw)
    ensures DistinctOn(ContentRecords(n, draws), ContentId)
  {
    var rs := ContentRecords(n, draws);
    forall k | 0 <= k < n
      ensures ContentId in rs[k] && rs[k][ContentId] == Str(SequentialId(k + 1))
    {
      ContentRecordsAt(n, draws, k);
    }
    SequentialIdsDistinct(rs);
  }

  /**
   * `generate_content_metadata(num_records)`: the records for 1..num_records
   * in order (none when num_records <= 0), all with distinct ids.
   */
  method GenerateContentMetadata(numRecords: int, draws: nat -> ContentDraw) returns (records: seq<Record>)
    ensures records == ContentRecords(if numRecords > 0 then numRecords else 0, draws)
    ensures DistinctOn(records, ContentId)
  {
    var n: nat := if numRecords > 0 then numRecords else 0;
    records := [];
    for i := 1 to n + 1
      invariant records == ContentRecords(i - 1, draws)
    {
      records := records + [ContentRecord(i, draws(i - 1))];
    }
    CatalogIdsDistinct(n, draws);
  }
}
