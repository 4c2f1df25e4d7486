/**
 * The viewing-session generator, `generate_viewing_data`. Each session picks
 * a content record, watches it for a drawn number of minutes, and, when the
 * content's type is 'series', points at one episode of it through a
 * composite id `<content_id>_S<season>E<episode>`.
 */
module ViewingGen {
  import opened Text
  import opened Records
  import opened Sampling
  import opened Reference
  import opened Runs

  const DeviceTypes: seq<string> := ["TV", "Phone", "Tablet", "Computer", "Console"]
  const StreamingQualities: seq<string> := ["SD", "HD", "FHD", "4K"]
  const UserPrefix: string := "USER"

  /** The keys of every viewing record. */
  const ViewingFields: set<Field> := {
    ViewId, UserId, ContentId, ViewDate, StartTime, ViewDurationMinutes,
    CompletionPercentage, Platform, DeviceType, Location, StreamingQuality, IsDownloaded
  }

  /**
   * The random draws behind one viewing record. The start time is already
   * formatted twice (date only, and date and time) and the uuid is an opaque
   * token.
   */
  datatype ViewingDraw = ViewingDraw(
    contentPick: nat,       // random.choice(content_metadata)
    viewDate: string,       // start_time.strftime('%Y-%m-%d')
    startTime: string,      // start_time.strftime('%Y-%m-%d %H:%M:%S')
    durationDraw: nat,      // randint(1, duration)
    seasonDraw: nat,        // randint(1, season_count)
    episodeDraw: nat,       // randint(1, episode_count // season_count)
    viewId: string,         // str(uuid.uuid4())
    userDraw: nat,          // randint(1, 10000)
    platformPick: nat,
    devicePick: nat,
    locationPick: nat,
    qualityPick: nat,
    downloadedPick: nat
  )

  /** The composite id of one episode: `f"{id}_S{season:02d}E{episode:02d}"`. */
  function EpisodeId(id: string, season: nat, episode: nat): string {
    id + "_S" + ZeroPad(season, 2) + "E" + ZeroPad(episode, 2)
  }

  /** `f"USER{n:07d}"`. */
  function UserIdFor(n: nat): string {
    UserPrefix + ZeroPad(n, 7)
  }

  /**
   * `min(100, int((view / duration) * 100))` computed on exact rationals:
   * the share of the content watched, in whole percent.
   */
  function Completion(view: int, duration: int): (pct: int)
    requires 0 <= view && 1 <= duration
    ensures 0 <= pct <= 100
  {
    var p := (100 * view) / duration;
    if p < 100 then p else 100
  }

  /** `int(content.get('duration_minutes', 90))`, with its failure. */
  function DurationOf(c: Record): Option<int> {
    AsInt(Get(c, DurationMinutes, Int(90)))
  }

  /** Whether `content.get('content_type') == 'series'`. */
  predicate IsSeriesContent(c: Record) {
    Get(c, ContentType, Null) == Str("series")
  }

  /**
   * The `content_id` a session records (lines 63-69): for series content
   * an episode of it, drawn from the season and episode counts, else the
   * content's own id.
   */
  function SessionContentId(c: Record, d: ViewingDraw): Result<Value, GenError> {
    if IsSeriesContent(c) then
      match AsInt(Get(c, SeasonCount, Int(1)))
      case None => Err(NotAnInteger)
      case Some(seasons) =>
        if seasons < 1 then Err(EmptyRange)
        else
          var season := RandInt(1, seasons, d.seasonDraw);
          match AsInt(Get(c, EpisodeCount, Int(10)))
          case None => Err(NotAnInteger)
          case Some(episodes) =>
            var perSeason := episodes / seasons;
            if perSeason < 1 then Err(EmptyRange)
            else
              var episode := RandInt(1, perSeason, d.episodeDraw);
              if ContentId !in c then Err(MissingKey(ContentId))
              else Ok(Str(EpisodeId(Render(c[ContentId]), season, episode)))
    else if ContentId !in c then Err(MissingKey(ContentId))
    else Ok(c[ContentId])
  }

  /** The dict built for one session watching content c, or the exception that stops the generator. */
  function ViewingRecordOf(content: seq<Record>, d: ViewingDraw): Result<Record, GenError> {
    if |content| == 0 then Err(EmptySequence)
    else
      var c := Choice(content, d.contentPick);
      match DurationOf(c)
      case None => Err(NotAnInteger)
      case Some(duration) =>
        if duration < 1 then Err(EmptyRange)
        else
          var view := RandInt(1, duration, d.durationDraw);
          match SessionContentId(c, d)
          case Err(e) => Err(e)
          case Ok(id) =>
            Ok(map[
              ViewId := Str(d.viewId),
              UserId := Str(UserIdFor(RandInt(1, 10000, d.userDraw))),
              ContentId := id,
              ViewDate := Str(d.viewDate),
              StartTime := Str(d.startTime),
              ViewDurationMinutes := Int(view),
              CompletionPercentage := Int(Completion(view, duration)),
              Platform := Str(Choice(Platforms, d.platformPick)),
              DeviceType := Str(Choice(DeviceTypes, d.devicePick)),
              Location := Str(Choice(Countries, d.locationPick)),
              StreamingQuality := Str(Choice(StreamingQualities, d.qualityPick)),
              IsDownloaded := Bool(Choice([true, false], d.downloadedPick))
            ])
  }

  /** The first n sessions, or the exception raised by the first one that fails. */
  function ViewingRecords(content: seq<Record>, n: nat, draws: nat -> ViewingDraw): Result<seq<Record>, GenError> {
    Collect(d => ViewingRecordOf(content, d), n, draws)
  }

  /**
   * `generate_viewing_data(content_metadata, num_records)`: the sessions in
   * draw order, or the first exception.
   */
  method GenerateViewingData(content: seq<Record>, numRecords: int, draws: nat -> ViewingDraw)
    returns (result: Result<seq<Record>, GenError>)
    ensures result == ViewingRecords(content, if numRecords > 0 then numRecords else 0, draws)
  {
    var n: nat := if numRecords > 0 then numRecords else 0;
    var records: seq<Record> := [];
    for i := 0 to n
      invariant ViewingRecords(content, i, draws) == Ok(records)
    {
      var r := ViewingRecordOf(content, draws(i));
      if r.Err? {
        CollectErrorPersists(d => ViewingRecordOf(content, d), i + 1, n, draws);
        return Err(r.error);
      }
      records := records + [r.value];
    }
    return Ok(records);
  }

  // ---------------------------------------------------------------------
  // When no session can fail
  // ---------------------------------------------------------------------

  /**
   * A content record every session can use: it has an id, a positive
   * integer duration (or none), and if its type is 'series' its season
   * and episode counts (or their defaults) leave at least one episode per
   * season.
   */
  predicate Watchable(c: Record) {
    && ContentId in c
    && (DurationMinutes in c ==> c[DurationMinutes].Int? && c[DurationMinutes].i >= 1)
    && (IsSeriesContent(c) ==>
          && (SeasonCount in c ==> c[SeasonCount].Int? && c[SeasonCount].i >= 1)
          && (EpisodeCount in c ==> c[EpisodeCount].Int?)
          && Get(c, EpisodeCount, Int(10)).i / Get(c, SeasonCount, Int(1)).i >= 1)
  }

  /** A session over a watchable record never fails. */
  lemma WatchableSessionSucceeds(content: seq<Record>, d: ViewingDraw)
    requires |content| > 0 && Watchable(Choice(content, d.contentPick))
    ensures ViewingRecordOf(content, d).Ok?
  {
  }

  /** Sessions over a non-empty catalog of watchable records never fail. */
  lemma WatchableCatalogSucceeds(content: seq<Record>, n: nat, draws: nat -> ViewingDraw)
    requires |content| > 0
    requires forall k :: 0 <= k < |content| ==> Watchable(content[k])
    ensures ViewingRecords(content, n, draws).Ok?
  {
    var step := d => ViewingRecordOf(content, d);
    forall j | 0 <= j < n
      ensures step(draws(j)).Ok?
    {
      var d := draws(j);
      assert Choice(content, d.contentPick) == content[d.contentPick % |content|];
      WatchableSessionSucceeds(content, d);
    }
    CollectSucceeds(step, n, draws);
  }

  /** n successful sessions make a list of exactly n records, the k-th built from draw k. */
  lemma ViewingRecordsAt(content: seq<Record>, n: nat, draws: nat -> ViewingDraw)
    requires ViewingRecords(content, n, draws).Ok?
    ensures |ViewingRecords(content, n, draws).value| == n
    ensures forall k :: 0 <= k < n ==> ViewingRecordOf(content, draws(k)) == Ok(ViewingRecords(content, n, draws).value[k])
  {
    var step := d => ViewingRecordOf(content, d);
    CollectAt(step, n, draws);
  }

  /** Picking from an empty catalog fails at the first session (IndexError). */
  lemma EmptyCatalogFails(content: seq<Record>, n: nat, draws: nat -> ViewingDraw)
    requires |content| == 0 && n > 0
    ensures ViewingRecords(content, n, draws) == Err(EmptySequence)
  {
    var step := d => ViewingRecordOf(content, d);
    CollectFails(step, n, draws, 0);
  }

  // ---------------------------------------------------------------------
  // What one session record holds
  // ---------------------------------------------------------------------

  /** A session record has exactly the twelve viewing keys. */
  lemma ViewingRecordKeys(content: seq<Record>, d: ViewingDraw)
    requires ViewingRecordOf(content, d).Ok?
    ensures ViewingRecordOf(content, d).value.Keys == ViewingFields
  {
  }

  /**
   * The minutes watched lie between 1 and the chosen content's duration
   * (90 when it has none), and the completion lies in [0, 100].
   */
  lemma ViewingDurationBounded(content: seq<Record>, d: ViewingDraw)
    requires ViewingRecordOf(content, d).Ok?
    ensures |content| > 0 && DurationOf(Choice(content, d.contentPick)).Some?
    ensures var r := ViewingRecordOf(content, d).value;
      && ViewDurationMinutes in r && r[ViewDurationMinutes].Int?
      && 1 <= r[ViewDurationMinutes].i <= DurationOf(Choice(content, d.contentPick)).value
  {
  }

  lemma ViewingCompletionBounded(content: seq<Record>, d: ViewingDraw)
    requires ViewingRecordOf(content, d).Ok?
    ensures var r := ViewingRecordOf(content, d).value;
      CompletionPercentage in r && r[CompletionPercentage].Int? && 0 <= r[CompletionPercentage].i <= 100
  {
  }

  /** A session watched to the end reports 100 percent, and only such a session does. */
  lemma CompletionFull(view: int, duration: int)
    requires 1 <= view <= duration
    ensures Completion(view, duration) == 100 <==> view == duration
  {
    var p := 100 * view;
    var q := p / duration;
    assert p == duration * q + p % duration;
    if view < duration {
      assert p <= 100 * duration - 100;
      assert q >= 100 ==> duration * q >= duration * 100;
    } else {
      assert p == duration * 100;
      assert q <= 99 ==> duration * q <= duration * 99;
      assert q >= 101 ==> duration * q >= duration * 101;
    }
  }

  /** The user id is "USER" and seven digits reading back as a number in [1, 10000]. */
  lemma ViewingUserId(content: seq<Record>, d: ViewingDraw)
    requires ViewingRecordOf(content, d).Ok?
    ensures var r := ViewingRecordOf(content, d).value;
      && UserId in r && r[UserId].Str? && |r[UserId].s| == 11 && r[UserId].s[..4] == "USER"
      && (forall k :: 4 <= k < 11 ==> IsDigit(r[UserId].s[k]))
      && 1 <= ParseDecimal(r[UserId].s[4..]) <= 10000
  {
    var n := RandInt(1, 10000, d.userDraw);
    UserIdFormat(n);
  }

  lemma UserIdFormat(n: nat)
    requires n <= 10000
    ensures |UserIdFor(n)| == 11 && UserIdFor(n)[..4] == "USER"
    ensures forall k :: 4 <= k < 11 ==> IsDigit(UserIdFor(n)[k])
    ensures ParseDecimal(UserIdFor(n)[4..]) == n
  {
    assert Pow10(7) == 10000000;
    ZeroPadLength(n, 7);
    assert UserIdFor(n)[4..] == ZeroPad(n, 7);
    ZeroPadRoundTrip(n, 7);
  }

  /** The platform and location are drawn from the reference lists. */
  lemma ViewingPlaces(content: seq<Record>, d: ViewingDraw)
    requires ViewingRecordOf(content, d).Ok?
    ensures var r := ViewingRecordOf(content, d).value;
      && Platform in r && r[Platform].Str? && r[Platform].s in Platforms
      && Location in r && r[Location].Str? && r[Location].s in Countries
  {
    ChoiceIn(Platforms, d.platformPick);
    ChoiceIn(Countries, d.locationPick);
  }

  // ---------------------------------------------------------------------
  // The content id of a session
  // ---------------------------------------------------------------------

  /** Non-series content is referred to by its own id, unchanged. */
  lemma PlainContentId(content: seq<Record>, d: ViewingDraw)
    requires ViewingRecordOf(content, d).Ok?
    requires !IsSeriesContent(Choice(content, d.contentPick))
    ensures ContentId in Choice(content, d.contentPick)
    ensures ViewingRecordOf(content, d).value[ContentId] == Choice(content, d.contentPick)[ContentId]
  {
  }

  /**
   * Series content is referred to by an episode id: its own id rendered,
   * then a season in [1, season_count or 1] and an episode in
   * [1, episode_count // season_count], with 10 episodes when the count is
   * missing.
   */
  lemma SeriesContentId(content: seq<Record>, d: ViewingDraw)
    requires ViewingRecordOf(content, d).Ok?
    requires IsSeriesContent(Choice(content, d.contentPick))
    ensures var c := Choice(content, d.contentPick);
      && ContentId in c
      && AsInt(Get(c, SeasonCount, Int(1))).Some? && AsInt(Get(c, EpisodeCount, Int(10))).Some?
      && var seasons := AsInt(Get(c, SeasonCount, Int(1))).value;
         var perSeason := AsInt(Get(c, EpisodeCount, Int(10))).value / seasons;
         exists season, episode ::
           && 1 <= season <= seasons && 1 <= episode <= perSeason
           && ViewingRecordOf(content, d).value[ContentId] == Str(EpisodeId(Render(c[ContentId]), season, episode))
  {
    var c := Choice(content, d.contentPick);
    var seasons := AsInt(Get(c, SeasonCount, Int(1))).value;
    var perSeason := AsInt(Get(c, EpisodeCount, Int(10))).value / seasons;
    var season := RandInt(1, seasons, d.seasonDraw);
    var episode := RandInt(1, perSeason, d.episodeDraw);
    assert ViewingRecordOf(content, d).value[ContentId] == Str(EpisodeId(Render(c[ContentId]), season, episode));
  }

  /** An episode id keeps the content id and the two numbers, which read back from it. */
  lemma EpisodeIdRoundTrip(id: string, season: nat, episode: nat)
    requires season < 100 && episode < 100
    ensures var e := EpisodeId(id, season, episode);
      && |e| == |id| + 7
      && e[..|id|] == id
      && e[|id|..|id| + 2] == "_S" && e[|id| + 4] == 'E'
      && ParseDecimal(e[|id| + 2..|id| + 4]) == season
      && ParseDecimal(e[|id| + 5..]) == episode
  {
    assert Pow10(2) == 100;
    ZeroPadLength(season, 2);
    ZeroPadLength(episode, 2);
    ZeroPadRoundTrip(season, 2);
    ZeroPadRoundTrip(episode, 2);
    var e := EpisodeId(id, season, episode);
    assert e == id + "_S" + ZeroPad(season, 2) + "E" + ZeroPad(episode, 2);
    assert e[|id| + 2..|id| + 4] == ZeroPad(season, 2);
    assert e[|id| + 5..] == ZeroPad(episode, 2);
  }

  /** Different episodes of the same content get different ids. */
  lemma EpisodeIdInjective(id: string, s1: nat, e1: nat, s2: nat, e2: nat)
    requires s1 < 100 && e1 < 100 && s2 < 100 && e2 < 100
    requires EpisodeId(id, s1, e1) == EpisodeId(id, s2, e2)
    ensures s1 == s2 && e1 == e2
  {
    EpisodeIdRoundTrip(id, s1, e1);
    EpisodeIdRoundTrip(id, s2, e2);
  }

}
