/**
 * `main`: generate the three datasets at their fixed volumes, then write
 * each one to the data lake as newline-delimited JSON under a date
 * partition, and the viewing sessions also as CSV. An S3 `put_object` call
 * is an Upload value; the uploads made are returned in call order.
 */
module Publish {
  import opened Text
  import opened Records
  import opened Sampling
  import opened ContentGen
  import opened ViewingGen
  import opened EngagementGen
  import opened Serialize

  const BucketName: string := "media-datalake-iceberg-demo"

  /** The volumes `main` asks for. */
  const ContentVolume: nat := 200
  const ViewingVolume: nat := 2000
  const EngagementVolume: nat := 1000

  /** The dataset names, which are also their key prefixes. */
  const ContentName: string := "content_metadata"
  const ViewingName: string := "viewing_data"
  const EngagementName: string := "engagement_data"

  const SuccessMessage: string := "Successfully generated synthetic media data"

  /** One `s3_client.put_object(Bucket=..., Key=..., Body=...)` call. */
  datatype Upload = Upload(bucket: string, key: string, body: string)

  /** A dataset with the name it is published under. */
  datatype Batch = Batch(dataset: seq<Record>, name: string)

  // ---------------------------------------------------------------------
  // Object keys
  // ---------------------------------------------------------------------

  /** `f'raw/{name}/batch_date={today}/{name}.json'`. */
  function JsonKey(name: string, today: string): string {
    "raw/" + name + "/batch_date=" + today + "/" + name + ".json"
  }

  /** `f'raw/{name}_csv/batch_date={today}/{name}.csv'`. */
  function CsvKey(name: string, today: string): string {
    "raw/" + name + "_csv/batch_date=" + today + "/" + name + ".csv"
  }

  /**
   * The JSON key is four path segments: the raw zone, the dataset, the
   * date partition and the file; so name and date read back from the key.
   */
  lemma JsonKeySegments(name: string, today: string)
    requires '/' !in name && '/' !in today
    ensures Split(JsonKey(name, today), '/') == ["raw", name, "batch_date=" + today, name + ".json"]
  {
    var parts := ["raw", name, "batch_date=" + today, name + ".json"];
    JoinFour('/', parts[0], parts[1], parts[2], parts[3]);
    assert JsonKey(name, today) == parts[0] + "/" + parts[1] + "/" + parts[2] + "/" + parts[3];
    assert forall i :: 0 <= i < 4 ==> '/' !in parts[i];
    SplitJoin(parts, '/');
  }

  /** The CSV key has the same four segments, in the dataset's `_csv` folder. */
  lemma CsvKeySegments(name: string, today: string)
    requires '/' !in name && '/' !in today
    ensures Split(CsvKey(name, today), '/') == ["raw", name + "_csv", "batch_date=" + today, name + ".csv"]
  {
    var parts := ["raw", name + "_csv", "batch_date=" + today, name + ".csv"];
    JoinFour('/', parts[0], parts[1], parts[2], parts[3]);
    assert CsvKey(name, today) == parts[0] + "/" + parts[1] + "/" + parts[2] + "/" + parts[3];
    assert forall i :: 0 <= i < 4 ==> '/' !in parts[i];
    SplitJoin(parts, '/');
  }

  /** A JSON object and a CSV object never share a key: the file extensions differ. */
  lemma JsonAndCsvKeysDiffer(name: string, today: string, name': string, today': string)
    ensures JsonKey(name, today) != CsvKey(name', today')
  {
    var j, c := JsonKey(name, today), CsvKey(name', today');
    assert j[|j| - 1] == 'n';
    assert c[|c| - 1] == 'v';
  }

  /** Datasets with different names land under different JSON keys on the same day. */
  lemma JsonKeysDiffer(name: string, name': string, today: string)
    requires '/' !in name && '/' !in name' && '/' !in today
    requires name != name'
    ensures JsonKey(name, today) != JsonKey(name', today)
  {
    JsonKeySegments(name, today);
    JsonKeySegments(name', today);
  }

  // ---------------------------------------------------------------------
  // Writing the datasets
  // ---------------------------------------------------------------------

  /** The uploads for one dataset: its JSON, and for the viewing sessions also its CSV. */
  function UploadsFor(batch: Batch, today: string, encode: Record -> string): seq<Upload> {
    [Upload(BucketName, JsonKey(batch.name, today), Ndjson(batch.dataset, encode))]
    + (if batch.name == ViewingName then [Upload(BucketName, CsvKey(batch.name, today), CsvText(batch.dataset))] else [])
  }

  /** The uploads for the batches, in order. */
  function Published(batches: seq<Batch>, today: string, encode: Record -> string): seq<Upload> {
    if |batches| == 0 then []
    else Published(batches[..|batches| - 1], today, encode) + UploadsFor(batches[|batches| - 1], today, encode)
  }

  /** The write loop of `main`: for each dataset, put its JSON, and for the viewing sessions its CSV. */
  method Publish(batches: seq<Batch>, today: string, encode: Record -> string) returns (uploads: seq<Upload>)
    ensures uploads == Published(batches, today, encode)
  {
    uploads := [];
    for i := 0 to |batches|
      invariant uploads == Published(batches[..i], today, encode)
    {
      var batch := batches[i];
      assert batches[..i + 1][..i] == batches[..i];
      var ndjson := Ndjson(batch.dataset, encode);
      var written := [Upload(BucketName, JsonKey(batch.name, today), ndjson)];
      if batch.name == ViewingName {
        var csv := ToCsv(batch.dataset);
        written := written + [Upload(BucketName, CsvKey(batch.name, today), csv)];
      }
      uploads := uploads + written;
    }
    assert batches[..|batches|] == batches;
  }

  /** How many of the batches are the viewing sessions. */
  function ViewingBatches(batches: seq<Batch>): nat {
    if |batches| == 0 then 0
    else ViewingBatches(batches[..|batches| - 1]) + (if batches[|batches| - 1].name == ViewingName then 1 else 0)
  }

  /**
   * Every upload goes to the bucket, and there is one per batch plus one
   * per viewing batch.
   */
  lemma {:induction false} PublishedShape(batches: seq<Batch>, today: string, encode: Record -> string)
    ensures |Published(batches, today, encode)| == |batches| + ViewingBatches(batches)
    ensures forall u :: u in Published(batches, today, encode) ==> u.bucket == BucketName
  {
    if |batches| > 0 {
      PublishedShape(batches[..|batches| - 1], today, encode);
    }
  }

  // ---------------------------------------------------------------------
  // The generated datasets
  // ---------------------------------------------------------------------

  /**
   * A record with an id, a positive integer duration, and either consistent
   * season and episode counts or neither, is one a session can use.
   */
  lemma WellFormedWatchable(c: Record)
    requires ContentId in c
    requires DurationMinutes in c && c[DurationMinutes].Int? && c[DurationMinutes].i >= 1
    requires (SeriesFields <= c.Keys && SeriesFieldsOk(c)) || (SeasonCount !in c && EpisodeCount !in c)
    ensures Watchable(c)
  {
    if SeasonCount in c {
      assert Get(c, EpisodeCount, Int(10)).i / Get(c, SeasonCount, Int(1)).i >= 8;
    } else {
      assert Get(c, EpisodeCount, Int(10)).i / Get(c, SeasonCount, Int(1)).i == 10;
    }
  }

  /** Every content record is one a viewing session can use. */
  lemma ContentWatchable(i: nat, d: ContentDraw)
    ensures Watchable(ContentRecord(i, d))
  {
    ContentRecordDuration(i, d);
    ContentRecordSeriesOrNone(i, d);
    WellFormedWatchable(ContentRecord(i, d));
  }

  /** Every session record carries the keys an engagement copies. */
  lemma SessionJoinable(content: seq<Record>, d: ViewingDraw)
    requires ViewingRecordOf(content, d).Ok?
    ensures Joinable(ViewingRecordOf(content, d).value)
  {
    ViewingRecordKeys(content, d);
  }

  /** Every record of a catalog is one a viewing session can use. */
  lemma CatalogWatchable(n: nat, cd: nat -> ContentDraw)
    ensures forall k :: 0 <= k < |ContentRecords(n, cd)| ==> Watchable(ContentRecords(n, cd)[k])
  {
    forall k | 0 <= k < n
      ensures Watchable(ContentRecords(n, cd)[k])
    {
      ContentRecordsAt(n, cd, k);
      ContentWatchable(k + 1, cd(k));
    }
  }

  /** The catalog `main` generates. */
  function Catalog(cd: nat -> ContentDraw): (content: seq<Record>)
    ensures |content| == ContentVolume
    ensures forall k :: 0 <= k < |content| ==> Watchable(content[k])
  {
    CatalogWatchable(ContentVolume, cd);
    ContentRecords(ContentVolume, cd)
  }

  /** The sessions `main` generates: over a catalog of watchable records, none fails. */
  function Sessions(cd: nat -> ContentDraw, vd: nat -> ViewingDraw): (viewing: seq<Record>)
    ensures |viewing| == ViewingVolume
    ensures forall k :: 0 <= k < |viewing| ==> Joinable(viewing[k])
  {
    var content := Catalog(cd);
    WatchableCatalogSucceeds(content, ViewingVolume, vd);
    var viewing := ViewingRecords(content, ViewingVolume, vd).value;
    ViewingRecordsAt(content, ViewingVolume, vd);
    assert forall k :: 0 <= k < ViewingVolume ==> Joinable(viewing[k]) by {
      forall k | 0 <= k < ViewingVolume ensures Joinable(viewing[k]) {
        SessionJoinable(content, vd(k));
      }
    }
    viewing
  }

  /** The engagements `main` generates: over non-empty joinable sessions, none fails. */
  function Engagements(cd: nat -> ContentDraw, vd: nat -> ViewingDraw, ed: nat -> EngagementDraw): (engagement: seq<Record>)
    ensures |engagement| <= EngagementVolume
  {
    var viewing := Sessions(cd, vd);
    JoinableSessionsSucceed(viewing, EngagementVolume, ed);
    EngagementCount(viewing, EngagementVolume, ed);
    EngagementRecords(viewing, EngagementVolume, ed).value
  }

  /** The three datasets in the order `main` writes them. */
  function Batches(cd: nat -> ContentDraw, vd: nat -> ViewingDraw, ed: nat -> EngagementDraw): seq<Batch> {
    [Batch(Catalog(cd), ContentName), Batch(Sessions(cd, vd), ViewingName), Batch(Engagements(cd, vd, ed), EngagementName)]
  }

  /** The session generator, run on the catalog, produces the sessions. */
  lemma SessionsGenerated(cd: nat -> ContentDraw, vd: nat -> ViewingDraw)
    ensures ViewingRecords(Catalog(cd), ViewingVolume, vd) == Ok(Sessions(cd, vd))
  {
    WatchableCatalogSucceeds(Catalog(cd), ViewingVolume, vd);
  }

  /** The engagement generator, run on the sessions, produces the engagements. */
  lemma EngagementsGenerated(cd: nat -> ContentDraw, vd: nat -> ViewingDraw, ed: nat -> EngagementDraw)
    ensures EngagementRecords(Sessions(cd, vd), EngagementVolume, ed) == Ok(Engagements(cd, vd, ed))
  {
    JoinableSessionsSucceed(Sessions(cd, vd), EngagementVolume, ed);
  }

  /**
   * `main()`: generate 200 content records, 2000 sessions over them and
   * 1000 engagement attempts over those, then write them. No generator
   * raises on what the one before it produced, so it always reports
   * success.
   */
  method GenerateAndPublish(cd: nat -> ContentDraw, vd: nat -> ViewingDraw, ed: nat -> EngagementDraw,
                            today: string, encode: Record -> string)
    returns (message: string, uploads: seq<Upload>)
    ensures message == SuccessMessage
    ensures uploads == Published(Batches(cd, vd, ed), today, encode)
  {
    var content := GenerateContentMetadata(ContentVolume, cd);
    SessionsGenerated(cd, vd);
    var viewing := GenerateViewingData(content, ViewingVolume, vd);
    EngagementsGenerated(cd, vd, ed);
    var engagement := GenerateEngagementData(viewing.value, EngagementVolume, ed);
    uploads := Publish([Batch(content, ContentName), Batch(viewing.value, ViewingName), Batch(engagement.value, EngagementName)], today, encode);
    message := SuccessMessage;
  }

  /** The keys of the four objects `main` writes, in order. */
  function MainKeys(today: string): seq<string> {
    [JsonKey(ContentName, today), JsonKey(ViewingName, today), CsvKey(ViewingName, today), JsonKey(EngagementName, today)]
  }

  /** The four objects of a day land under four different keys. */
  lemma MainKeysDistinct(today: string)
    ensures forall i, j :: 0 <= i < j < 4 ==> MainKeys(today)[i] != MainKeys(today)[j]
  {
    // the JSON keys already differ in the first letter of the dataset name
    assert JsonKey(ContentName, today)[4] == 'c';
    assert JsonKey(ViewingName, today)[4] == 'v';
    assert JsonKey(EngagementName, today)[4] == 'e';
    JsonAndCsvKeysDiffer(ContentName, today, ViewingName, today);
    JsonAndCsvKeysDiffer(ViewingName, today, ViewingName, today);
    JsonAndCsvKeysDiffer(EngagementName, today, ViewingName, today);
  }

  /** Three batches are published one after the other. */
  lemma PublishedThree(b0: Batch, b1: Batch, b2: Batch, today: string, encode: Record -> string)
    ensures Published([b0, b1, b2], today, encode)
         == UploadsFor(b0, today, encode) + UploadsFor(b1, today, encode) + UploadsFor(b2, today, encode)
  {
    var bs := [b0, b1, b2];
    assert bs[..2][..1] == [b0] && bs[..3][..2] == [b0, b1] && [b0][..0] == [];
    assert Published([b0], today, encode) == UploadsFor(b0, today, encode);
  }

  /**
   * The four objects `main` writes, in order: the catalog's JSON, the
   * sessions' JSON and CSV, the engagements' JSON, all in the bucket under
   * the day's keys.
   */
  lemma MainUploads(content: seq<Record>, viewing: seq<Record>, engagement: seq<Record>,
                    today: string, encode: Record -> string)
    ensures Published([Batch(content, ContentName), Batch(viewing, ViewingName), Batch(engagement, EngagementName)], today, encode) == [
      Upload(BucketName, MainKeys(today)[0], Ndjson(content, encode)),
      Upload(BucketName, MainKeys(today)[1], Ndjson(viewing, encode)),
      Upload(BucketName, MainKeys(today)[2], CsvText(viewing)),
      Upload(BucketName, MainKeys(today)[3], Ndjson(engagement, encode))]
  {
    PublishedThree(Batch(content, ContentName), Batch(viewing, ViewingName), Batch(engagement, EngagementName), today, encode);
    assert ContentName != ViewingName && EngagementName != ViewingName;
  }

  /**
   * What `main` writes: 200 catalog records with distinct ids, 2000
   * sessions, at most 1000 engagements each referencing one of the sessions.
   */
  lemma MainDatasets(cd: nat -> ContentDraw, vd: nat -> ViewingDraw, ed: nat -> EngagementDraw)
    ensures |Catalog(cd)| == 200 && DistinctOn(Catalog(cd), ContentId)
    ensures |Sessions(cd, vd)| == 2000
    ensures |Engagements(cd, vd, ed)| <= 1000
    ensures forall k :: 0 <= k < |Engagements(cd, vd, ed)| ==> JoinsSome(Engagements(cd, vd, ed)[k], Sessions(cd, vd))
  {
    CatalogIdsDistinct(ContentVolume, cd);
    var viewing := Sessions(cd, vd);
    JoinableSessionsSucceed(viewing, EngagementVolume, ed);
    ReferentialIntegrity(viewing, EngagementVolume, ed);
  }
}
