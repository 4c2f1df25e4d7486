# Synthetic media data generator — a Dafny model

`scripts/generate_media_data.py` generates three synthetic datasets for a
media-streaming data lake. It writes them to an S3 bucket with a date
partition in the object keys:

- a catalog of content records (movies, series, documentaries, ...);
- viewing sessions over that catalog;
- engagement events (likes, ratings, shares) over those sessions.

Every dataset is written as newline-delimited JSON. The viewing sessions are
also written as a CSV file, with the sorted union of their keys as the header.

This project models the deterministic core of that script. Every random
draw becomes an explicit input:

- a `random.choice` or `random.randint` is a raw natural number `draw`;
- `Choice(xs, draw)` is `xs[draw % |xs|]`;
- `RandInt(lo, hi, draw)` is `lo + draw % (hi - lo + 1)`;
- a uuid and a formatted date are opaque strings carried by the draw.

Each generator takes a stream `nat -> Draw` with one bundle of draws per loop
iteration. The model then proves what the script promises for any draws.

Modules:

- `Text`:
  - `str(int)` and zero padding, with their read-back;
  - `join`/`split` on one character;
  - Python's `<` on strings.
- `Records`:
  - dicts as `map<Field, Value>`, where `Field` numbers the 32 key strings the
    script uses in Python's sorted order (`Name` gives the string, and
    `NameOrder` proves the numbering follows the string order);
  - `get`, `int()` and `str()` on values;
  - the exceptions a generator can raise (`GenError`).
- `Sampling`: `random.choice`, `random.randint` and `random.sample` over
  explicit draws.
- `Reference`: the module-level reference lists.
- `ContentGen`, `ViewingGen`, `EngagementGen`: the three generators. Each one
  is a per-record function plus the imperative `for` loop that appends the
  records to a list. A generator that raises is a `Result` whose `Err` is the
  exception of the first failing iteration.
- `Runs`: the shared "run the loop body n times, stop at the first exception"
  semantics, with and without skipped iterations.
- `Serialize`: the NDJSON join and the CSV builder. The CSV builder has two
  loops: one collecting the keys, one appending rows with `+=`.
- `Publish`: `main`, meaning the fixed volumes, the object keys, the uploads
  in call order, and the success message. An upload is an `Upload` value.

## Model

| member | source | states |
|---|---|---|
| Text.ZeroPadRoundTrip | scripts/generate_media_data.py:23 | `ZeroPad`: a zero-padded number reads back as that number |
| Text.ZeroPadInjective | scripts/generate_media_data.py:23 | different numbers give different padded strings |
| Text.ZeroPadLength | scripts/generate_media_data.py:23 | a number below 10^w pads to exactly w characters |
| Text.ParseDigits | scripts/generate_media_data.py:28 | `str(n)` reads back as n |
| Text.SplitJoin | scripts/generate_media_data.py:134 | `Split` undoes `Join`: splitting a join on its separator gives back the parts when no part holds the separator |
| Text.JoinSplit | scripts/generate_media_data.py:134 | joining the pieces of a split gives back the string, and no piece holds the separator |
| Text.JoinNoSep | scripts/generate_media_data.py:154 | a join holds a character only if some part does or it is the separator |
| Text.JoinEndsWithLast | scripts/generate_media_data.py:134 | a join ends with its last part |
| Text.JoinFour | scripts/generate_media_data.py:139 | a four-part join is the parts with the separator between them |
| Text.StrLessIrreflexive | scripts/generate_media_data.py:151 | no string is below itself |
| Text.StrLessTransitive | scripts/generate_media_data.py:151 | string order is transitive |
| Text.StrLessTotal | scripts/generate_media_data.py:151 | of two different strings, one is below the other |
| Text.StrLessAsymmetric | scripts/generate_media_data.py:151 | string order is asymmetric |
| Text.StrLessAt | scripts/generate_media_data.py:151 | `StrLess`, Python's `<` on str: the first differing character decides the order |
| Records.AdjacentNames | scripts/generate_media_data.py:151 | each key string is below the next one in the numbering |
| Records.NamesIncrease | scripts/generate_media_data.py:151 | a smaller field number has the smaller key string |
| Records.NameOrder | scripts/generate_media_data.py:151 | field order and key-string order agree, in both directions |
| Records.NameInjective | scripts/generate_media_data.py:26-39 | different fields are different dict keys |
| Records.NameKeyChars | scripts/generate_media_data.py:154 | key strings are lower-case letters and '_', so a header never holds ',' or a newline |
| Sampling.RandInt | scripts/generate_media_data.py:33 | `randint(lo, hi)` lies in [lo, hi] |
| Sampling.RandIntCovers | scripts/generate_media_data.py:33 | every value of the range is reachable by some draw |
| Sampling.ChoiceIn | scripts/generate_media_data.py:29 | `Choice`: a choice is an element of the list |
| Sampling.ChoiceCovers | scripts/generate_media_data.py:29 | every element is reachable by some draw |
| Sampling.RemoveAtProperties | scripts/generate_media_data.py:38 | removing an element keeps only old elements and drops the removed one from a repeat-free list |
| Sampling.Sample | scripts/generate_media_data.py:38 | `random.sample(pop, k)` has k elements |
| Sampling.SampleProperties | scripts/generate_media_data.py:38 | a sample holds only population elements and never repeats one |
| ContentGen.ExactDivision | scripts/generate_media_data.py:44 | an episode count that is seasons × k divides back to k with no remainder |
| ContentGen.Outcomes | scripts/generate_media_data.py:24-44 | duration in [1,180], 1-3 tags, seasons in [1,5], episodes = seasons × k with k in [8,24]; the series flag is the separate draw |
| ContentGen.ContentRecordKeys | scripts/generate_media_data.py:26-45 | `ContentRecord` (series part decided by `IsSeriesDraw`): twelve base keys, plus season and episode counts exactly when the separate series draw is 'series' |
| ContentGen.ContentRecordType | scripts/generate_media_data.py:29 | the content type is one of the reference types |
| ContentGen.ContentRecordDuration | scripts/generate_media_data.py:33 | the duration is an int in [1, 180] |
| ContentGen.ContentRecordTags | scripts/generate_media_data.py:38 | one to three distinct tags from the tag vocabulary |
| ContentGen.ContentRecordSeries | scripts/generate_media_data.py:42-44 | a series-flagged record has 1-5 seasons and an episode count that is 8-24 per season |
| ContentGen.ContentRecordSeriesOrNone | scripts/generate_media_data.py:42-44 | a record carries both series counts, consistent, or neither |
| ContentGen.SequentialIdInjective | scripts/generate_media_data.py:23 | different positions get different content ids |
| ContentGen.SequentialIdFormat | scripts/generate_media_data.py:23 | `SequentialId`, the id `ContentRecord` stores: up to 999999 an id is "CONT" and six digits reading back as the position |
| ContentGen.MovieWithSeasons | scripts/generate_media_data.py:24-44 | a record typed 'movie' can carry season fields, because the series flag is a separate draw |
| ContentGen.SeriesWithoutSeasons | scripts/generate_media_data.py:24-44 | a record typed 'series' can lack season fields |
| ContentGen.SequentialIdsDistinct | scripts/generate_media_data.py:22-23 | records numbered 1, 2, ... carry pairwise distinct ids |
| Runs.NumberedAt | scripts/generate_media_data.py:21-46 | `Numbered`: the k-th record appended by a loop that cannot raise is the one built in iteration k |
| ContentGen.ContentRecords | scripts/generate_media_data.py:22-48 | the catalog of n records has length n |
| ContentGen.ContentRecordsAt | scripts/generate_media_data.py:22-46 | catalog entry k is the record for position k + 1 built from draw k |
| ContentGen.CatalogIdsDistinct | scripts/generate_media_data.py:22-48 | no two catalog records share a content id |
| ContentGen.GenerateContentMetadata | scripts/generate_media_data.py:20-48 | the loop returns the catalog of max(n, 0) records, all ids distinct |
| Runs.CollectErrorPersists | scripts/generate_media_data.py:54-88 | once an iteration raises, a longer run raises the same exception |
| Runs.CollectAt | scripts/generate_media_data.py:54-88 | `Collect`: a successful run of n iterations holds n records, the k-th from draw k |
| Runs.CollectFails | scripts/generate_media_data.py:54-88 | a run raises the exception of its first failing iteration |
| Runs.CollectSucceeds | scripts/generate_media_data.py:54-88 | a run with no failing iteration succeeds |
| Runs.KeptDraws | scripts/generate_media_data.py:94-114 | at most n of n iterations keep a record |
| Runs.KeptDrawsOrdered | scripts/generate_media_data.py:94-114 | kept iterations are below n, strictly increasing, and each one kept a record |
| Runs.CollectSomeErrorPersists | scripts/generate_media_data.py:94-114 | once an iteration raises, a longer run raises the same exception |
| Runs.CollectSomeAt | scripts/generate_media_data.py:94-114 | `CollectSome`: the k-th record of a run is the one built by the k-th kept iteration, in attempt order |
| Runs.CollectSomeSucceeds | scripts/generate_media_data.py:94-114 | a run with no failing iteration succeeds |
| Runs.CollectSomeFails | scripts/generate_media_data.py:94-114 | a run raises the exception of its first failing iteration |
| ViewingGen.Completion | scripts/generate_media_data.py:78 | the completion percentage lies in [0, 100] |
| ViewingGen.CompletionFull | scripts/generate_media_data.py:78 | the completion is 100 exactly when the whole content was watched |
| ViewingGen.GenerateViewingData | scripts/generate_media_data.py:51-88 | the loop returns the first max(n, 0) sessions, or the first exception |
| ViewingGen.WatchableSessionSucceeds | scripts/generate_media_data.py:56-84 | a session over a well-formed content record never raises |
| ViewingGen.WatchableCatalogSucceeds | scripts/generate_media_data.py:54-88 | sessions over a non-empty catalog of well-formed records never raise |
| ViewingGen.ViewingRecordsAt | scripts/generate_media_data.py:54-88 | `ViewingRecords`: n successful sessions are n records, the k-th from draw k |
| ViewingGen.EmptyCatalogFails | scripts/generate_media_data.py:56 | an empty catalog raises IndexError at the first session |
| ViewingGen.ViewingRecordKeys | scripts/generate_media_data.py:71-84 | `ViewingRecordOf`: a session has exactly the twelve viewing keys |
| ViewingGen.ViewingDurationBounded | scripts/generate_media_data.py:60 | `DurationOf`, through `Get` and `AsInt`: minutes watched lie in [1, the content's duration, or 90 when absent] |
| ViewingGen.ViewingCompletionBounded | scripts/generate_media_data.py:78 | the stored completion lies in [0, 100] |
| ViewingGen.ViewingUserId | scripts/generate_media_data.py:73 | user id is "USER" and seven digits reading back as a number in [1, 10000] |
| ViewingGen.UserIdFormat | scripts/generate_media_data.py:73 | `UserIdFor`: "USER" + n padded to seven digits reads back as n |
| ViewingGen.ViewingPlaces | scripts/generate_media_data.py:79-81 | platform and location come from the reference lists |
| ViewingGen.PlainContentId | scripts/generate_media_data.py:68-69 | `SessionContentId` otherwise: non-series content is referenced by its own id unchanged |
| ViewingGen.SeriesContentId | scripts/generate_media_data.py:63-67 | `SessionContentId` when `IsSeriesContent`: series content is referenced as id_SssEee with season in [1, season_count or 1] and episode in [1, episode_count // season_count, with defaults] |
| ViewingGen.EpisodeIdRoundTrip | scripts/generate_media_data.py:67 | `EpisodeId`: the episode id keeps the content id and the two numbers, which read back |
| ViewingGen.EpisodeIdInjective | scripts/generate_media_data.py:67 | different episodes of one content get different ids |
| EngagementGen.GenerateEngagementData | scripts/generate_media_data.py:91-116 | the loop returns the engagements of the first max(n, 0) attempts, or the first exception |
| EngagementGen.KeptAreEngaged | scripts/generate_media_data.py:94-114 | in a run that does not raise, an attempt yields a record exactly when its gate passed |
| EngagementGen.EngagementCount | scripts/generate_media_data.py:94-114 | `EngagementRecords`: there are at most n engagements, one per passing attempt, in attempt order |
| EngagementGen.EngagedAttemptsOrdered | scripts/generate_media_data.py:94-99 | `EngagedAttempts`: recorded attempts are below n, increasing, and each passed the gate |
| EngagementGen.GatedKept | scripts/generate_media_data.py:99 | a step that keeps exactly the gated draws keeps the engaged attempts |
| EngagementGen.NoGateNoEngagement | scripts/generate_media_data.py:99 | with no passing gate there are no engagements |
| EngagementGen.NoSessionsFails | scripts/generate_media_data.py:96 | no sessions raises IndexError at the first attempt |
| EngagementGen.JoinableAttemptSucceeds | scripts/generate_media_data.py:96-112 | an attempt on a session with the four join keys never raises |
| EngagementGen.MissingKeyFails | scripts/generate_media_data.py:99-105 | `view[key]`, modelled by `Lookup`: an engaged attempt on a session missing a join key raises KeyError for one it lacks |
| EngagementGen.JoinableSessionsSucceed | scripts/generate_media_data.py:94-116 | attempts over non-empty joinable sessions never raise |
| EngagementGen.EngagementJoins | scripts/generate_media_data.py:100-112 | `EngagementOf`: an engagement has the eleven keys and copies ids and date from the session it chose |
| EngagementGen.EngagementWithJoins | scripts/generate_media_data.py:100-112 | `EngagementWith`: an engagement built from a session has the eleven keys and copies that session's ids and date |
| EngagementGen.ReferentialIntegrity | scripts/generate_media_data.py:94-116 | every engagement references some input session |
| EngagementGen.EngagementValues | scripts/generate_media_data.py:106-111 | rating is None exactly when its gate fails, else in [1,5]; the flags are True/False/None; the type is from the list |
| Serialize.NdjsonLines | scripts/generate_media_data.py:134 | `Ndjson` over `EncodeAll`: with single-line encodings, splitting the body on newlines gives the encodings |
| Serialize.NdjsonRoundTrip | scripts/generate_media_data.py:134 | with a decoder for the encoding, every record reads back from its line, in order |
| Serialize.NdjsonEnds | scripts/generate_media_data.py:134 | an empty dataset gives "", otherwise the body ends with the last encoding (no trailing newline) |
| Serialize.KeyUnionMembers | scripts/generate_media_data.py:146-148 | `KeyUnion`: a key is collected exactly when some record has it |
| Serialize.FieldsFrom | scripts/generate_media_data.py:151 | the keys from a position on, each once, in increasing order |
| Serialize.SortedKeys | scripts/generate_media_data.py:151 | `sorted(list(keys))` is increasing and has exactly the keys |
| Serialize.IncreasingByName | scripts/generate_media_data.py:151 | increasing field numbers are increasing key strings, and back |
| Serialize.SortedKeysSorted | scripts/generate_media_data.py:151 | the header is sorted by key string and lists exactly the keys |
| Serialize.SortedKeysUnique | scripts/generate_media_data.py:151 | any list sorted by key string with exactly the keys is the header |
| Serialize.IncreasingUnique | scripts/generate_media_data.py:151 | two increasing lists of the same fields are equal |
| Serialize.CollectKeys | scripts/generate_media_data.py:146-148 | the key-collecting loop returns the union of all records' keys |
| Serialize.ToCsv | scripts/generate_media_data.py:145-156 | the CSV loop builds the header line followed by one line per record |
| Serialize.Rows | scripts/generate_media_data.py:155-156 | one row per record, in order, each the comma join of its cells |
| Serialize.CsvLines | scripts/generate_media_data.py:154-156 | the CSV has one line more than the dataset has records |
| Serialize.BodyAsJoin | scripts/generate_media_data.py:154-156 | header plus rows, each newline-terminated, is the newline join of the lines with an empty last piece |
| Serialize.JoinAppend | scripts/generate_media_data.py:156 | appending one newline-terminated row extends the newline join by that row |
| Serialize.CsvLineStructure | scripts/generate_media_data.py:154-156 | `CsvText`, `Header` then `CsvBody`: with plain cells, the CSV splits into the header, one row per record in order, then "" after the final newline |
| Serialize.HeaderFields | scripts/generate_media_data.py:154 | `Header`, built from `Names`: the header line splits on ',' into the sorted key strings |
| Serialize.RowFields | scripts/generate_media_data.py:156 | `CsvLine`, built from `Cells` and `Render`: a row with plain cells splits into one field per header key, '' where the record lacks the key |
| Serialize.ListCellIsNotPlain | scripts/generate_media_data.py:156 | a list value renders with ", ", so it would shift the columns of an unquoted row |
| Publish.JsonKeySegments | scripts/generate_media_data.py:139 | `JsonKey`: the JSON key is four segments: raw, the name, batch_date=today, name.json |
| Publish.CsvKeySegments | scripts/generate_media_data.py:161 | `CsvKey`: the CSV key is four segments: raw, name_csv, batch_date=today, name.csv |
| Publish.JsonAndCsvKeysDiffer | scripts/generate_media_data.py:139-161 | a JSON key never equals a CSV key |
| Publish.JsonKeysDiffer | scripts/generate_media_data.py:139 | different dataset names give different JSON keys on a day |
| Publish.Publish | scripts/generate_media_data.py:128-163 | the write loop makes the JSON upload of each batch, plus the CSV upload for viewing_data, in order |
| Publish.PublishedShape | scripts/generate_media_data.py:128-163 | `Published`, one `UploadsFor` per batch: one upload per batch plus one per viewing batch, all to the bucket |
| Publish.PublishedThree | scripts/generate_media_data.py:128-132 | three batches are published one after the other |
| Publish.WellFormedWatchable | scripts/generate_media_data.py:60-66 | a record with an id, a positive int duration and consistent series counts (or none) is one a session can use |
| Publish.ContentWatchable | scripts/generate_media_data.py:26-45 | every content record is one a session can be built on without raising |
| Publish.SessionJoinable | scripts/generate_media_data.py:71-84 | every session carries the four keys an engagement copies |
| Publish.CatalogWatchable | scripts/generate_media_data.py:22-46 | every record of a catalog is one a session can be built on |
| Publish.Catalog | scripts/generate_media_data.py:120 | `main`'s catalog has 200 well-formed records |
| Publish.Sessions | scripts/generate_media_data.py:121 | `main`'s sessions are 2000, all joinable |
| Publish.Engagements | scripts/generate_media_data.py:122 | `main`'s engagements are at most 1000 |
| Publish.SessionsGenerated | scripts/generate_media_data.py:121 | the viewing generator over the catalog does not raise |
| Publish.EngagementsGenerated | scripts/generate_media_data.py:122 | the engagement generator over the sessions does not raise |
| Publish.GenerateAndPublish | scripts/generate_media_data.py:118-165 | `main` always returns the success message, having made the uploads of the three datasets |
| Publish.MainKeysDistinct | scripts/generate_media_data.py:139-161 | the four objects of a day land under four different keys |
| Publish.MainUploads | scripts/generate_media_data.py:128-163 | the uploads are catalog JSON, sessions JSON, sessions CSV, engagements JSON, all to the bucket under the day's keys |
| Publish.MainDatasets | scripts/generate_media_data.py:120-122 | 200 catalog records with distinct ids, 2000 sessions, at most 1000 engagements, each referencing a session |

## Left out

- The S3 client and its `put_object` calls: an upload is an `Upload(bucket, key, body)` value, returned in call order. Network failures are not modelled.
- `random` and `uuid`: every draw is a caller-supplied natural number. A uuid is an opaque string in the draw, and the model does not claim uuids are unique. The 70% and 30% rates are not modelled: each gate is a boolean in the draw.
- `random.sample` is modelled as successive picks without replacement, one draw per pick. It has the same possible outcomes as CPython's algorithm but not the same mapping from random state to outcome.
- `datetime.now`, `timedelta` and `strftime`: the release date, the view date and the start time are opaque, already formatted strings in the draws. The partition date is the parameter `today` of `GenerateAndPublish`, already formatted as `%Y-%m-%d`; `main` uses only that string.
- `json.dumps` is a parameter `encode`. The NDJSON results assume it gives one line per record and, for read-back, that a matching decoder exists.
- ViewingGen.Completion: computed on exact rationals, `min(100, 100 * view // duration)`. The script uses floating point, which can differ by one for some inputs, for example 29 of 100 minutes. Only the bounds [0, 100] are claimed about the script.
- ViewingGen.CompletionFull: holds on exact arithmetic. With floats it also holds for the durations the catalog draws (1-180), but not for huge durations, where `view / duration` rounds to 1.0.
- Records.AsInt: `int()` on a string of digits, or on a float, is not modelled. The records the script builds store only ints there, and any other value is treated as the TypeError or ValueError case.
- Records.Render: renders the value kinds the script stores (str, int, bool, None, list of str). A list's repr does not escape quotes inside its items.
- Dict insertion order: a record is a map, so key order inside a record, and hence the key order of `json.dumps` output, is not modelled. The CSV's column order does not depend on it, because the header is sorted.
- Field: only the 32 key strings the script uses exist. A dict with another key cannot be expressed, so `KeyUnion` and the header range over these keys.
- `num_records <= 0`: the loops then produce an empty list, as `range` does. The generators model exactly this and reject nothing.
- The default arguments (`num_records=100`, `1000`, `500`) are not modelled. `main` passes its volumes explicitly.
- The `if __name__ == "__main__"` entry point: `GenerateAndPublish` models `main` itself.
