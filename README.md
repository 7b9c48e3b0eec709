# StoryApp core, modelled in Dafny

This project models the parts of the StoryApp Android client that have
behaviour worth stating: the paging mediator, the mapping of fetched items to
cached rows, the repositories' `Loading`-then-terminal result flows, and the
integer helpers of `Utils.kt`. It then proves properties of that model.

- `StoryRemoteMediator.dfy` covers the remote mediator of the paged story feed.
  - `StoryDatabase` is a class holding the two cache tables as fields: the
    ordered `stories` table and the `remoteKeys` map from story id to
    `(prevKey, nextKey)`. Its methods are the DAO operations `load` calls.
  - `StoryRemoteMediator.Load` performs one load step by step: it resolves
    the page, reads the session, sends the request, and runs the transaction.
    It is proved equal to the pure function `Step`.
  - The properties are lemmas about `Step`: page resolution, the end-of-feed
    flag, the key pair written per item, full replacement on refresh, and
    untouched rows on prepend and append. Others say that a failure leaves
    both tables as they were, and that every load keeps the tables
    `Consistent` (story ids distinct, one key record per story, every key
    record well formed).
  - `Consistent` tables give two derived facts. Every resolved page is at
    least 1, and a stored `nextKey` is never null. So `Append` only learns
    that the feed has ended by fetching an empty page.
- `DataMapper.dfy`: `mapStoryResponseToDataEntity` as a recursive projection.
  It preserves length, order and ids, distributes over concatenation, and
  survives a round trip back.
- `ResultFlow.dfy`: the `ResultState` channel.
  - `Classify` and `Terminal` are the `error == true` decision and the
    `HttpException` handler.
  - `Run` is the whole flow: `Loading`, then one terminal value, or an
    exception escaping the flow.
  - The `FlowCollector` class and the `Collect` method emit into the stream
    step by step.
- `StoryRepository.dfy` and `UserRepository.dfy`: each repository call as a
  method that emits into a collector. Both use the one shared flow model. The
  repository file adds the request `postStory` builds and the paged feed's
  configuration.
- `Utils.dfy`:
  - `formatDate` bucketing over integer milliseconds, with Java's truncating
    division.
  - The EXIF orientation dispatch of `getRotatedBitmap`.
  - The quality loop of `reduceFileImage` over an abstract `size(quality)`
    function.
- `Api.dfy`: the request shapes that the repositories and the mediator send.
  `Common.dfy`: `Option`, `Attempt`, and Kotlin's `toString()` on a nullable
  string.

Modelling choices. The Room DAOs and the `RemoteKeys` entity are not part of this
model.
- Inserting key records replaces by id.
- Inserting story rows replaces a row with the same id where it stands, and
  appends a row with a new id.
- A row's position is its place in the `stories` sequence.
- The key lookups made before `try` do not throw.
- The table fields of `RemoteKeys` are taken from its construction at
  `StoryRemoteMediator.kt:66`.

Behaviour of the code worth noting:
- `Prepend` with no key for the first row returns
  `Success(endOfPaginationReached = false)`, because of the
  `remoteKeys != null` at `StoryRemoteMediator.kt:36`.
- A `Refresh` whose anchor key has a null `nextKey` falls back to page 1.
- An `HttpException` whose error body Gson cannot read (a null body or
  malformed JSON) yields no message at all. The exception thrown inside the
  `catch` block escapes the flow after `Loading`, and so does every
  exception other than `HttpException`. `FlowRun.threw` records this.

The source holds revisions that do not agree, and each file is modelled as
written:
- `StoryRepository.kt:88` constructs the mediator with three arguments, but
  its constructor at `StoryRemoteMediator.kt:19-22` takes two.
- `postStory` sends four parts, but `ApiService.kt:35-38` declares two.
- `ApiService.kt` has no `getStoriesWithLocation`.

## Model

| member | source | states |
|---|---|---|
| `Common.NullableText` | app/src/main/java/com/example/storyapp/data/StoryRepository.kt:48 | Kotlin `toString()` on a nullable string gives the string itself, or "null" when it is absent |
| `DataMapper.MapStoryResponseToDataEntity` | app/src/main/java/com/example/storyapp/utils/DataMapper.kt:7-15 | one row per item, same length and order; row i copies id, photoUrl, name, description and createdAt of item i unchanged |
| `DataMapper.MapPreservesIds` | app/src/main/java/com/example/storyapp/utils/DataMapper.kt:10 | the sequence of row ids equals the sequence of item ids |
| `DataMapper.MapEmpty` | app/src/main/java/com/example/storyapp/utils/DataMapper.kt:7-8 | an empty input maps to an empty output |
| `DataMapper.MapConcat` | app/src/main/java/com/example/storyapp/utils/DataMapper.kt:7-8 | mapping distributes over concatenation |
| `DataMapper.EntityRoundTrip` | app/src/main/java/com/example/storyapp/utils/DataMapper.kt:9-15 | a row read back as an item and projected again is the same row |
| `DataMapper.ItemRoundTrip` | app/src/main/java/com/example/storyapp/utils/DataMapper.kt:9-15 | an item without coordinates projects to a row and comes back unchanged; the projection only drops lat/lon |
| `DataMapper.MapRoundTrip` | app/src/main/java/com/example/storyapp/utils/DataMapper.kt:7-15 | a whole cached list read back as items maps to itself |
| `ResultFlow.Classify` | app/src/main/java/com/example/storyapp/data/StoryRepository.kt:47-51 | the decision on a response that arrived is always a terminal value, never `Loading` |
| `ResultFlow.Terminal` | app/src/main/java/com/example/storyapp/data/StoryRepository.kt:44-56 | when the call's outcome is caught, the value it yields is terminal, never `Loading` |
| `ResultFlow.Run` | app/src/main/java/com/example/storyapp/data/StoryRepository.kt:42-57 | a flow emits one or two values, `Loading` first, and two exactly when no exception escapes (values characterised by `SuccessCharacterised` and `ErrorCharacterised`) |
| `ResultFlow.LoadingFirst` | app/src/main/java/com/example/storyapp/data/StoryRepository.kt:43 | every flow emits `Loading` first, and never again |
| `ResultFlow.ExactlyTwoEmissions` | app/src/main/java/com/example/storyapp/data/StoryRepository.kt:42-57 | two emissions exactly when no exception escapes, one otherwise; only a non-HTTP exception or an unreadable HTTP error body escapes |
| `ResultFlow.ErrorFlagGivesError` | app/src/main/java/com/example/storyapp/data/StoryRepository.kt:47-48 | `error == true` gives `[Loading, Error(message.toString())]`, and a null message becomes "null" |
| `ResultFlow.NoErrorFlagGivesSuccess` | app/src/main/java/com/example/storyapp/data/StoryRepository.kt:49-50 | `error` false or null gives `[Loading, Success(response)]` with the response unchanged |
| `ResultFlow.HttpFailureGivesBodyMessage` | app/src/main/java/com/example/storyapp/data/StoryRepository.kt:53-56 | an `HttpException` with a readable error body gives `[Loading, Error(body.message.toString())]` |
| `ResultFlow.SuccessCharacterised` | app/src/main/java/com/example/storyapp/data/StoryRepository.kt:44-56 | a flow ends in `Success(r)` if and only if the call responded with r and r's error flag is not true |
| `ResultFlow.ErrorCharacterised` | app/src/main/java/com/example/storyapp/data/StoryRepository.kt:44-56 | a flow ends in `Error(m)` if and only if the response had the error flag and message m, or an HTTP error body parsed to message m |
| `ResultFlow.FlowCollector.constructor` | app/src/main/java/com/example/storyapp/data/StoryRepository.kt:42 | a new flow's stream is empty |
| `ResultFlow.FlowCollector.Emit` | app/src/main/java/com/example/storyapp/data/StoryRepository.kt:43 | `emit` appends exactly one value to the stream |
| `ResultFlow.Collect` | app/src/main/java/com/example/storyapp/data/StoryRepository.kt:42-57 | the shared flow body appends exactly `Run(outcome).emitted` to the stream and reports whether an exception escaped |
| `StoryRepository.GetStoriesConfig` | app/src/main/java/com/example/storyapp/data/StoryRepository.kt:84-87 | the paged feed uses page size 5 |
| `StoryRepository.AuthorizedCall` | app/src/main/java/com/example/storyapp/data/StoryRepository.kt:98-100 | a failed session read is an exception that is not an `HttpException`; otherwise the call is made with the session's token |
| `StoryRepository.PostStoryParts` | app/src/main/java/com/example/storyapp/data/StoryRepository.kt:123-133 | the photo file name and description are sent unchanged; an absent lat or lon is sent as the text "null" |
| `StoryRepository.Register` | app/src/main/java/com/example/storyapp/data/StoryRepository.kt:38-58 | emits `Loading`, then the classified `register` response |
| `StoryRepository.Login` | app/src/main/java/com/example/storyapp/data/StoryRepository.kt:61-80 | emits `Loading`, then the classified `login` response |
| `StoryRepository.GetStoriesWithLocation` | app/src/main/java/com/example/storyapp/data/StoryRepository.kt:95-113 | emits `Loading`, then the classified response; a failed session read leaves only `Loading` and throws |
| `StoryRepository.PostStory` | app/src/main/java/com/example/storyapp/data/StoryRepository.kt:115-156 | emits `Loading`, then the classified response to the four-part upload; a failed session read leaves only `Loading` and throws |
| `UserRepository.Register` | app/src/main/java/com/example/storyapp/data/repository/UserRepository.kt:21-41 | emits `Loading`, then the classified `register` response, as the story repository does |
| `UserRepository.Login` | app/src/main/java/com/example/storyapp/data/repository/UserRepository.kt:44-63 | emits `Loading`, then the classified `login` response, as the story repository does |
| `StoryRemoteMediator.FirstItemId` | app/src/main/java/com/example/storyapp/data/local/paging/StoryRemoteMediator.kt:93-99 | absent exactly when every page is empty; otherwise the first id of the first non-empty page |
| `StoryRemoteMediator.LastItemId` | app/src/main/java/com/example/storyapp/data/local/paging/StoryRemoteMediator.kt:85-91 | absent exactly when every page is empty; otherwise the last id of the last non-empty page |
| `StoryRemoteMediator.KeyOf` | app/src/main/java/com/example/storyapp/data/local/paging/StoryRemoteMediator.kt:89 | the lookup finds a record exactly when one is stored under the id, and returns that record |
| `StoryRemoteMediator.FirstItemOfWindow` | app/src/main/java/com/example/storyapp/data/local/paging/StoryRemoteMediator.kt:93-99 | the first-item lookup reads the first id of the whole window |
| `StoryRemoteMediator.LastItemOfWindow` | app/src/main/java/com/example/storyapp/data/local/paging/StoryRemoteMediator.kt:85-91 | the last-item lookup reads the last id of the whole window |
| `StoryRemoteMediator.PrevKeyFor` | app/src/main/java/com/example/storyapp/data/local/paging/StoryRemoteMediator.kt:63 | prevKey is null exactly on page 1, and page − 1 otherwise |
| `StoryRemoteMediator.NextKeyFor` | app/src/main/java/com/example/storyapp/data/local/paging/StoryRemoteMediator.kt:64 | nextKey is null exactly when the end was reached, and page + 1 otherwise |
| `StoryRemoteMediator.KeysFor` | app/src/main/java/com/example/storyapp/data/local/paging/StoryRemoteMediator.kt:65-67 | one key record per fetched item, in order, all carrying the same pair |
| `StoryRemoteMediator.InsertKeysFacts` | app/src/main/java/com/example/storyapp/data/local/paging/StoryRemoteMediator.kt:68 | `insertAll`, modelled as replace-by-id, leaves the old ids plus the batch ids; records whose id is not in the batch are unchanged; each batch id holds a record of the batch with that id |
| `StoryRemoteMediator.IndexOfId` | app/src/main/java/com/example/storyapp/data/local/paging/StoryRemoteMediator.kt:69 | finds the first row with the id, and absent exactly when no row has it |
| `StoryRemoteMediator.UpsertStory` | app/src/main/java/com/example/storyapp/data/local/paging/StoryRemoteMediator.kt:69 | one-row insert as modelled: the row is present afterwards, replacing the row with its id in place or appended; rows with other ids are untouched; distinct ids stay distinct |
| `StoryRemoteMediator.InsertStoriesFacts` | app/src/main/java/com/example/storyapp/data/local/paging/StoryRemoteMediator.kt:69 | after `insertStory` the ids are the old ids plus the inserted ids; rows not inserted keep position and value; distinct ids stay distinct |
| `StoryRemoteMediator.InsertFreshStories` | app/src/main/java/com/example/storyapp/data/local/paging/StoryRemoteMediator.kt:69 | rows with new, distinct ids are appended in order |
| `StoryRemoteMediator.InsertStoriesLastWins` | app/src/main/java/com/example/storyapp/data/local/paging/StoryRemoteMediator.kt:69 | for every id in the batch, the batch's last row with that id is in the table afterwards |
| `StoryRemoteMediator.GetRemoteKeyForFirstItem` | app/src/main/java/com/example/storyapp/data/local/paging/StoryRemoteMediator.kt:93-99 | finds a record exactly when the window has a row and the first id of the whole window has a stored key, and returns that key (full resolution in `PrependResolution`) |
| `StoryRemoteMediator.GetRemoteKeyForLastItem` | app/src/main/java/com/example/storyapp/data/local/paging/StoryRemoteMediator.kt:85-91 | finds a record exactly when the window has a row and the last id of the whole window has a stored key, and returns that key (full resolution in `AppendResolution`) |
| `StoryRemoteMediator.GetRemoteKeyClosestToCurrentPosition` | app/src/main/java/com/example/storyapp/data/local/paging/StoryRemoteMediator.kt:101-107 | finds a record exactly when there is a row closest to the anchor and it has a stored key, and returns that key (full resolution in `RefreshResolution`) |
| `StoryRemoteMediator.ResolvePage` | app/src/main/java/com/example/storyapp/data/local/paging/StoryRemoteMediator.kt:27-48 | REFRESH always yields a page; a PREPEND or APPEND that returns early reports the end exactly when a key was found (the targets are stated by `RefreshResolution`, `PrependResolution`, `AppendResolution`) |
| `StoryRemoteMediator.InsertKeys` | app/src/main/java/com/example/storyapp/data/local/paging/StoryRemoteMediator.kt:68 | `insertAll` as replace-by-id never drops an id (its full content is stated by `InsertKeysFacts`) |
| `StoryRemoteMediator.InsertStories` | app/src/main/java/com/example/storyapp/data/local/paging/StoryRemoteMediator.kt:69 | `insertStory` as append-or-replace-by-id never shrinks the table and adds at most one row per inserted row (its content is stated by `InsertStoriesFacts`) |
| `StoryRemoteMediator.WriteTables` | app/src/main/java/com/example/storyapp/data/local/paging/StoryRemoteMediator.kt:58-70 | a REFRESH of an empty page leaves both tables empty; PREPEND and APPEND keep every stored key id and never shrink the story table (consistency kept by `WritePreservesConsistency`) |
| `StoryRemoteMediator.Step` | app/src/main/java/com/example/storyapp/data/local/paging/StoryRemoteMediator.kt:23-79 | an `Error` or a load without a request leaves the tables unchanged; a load without a request is a success or a failed session read; a successful fetched load reports the end exactly when the fetched list is empty |
| `StoryRemoteMediator.RefreshResolution` | app/src/main/java/com/example/storyapp/data/local/paging/StoryRemoteMediator.kt:28-31 | REFRESH targets nextKey − 1 of the anchor row's key; with no anchor row, no key, or a null nextKey, it targets page 1 |
| `StoryRemoteMediator.PrependResolution` | app/src/main/java/com/example/storyapp/data/local/paging/StoryRemoteMediator.kt:33-39 | PREPEND uses the key of the window's first row: no row or no key gives Success(false), a null prevKey gives Success(true), otherwise it targets prevKey |
| `StoryRemoteMediator.AppendResolution` | app/src/main/java/com/example/storyapp/data/local/paging/StoryRemoteMediator.kt:41-47 | APPEND uses the key of the window's last row: no row or no key gives Success(false), a null nextKey gives Success(true), otherwise it targets nextKey |
| `StoryRemoteMediator.ResolutionOnConsistentTables` | app/src/main/java/com/example/storyapp/data/local/paging/StoryRemoteMediator.kt:27-47 | on consistent tables every resolved page is at least 1; REFRESH reloads the page that produced the anchor row; APPEND never reports the end from a stored key |
| `StoryRemoteMediator.PageIds` | app/src/main/java/com/example/storyapp/data/local/paging/StoryRemoteMediator.kt:56-69 | the mapped rows and the key batch carry exactly the fetched ids, so the rows inserted are the rows that receive keys |
| `StoryRemoteMediator.EndOfPaginationIffEmptyPage` | app/src/main/java/com/example/storyapp/data/local/paging/StoryRemoteMediator.kt:54-73 | a load that reaches the write sends getStories(page, pageSize) with the session token and returns Success(true) exactly when the fetched list is empty |
| `StoryRemoteMediator.EveryItemGetsPageKeys` | app/src/main/java/com/example/storyapp/data/local/paging/StoryRemoteMediator.kt:63-68 | every fetched item gets a key record with prevKey null if and only if page = 1 (else page − 1), and nextKey null if and only if the page was empty (else page + 1) |
| `StoryRemoteMediator.StepWrites` | app/src/main/java/com/example/storyapp/data/local/paging/StoryRemoteMediator.kt:58-70 | a load whose page resolves and where nothing fails leaves the tables the transaction body computes |
| `StoryRemoteMediator.WriteIntoEmpty` | app/src/main/java/com/example/storyapp/data/local/paging/StoryRemoteMediator.kt:69 | inserting a page's rows into an empty story table gives rows carrying exactly the page's ids, each once; with distinct fetched ids they are exactly the mapped items, in order |
| `StoryRemoteMediator.BatchStored` | app/src/main/java/com/example/storyapp/data/local/paging/StoryRemoteMediator.kt:65-68 | after `insertAll` of a page's batch, every fetched item's id holds exactly the page's key pair |
| `StoryRemoteMediator.RefreshReplacesTables` | app/src/main/java/com/example/storyapp/data/local/paging/StoryRemoteMediator.kt:58-69 | after REFRESH both tables hold exactly the fetched page (empty for an empty page), and the rows equal the mapped items when the ids are distinct |
| `StoryRemoteMediator.ExtendKeepsOtherRows` | app/src/main/java/com/example/storyapp/data/local/paging/StoryRemoteMediator.kt:68-69 | PREPEND and APPEND leave every row and key record whose id is not in the page where and as it was |
| `StoryRemoteMediator.FailureLeavesTables` | app/src/main/java/com/example/storyapp/data/local/paging/StoryRemoteMediator.kt:51-78 | Error leaves both tables unchanged, and Error happens exactly when a resolved load's session read, fetch or transaction fails |
| `StoryRemoteMediator.PrependAtStart` | app/src/main/java/com/example/storyapp/data/local/paging/StoryRemoteMediator.kt:33-39 | PREPEND with a first-row key having a null prevKey returns Success(true), with no request and no table change; with no key it returns Success(false), likewise |
| `StoryRemoteMediator.AppendAtEnd` | app/src/main/java/com/example/storyapp/data/local/paging/StoryRemoteMediator.kt:41-47 | APPEND with a last-row key having a null nextKey returns Success(true), with no request and no table change; with no key it returns Success(false), likewise |
| `StoryRemoteMediator.PageKeyRoundTrip` | app/src/main/java/com/example/storyapp/data/local/paging/StoryRemoteMediator.kt:63-64 | the page that wrote a key pair can be recovered from its prevKey, and the pair written for a non-empty page is well formed |
| `StoryRemoteMediator.InsertWellFormedKeys` | app/src/main/java/com/example/storyapp/data/local/paging/StoryRemoteMediator.kt:68 | inserting well-formed key records keeps the key table well formed |
| `StoryRemoteMediator.PageBatchWellFormed` | app/src/main/java/com/example/storyapp/data/local/paging/StoryRemoteMediator.kt:63-67 | every key record written for a page of at least 1 is well formed |
| `StoryRemoteMediator.InsertPageKeysWellFormed` | app/src/main/java/com/example/storyapp/data/local/paging/StoryRemoteMediator.kt:63-68 | writing a page's keys keeps the key table well formed and adds exactly the page's ids |
| `StoryRemoteMediator.WritePreservesConsistency` | app/src/main/java/com/example/storyapp/data/local/paging/StoryRemoteMediator.kt:58-70 | the transaction body keeps consistent tables consistent |
| `StoryRemoteMediator.StepPreservesConsistency` | app/src/main/java/com/example/storyapp/data/local/paging/StoryRemoteMediator.kt:23-79 | every load keeps the tables consistent: distinct story ids, one key record per story, every record well formed |
| `StoryRemoteMediator.AppendConcatenates` | app/src/main/java/com/example/storyapp/data/local/paging/StoryRemoteMediator.kt:41-69 | an APPEND of new, distinct ids makes the story table the old rows followed by the mapped page |
| `StoryRemoteMediator.FirstRefreshScenario` | app/src/main/java/com/example/storyapp/data/local/paging/StoryRemoteMediator.kt:28-73 | a first REFRESH from an empty cache requests page 1, stores the fetched rows, and gives each key (null, 2) |
| `StoryRemoteMediator.AppendEmptyPageScenario` | app/src/main/java/com/example/storyapp/data/local/paging/StoryRemoteMediator.kt:41-73 | an APPEND after a last key with nextKey 2 requests page 2; an empty answer gives Success(true) and leaves the rows unchanged |
| `StoryRemoteMediator.StoryDatabase.constructor` | app/src/main/java/com/example/storyapp/data/local/paging/StoryRemoteMediator.kt:20 | a new database is empty and consistent |
| `StoryRemoteMediator.StoryDatabase.DeleteRemoteKeys` | app/src/main/java/com/example/storyapp/data/local/paging/StoryRemoteMediator.kt:60 | empties the key table and leaves the stories |
| `StoryRemoteMediator.StoryDatabase.DeleteAll` | app/src/main/java/com/example/storyapp/data/local/paging/StoryRemoteMediator.kt:61 | empties the story table and leaves the keys |
| `StoryRemoteMediator.StoryDatabase.InsertAll` | app/src/main/java/com/example/storyapp/data/local/paging/StoryRemoteMediator.kt:68 | the key table becomes `InsertKeys` of the old one; stories are unchanged |
| `StoryRemoteMediator.StoryDatabase.InsertStory` | app/src/main/java/com/example/storyapp/data/local/paging/StoryRemoteMediator.kt:69 | the story table becomes `InsertStories` of the old one; keys are unchanged |
| `StoryRemoteMediator.StoryDatabase.RollBack` | app/src/main/java/com/example/storyapp/data/local/paging/StoryRemoteMediator.kt:58 | a transaction that threw leaves both tables as they were when it began |
| `StoryRemoteMediator.StoryRemoteMediator.constructor` | app/src/main/java/com/example/storyapp/data/local/paging/StoryRemoteMediator.kt:19-22 | the mediator writes the database it is given |
| `StoryRemoteMediator.StoryRemoteMediator.WriteInTransaction` | app/src/main/java/com/example/storyapp/data/local/paging/StoryRemoteMediator.kt:58-70 | the transaction leaves either the unchanged tables (when it throws) or the written tables |
| `StoryRemoteMediator.StoryRemoteMediator.Load` | app/src/main/java/com/example/storyapp/data/local/paging/StoryRemoteMediator.kt:23-79 | the result, the request made and the new tables are those of `Step` on the old tables; consistent tables stay consistent |
| `StoryRemoteMediator.StoryRemoteMediator.Initialize` | app/src/main/java/com/example/storyapp/data/local/paging/StoryRemoteMediator.kt:81-83 | initialize always asks for an initial refresh |
| `Utils.FormatDate` | app/src/main/java/com/example/storyapp/utils/Utils.kt:84-123 | "invalid date" exactly when the parse gave null or threw; minute labels are 1..59, hour labels 1..23; the absolute label carries the parsed instant |
| `Utils.ToMinutes` | app/src/main/java/com/example/storyapp/utils/Utils.kt:100 | `toMinutes` truncates toward zero: the whole minutes of a span, negative spans rounding up to at most 0 |
| `Utils.ToHours` | app/src/main/java/com/example/storyapp/utils/Utils.kt:107 | `toHours` truncates toward zero: the whole hours of a minute count, negative counts rounding up to at most 0 |
| `Utils.FormatDateBuckets` | app/src/main/java/com/example/storyapp/utils/Utils.kt:99-112 | for a difference d in ms: d < 60000 (including the future) is just now; under an hour is d / 60000 minutes; under a day is d / 3600000 hours; a day or more is the absolute date |
| `Utils.GetRotatedBitmap` | app/src/main/java/com/example/storyapp/utils/Utils.kt:62-74 | the bitmap is rotated exactly for ROTATE_90/180/270, by 90, 180 or 270 degrees |
| `Utils.RotationRoundTrip` | app/src/main/java/com/example/storyapp/utils/Utils.kt:67-70 | each angle comes from exactly one orientation: ROTATE_90 gives 90, ROTATE_180 gives 180, ROTATE_270 gives 270 |
| `Utils.NoRotation` | app/src/main/java/com/example/storyapp/utils/Utils.kt:71-72 | NORMAL, a missing tag and any other value leave the bitmap unchanged |
| `Utils.ReduceFileImage` | app/src/main/java/com/example/storyapp/utils/Utils.kt:46-60 | quality starts at 100 and drops by 5 per attempt; the loop stops at the first size ≤ 1,000,000, and the write uses 5 below that quality; if only quality 0 or nothing fits, compress gets −5 and rejects it |
| `Utils.ReduceFileImageBounded` | app/src/main/java/com/example/storyapp/utils/Utils.kt:49-58 | corrected loop: stops at the first fitting quality or at 0, never below, and writes with the quality it measured |
| `Utils.NegativeQualityWitness` | app/src/main/java/com/example/storyapp/utils/Utils.kt:49-58 | a photo that fits only at quality 0 drives the loop as written to compress(−5), while the bounded loop writes it at 0 |

## Left out

- Activities, ViewModels, the view-model factories and `Injection.kt`: UI, navigation, LiveData plumbing and dependency wiring.
- The custom edit-text widgets: a length check and a call to Android's `Patterns` inside view listeners.
- `ApiService`, Retrofit, OkHttp multipart bodies and Gson: what the backend answers is an input (`CallOutcome`, `Attempt`). Whether Gson can read an error body is part of that input.
- The DataStore session store: the token read is an input, whose failure counts as a non-HTTP exception. `saveSession`, `getSession` and `logout` only forward to the store.
- The Room DAOs and the database: their insert semantics are the modelling choices stated above. The DAO query is outside this model, so row order is taken to be insertion order, with a row replaced where it stands. A lookup that throws before `try` is not modelled.
- The paging framework: `anchorPosition` and `closestItemToPosition` become the input `closestToAnchor`. Load serialisation, deduplication, diffing and `Dispatchers`/`flowOn` are concurrency boundaries outside the model.
- `StoryRemoteMediator.Load`: `MediatorResult.Error` carries a tag saying where the load failed (session, fetch or write), not the exception object. A throwing transaction is modelled as failing after its body and then rolling back, which leaves the same tables as failing at any earlier point.
- Bitmap decoding, compression, `Matrix` rotation and `createBitmap`: rotation angles are whole degrees, and the compressor is the function `size(quality)`. The `bitmap?.` null branch of `reduceFileImage` is not modelled.
- `uriToFile` and `createCustomTempFile`: file I/O, including the buffer-copy loop.
- `SimpleDateFormat`/`Calendar` parsing and formatting, and `formatDateISO8601`: the parse outcome and the current instant are inputs. The overflow of a `long` difference is not modelled.
- Coordinates: `Double.toString` is not modelled. A present coordinate is given as its text, and fetched items carry coordinates only as data.
- `Utils.ReduceFileImage`: says nothing about the size of the file finally written, because the final write uses a quality that was never measured.
- `StoryRemoteMediator.InsertStoriesLastWins`: says that the last row of the batch for each id is present, but not at which position.

## Findings

| source | as written | input that shows it | evidently intended | confidence | as-written member | corrected member |
|---|---|---|---|---|---|---|
| app/src/main/java/com/example/storyapp/utils/Utils.kt:49-58 | the do-while has no lower bound on `compressQuality`, and the final `compress` uses the quality after the last decrement | a photo whose JPEG stream exceeds 1,000,000 bytes at every quality from 100 to 5 and fits at 0: the final `compress` is asked for quality −5, which `Bitmap.compress` rejects (it also gets −5 when nothing fits) | stop at quality 0, and write with the last measured quality | medium, not executed | `Utils.ReduceFileImage`, `Utils.NegativeQualityWitness` | `Utils.ReduceFileImageBounded` |
