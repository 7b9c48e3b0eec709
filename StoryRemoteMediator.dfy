/** `StoryRemoteMediator`: the bridge between the paged stories endpoint and
    the local cache. A load resolves a page number from the stored remote
    keys, fetches that page and, in one transaction, writes one key record
    per fetched item and the mapped story rows.

    The Room DAOs are not part of this model. Their behaviour is taken to be:
    inserting key records replaces by id; inserting story rows replaces a row
    with the same id where it stands and appends a row with a new id. */
module StoryRemoteMediator {
  import opened Common
  import opened Api
  import opened DataMapper

  /** The page a load starts from when no stored key says otherwise. */
  const INITIAL_PAGE_INDEX: int := 1

  datatype LoadType = Refresh | Prepend | Append

  /** A row of the `remote_keys` table: the neighbouring pages of the page
      that produced story `id`. */
  datatype RemoteKeys = RemoteKeys(id: string, prevKey: Option<int>, nextKey: Option<int>)

  /** What the mediator reads of the paging window: the loaded pages, as the
      ids of their rows, the id of the row the framework finds closest to the
      anchor position (absent when there is no anchor or no row there), and
      the configured page size. */
  datatype PagingState = PagingState(pages: seq<seq<string>>, closestToAnchor: Option<string>, pageSize: int)

  /** Where a load failed: reading the session, fetching, or writing. */
  datatype Fault = SessionFault | FetchFault | WriteFault

  datatype MediatorResult = Success(endOfPaginationReached: bool) | Error(cause: Fault)

  datatype InitializeAction = LaunchInitialRefresh | SkipInitialRefresh

  /** The contents of the two tables. */
  datatype Tables = Tables(stories: seq<StoryEntity>, remoteKeys: map<string, RemoteKeys>)

  // ---------------------------------------------------------------------
  // Reading the window and the key table

  /** All ids of the window, page after page. */
  function Flatten(pages: seq<seq<string>>): (ids: seq<string>)
  {
    if pages == [] then [] else pages[0] + Flatten(pages[1..])
  }

  /** `pages.firstOrNull { it.data.isNotEmpty() }?.data?.firstOrNull()`. */
  function FirstItemId(pages: seq<seq<string>>): (r: Option<string>)
    ensures r.None? <==> forall i :: 0 <= i < |pages| ==> pages[i] == []
    ensures r.Some? ==> exists i :: 0 <= i < |pages| && pages[i] != [] && r.value == pages[i][0]
                                    && forall j :: 0 <= j < i ==> pages[j] == []
  {
    if pages == [] then None
    else if pages[0] != [] then Some(pages[0][0])
    else
      var r := FirstItemId(pages[1..]);
      assert r.Some? ==> exists i :: 1 <= i < |pages| && pages[i] != [] && r.value == pages[i][0]
                                     && forall j :: 0 <= j < i ==> pages[j] == [] by {
        if r.Some? {
          var i :| 0 <= i < |pages[1..]| && pages[1..][i] != [] && r.value == pages[1..][i][0]
                   && forall j :: 0 <= j < i ==> pages[1..][j] == [];
          assert forall j :: 0 <= j < i + 1 ==> pages[j] == [] by {
            forall j | 0 <= j < i + 1 ensures pages[j] == [] {
              if j > 0 { assert pages[j] == pages[1..][j - 1]; }
            }
          }
        }
      }
      r
  }

  /** `pages.lastOrNull { it.data.isNotEmpty() }?.data?.lastOrNull()`. */
  function LastItemId(pages: seq<seq<string>>): (r: Option<string>)
    ensures r.None? <==> forall i :: 0 <= i < |pages| ==> pages[i] == []
    ensures r.Some? ==> exists i :: 0 <= i < |pages| && pages[i] != [] && r.value == pages[i][|pages[i]| - 1]
                                    && forall j :: i < j < |pages| ==> pages[j] == []
  {
    if pages == [] then None
    else if pages[|pages| - 1] != [] then Some(pages[|pages| - 1][|pages[|pages| - 1]| - 1])
    else LastItemId(pages[..|pages| - 1])
  }

  /** The key record stored for `id`, if any (`getRemoteKeysId`). */
  function KeyOf(keys: map<string, RemoteKeys>, id: string): (r: Option<RemoteKeys>)
    ensures r.Some? <==> id in keys
    ensures r.Some? ==> r.value == keys[id]
  {
    if id in keys then Some(keys[id]) else None
  }

  /** `getRemoteKeyForFirstItem`: the key of the first id of the whole
      window, if the window has a row and that row a key. */
  function GetRemoteKeyForFirstItem(state: PagingState, keys: map<string, RemoteKeys>): (r: Option<RemoteKeys>)
    ensures var ids := Flatten(state.pages);
      r.Some? <==> ids != [] && ids[0] in keys
    ensures var ids := Flatten(state.pages);
      r.Some? ==> r.value == keys[ids[0]]
  {
    FirstItemOfWindow(state.pages);
    match FirstItemId(state.pages)
    case Some(id) => KeyOf(keys, id)
    case None => None
  }

  /** `getRemoteKeyForLastItem`: the key of the last id of the whole
      window, if the window has a row and that row a key. */
  function GetRemoteKeyForLastItem(state: PagingState, keys: map<string, RemoteKeys>): (r: Option<RemoteKeys>)
    ensures var ids := Flatten(state.pages);
      r.Some? <==> ids != [] && ids[|ids| - 1] in keys
    ensures var ids := Flatten(state.pages);
      r.Some? ==> r.value == keys[ids[|ids| - 1]]
  {
    LastItemOfWindow(state.pages);
    match LastItemId(state.pages)
    case Some(id) => KeyOf(keys, id)
    case None => None
  }

  /** `getRemoteKeyClosestToCurrentPosition`: the key of the row closest to
      the anchor, if there is such a row and it has a key. */
  function GetRemoteKeyClosestToCurrentPosition(state: PagingState, keys: map<string, RemoteKeys>): (r: Option<RemoteKeys>)
    ensures r.Some? <==> state.closestToAnchor.Some? && state.closestToAnchor.value in keys
    ensures r.Some? ==> r.value == keys[state.closestToAnchor.value]
  {
    match state.closestToAnchor
    case Some(id) => KeyOf(keys, id)
    case None => None
  }

  // ---------------------------------------------------------------------
  // Page resolution

  /** The outcome of the `when (loadType)`: a page to load, or an immediate
      `Success` without a fetch. */
  datatype PageResolution = LoadPage(page: int) | Finished(endOfPaginationReached: bool)

  /** The `when (loadType)` block, with its two early returns. */
  function ResolvePage(loadType: LoadType, state: PagingState, keys: map<string, RemoteKeys>): (r: PageResolution)
    ensures loadType == Refresh ==> r.LoadPage?
    ensures r.Finished? && loadType == Prepend ==>
      (r.endOfPaginationReached <==> GetRemoteKeyForFirstItem(state, keys).Some?)
    ensures r.Finished? && loadType == Append ==>
      (r.endOfPaginationReached <==> GetRemoteKeyForLastItem(state, keys).Some?)
  {
    match loadType
    case Refresh =>
      var remoteKeys := GetRemoteKeyClosestToCurrentPosition(state, keys);
      if remoteKeys.Some? && remoteKeys.value.nextKey.Some?
      then LoadPage(remoteKeys.value.nextKey.value - 1)
      else LoadPage(INITIAL_PAGE_INDEX)
    case Prepend =>
      var remoteKeys := GetRemoteKeyForFirstItem(state, keys);
      if remoteKeys.Some? && remoteKeys.value.prevKey.Some?
      then LoadPage(remoteKeys.value.prevKey.value)
      else Finished(remoteKeys.Some?)
    case Append =>
      var remoteKeys := GetRemoteKeyForLastItem(state, keys);
      if remoteKeys.Some? && remoteKeys.value.nextKey.Some?
      then LoadPage(remoteKeys.value.nextKey.value)
      else Finished(remoteKeys.Some?)
  }

  // ---------------------------------------------------------------------
  // The key pair written for a fetched page

  /** `if (page == 1) null else page - 1`. */
  function PrevKeyFor(page: int): (k: Option<int>)
    ensures k.None? <==> page == 1
    ensures k.Some? ==> k.value == page - 1
  {
    if page == 1 then None else Some(page - 1)
  }

  /** `if (endOfPaginationReached) null else page + 1`. */
  function NextKeyFor(page: int, endOfPaginationReached: bool): (k: Option<int>)
    ensures k.None? <==> endOfPaginationReached
    ensures k.Some? ==> k.value == page + 1
  {
    if endOfPaginationReached then None else Some(page + 1)
  }

  /** `responseData.map { RemoteKeys(id = it.id, prevKey, nextKey) }`. */
  function KeysFor(items: seq<ListStoryItem>, prevKey: Option<int>, nextKey: Option<int>): (keys: seq<RemoteKeys>)
    ensures |keys| == |items|
    ensures forall i :: 0 <= i < |items| ==> keys[i] == RemoteKeys(items[i].id, prevKey, nextKey)
  {
    if items == [] then [] else [RemoteKeys(items[0].id, prevKey, nextKey)] + KeysFor(items[1..], prevKey, nextKey)
  }

  // ---------------------------------------------------------------------
  // The two inserts, as modelled for the DAOs

  function ItemIdSet(items: seq<ListStoryItem>): set<string>
  {
    set x | x in items :: x.id
  }

  function StoryIdSet(stories: seq<StoryEntity>): set<string>
  {
    set x | x in stories :: x.id
  }

  function KeyIdSet(keys: seq<RemoteKeys>): set<string>
  {
    set k | k in keys :: k.id
  }

  /** No two rows share a primary key. */
  predicate DistinctIds(stories: seq<StoryEntity>)
  {
    forall i, j :: 0 <= i < j < |stories| ==> stories[i].id != stories[j].id
  }

  /** `remoteKeysDao().insertAll(keys)`: each record replaces the one with
      its id; a later record of the batch wins over an earlier one. */
  function InsertKeys(m: map<string, RemoteKeys>, keys: seq<RemoteKeys>): (r: map<string, RemoteKeys>)
    ensures m.Keys <= r.Keys
  {
    if keys == [] then m
    else InsertKeys(m, keys[..|keys| - 1])[keys[|keys| - 1].id := keys[|keys| - 1]]
  }

  /** After `insertAll` the stored ids are the old ones plus the batch's,
      records whose id is not in the batch are untouched, and every batch id
      holds a record of the batch with that id. */
  lemma {:induction false} InsertKeysFacts(m: map<string, RemoteKeys>, keys: seq<RemoteKeys>)
    ensures InsertKeys(m, keys).Keys == m.Keys + KeyIdSet(keys)
    ensures forall id :: id in m && id !in KeyIdSet(keys) ==> InsertKeys(m, keys)[id] == m[id]
    ensures forall k :: k in keys ==> InsertKeys(m, keys)[k.id] in keys && InsertKeys(m, keys)[k.id].id == k.id
  {
    if keys != [] {
      var init := keys[..|keys| - 1];
      var last := keys[|keys| - 1];
      InsertKeysFacts(m, init);
      assert keys == init + [last];
      assert KeyIdSet(keys) == KeyIdSet(init) + {last.id};
      var before := InsertKeys(m, init);
      var r := InsertKeys(m, keys);
      assert r == before[last.id := last];
      forall k | k in keys ensures r[k.id] in keys && r[k.id].id == k.id {
        if k.id != last.id {
          assert k in init;
          assert before[k.id] in init;
        }
      }
    }
  }

  /** The position of the first row with this id, if there is one. */
  function IndexOfId(stories: seq<StoryEntity>, id: string): (r: Option<nat>)
    ensures r.None? <==> id !in StoryIdSet(stories)
    ensures r.Some? ==> r.value < |stories| && stories[r.value].id == id
                        && forall j :: 0 <= j < r.value ==> stories[j].id != id
  {
    if stories == [] then None
    else if stories[0].id == id then Some(0)
    else
      var r := IndexOfId(stories[1..], id);
      assert StoryIdSet(stories) == {stories[0].id} + StoryIdSet(stories[1..]) by {
        assert stories == [stories[0]] + stories[1..];
      }
      if r.Some? then Some(r.value + 1) else None
  }

  /** Inserting one row: replace the row with its id where it stands, or
      append it. */
  function UpsertStory(stories: seq<StoryEntity>, e: StoryEntity): (r: seq<StoryEntity>)
    ensures e in r
    ensures e.id in StoryIdSet(stories) ==> |r| == |stories|
    ensures e.id !in StoryIdSet(stories) ==> r == stories + [e]
    ensures forall i :: 0 <= i < |stories| && stories[i].id != e.id ==> r[i] == stories[i]
    ensures StoryIdSet(r) == StoryIdSet(stories) + {e.id}
    ensures DistinctIds(stories) ==> DistinctIds(r)
  {
    match IndexOfId(stories, e.id)
    case Some(i) =>
      var r := stories[i := e];
      assert r[i] == e;
      assert StoryIdSet(r) == StoryIdSet(stories) by {
        forall x | x in StoryIdSet(r) ensures x in StoryIdSet(stories) {
          var y :| y in r && y.id == x;
          var k :| 0 <= k < |r| && r[k] == y;
          if k == i { assert stories[i].id == x; } else { assert stories[k] == y; }
        }
        forall x | x in StoryIdSet(stories) ensures x in StoryIdSet(r) {
          var y :| y in stories && y.id == x;
          var k :| 0 <= k < |stories| && stories[k] == y;
          if k == i { assert r[i].id == x; } else { assert r[k] == y; }
        }
      }
      r
    case None =>
      var r := stories + [e];
      assert r[|stories|] == e;
      assert StoryIdSet(r) == StoryIdSet(stories) + {e.id} by {
        forall x | x in StoryIdSet(r) ensures x in StoryIdSet(stories) + {e.id} {
          var y :| y in r && y.id == x;
          if y != e { assert y in stories; }
        }
      }
      r
  }

  /** `storyDao().insertStory(rows)`: the rows inserted one after another. */
  function InsertStories(stories: seq<StoryEntity>, rows: seq<StoryEntity>): (r: seq<StoryEntity>)
    ensures |stories| <= |r| <= |stories| + |rows|
  {
    if rows == [] then stories
    else UpsertStory(InsertStories(stories, rows[..|rows| - 1]), rows[|rows| - 1])
  }

  // ---------------------------------------------------------------------
  // One load, as a function of the tables before it

  /** The transaction body: on `Refresh` both tables are wiped, then one key
      record per fetched item and the mapped rows are inserted. */
  function WriteTables(t: Tables, loadType: LoadType, items: seq<ListStoryItem>, page: int): (r: Tables)
    ensures loadType == Refresh && items == [] ==> r == Tables([], map[])
    ensures loadType != Refresh ==> t.remoteKeys.Keys <= r.remoteKeys.Keys && |t.stories| <= |r.stories|
  {
    var base := if loadType == Refresh then Tables([], map[]) else t;
    var endOfPaginationReached := |items| == 0;
    var keys := KeysFor(items, PrevKeyFor(page), NextKeyFor(page, endOfPaginationReached));
    Tables(InsertStories(base.stories, MapStoryResponseToDataEntity(items)), InsertKeys(base.remoteKeys, keys))
  }

  /** What one load reports, the request it sends (if it gets that far) and
      the tables after it. */
  datatype StepResult = StepResult(result: MediatorResult, request: Option<Request>, tables: Tables)

  /** `load`: the session token read, the backend's answer to the request,
      and whether the transaction throws are inputs. A transaction that
      throws is rolled back. */
  function Step(t: Tables, loadType: LoadType, state: PagingState, token: Attempt<string>,
                fetch: Attempt<seq<ListStoryItem>>, writeFails: bool): (r: StepResult)
    ensures r.result.Error? || r.request.None? ==> r.tables == t
    ensures r.request.None? ==> r.result.Success? || token.Failed?
    ensures r.result.Success? && r.request.Some? ==>
      fetch.Done? && (r.result.endOfPaginationReached <==> fetch.value == [])
  {
    match ResolvePage(loadType, state, t.remoteKeys)
    case Finished(endOfPaginationReached) => StepResult(Success(endOfPaginationReached), None, t)
    case LoadPage(page) =>
      match token
      case Failed => StepResult(Error(SessionFault), None, t)
      case Done(tok) =>
        var request := GetStoriesRequest(page, state.pageSize, tok);
        match fetch
        case Failed => StepResult(Error(FetchFault), Some(request), t)
        case Done(items) =>
          if writeFails then StepResult(Error(WriteFault), Some(request), t)
          else StepResult(Success(|items| == 0), Some(request), WriteTables(t, loadType, items, page))
  }

  // ---------------------------------------------------------------------
  // Properties of the inserts

  /** After inserting, the row ids are the old ids plus the inserted ids,
      existing rows whose id is not inserted keep their position and value,
      and distinct primary keys stay distinct. */
  lemma {:induction false} InsertStoriesFacts(stories: seq<StoryEntity>, rows: seq<StoryEntity>)
    ensures StoryIdSet(InsertStories(stories, rows)) == StoryIdSet(stories) + StoryIdSet(rows)
    ensures |stories| <= |InsertStories(stories, rows)|
    ensures forall i :: 0 <= i < |stories| && stories[i].id !in StoryIdSet(rows) ==>
              InsertStories(stories, rows)[i] == stories[i]
    ensures DistinctIds(stories) ==> DistinctIds(InsertStories(stories, rows))
  {
    if rows != [] {
      var init, last := rows[..|rows| - 1], rows[|rows| - 1];
      assert rows == init + [last];
      assert StoryIdSet(rows) == StoryIdSet(init) + {last.id};
      InsertStoriesFacts(stories, init);
    }
  }

  /** Inserting rows with new, distinct ids appends them in order. */
  lemma {:induction false} InsertFreshStories(stories: seq<StoryEntity>, rows: seq<StoryEntity>)
    requires DistinctIds(rows)
    requires StoryIdSet(stories) !! StoryIdSet(rows)
    ensures InsertStories(stories, rows) == stories + rows
  {
    if rows != [] {
      var init, last := rows[..|rows| - 1], rows[|rows| - 1];
      assert rows == init + [last];
      assert StoryIdSet(rows) == StoryIdSet(init) + {last.id};
      InsertFreshStories(stories, init);
      InsertStoriesFacts(stories, init);
      assert last.id !in StoryIdSet(init);
      assert (stories + init) + [last] == stories + rows;
    }
  }

  /** For every id of the batch, the last row of the batch with that id is
      in the table afterwards. */
  lemma {:induction false} InsertStoriesLastWins(stories: seq<StoryEntity>, rows: seq<StoryEntity>, i: int)
    requires 0 <= i < |rows|
    requires forall j :: i < j < |rows| ==> rows[j].id != rows[i].id
    ensures rows[i] in InsertStories(stories, rows)
  {
    var init, last := rows[..|rows| - 1], rows[|rows| - 1];
    var prev := InsertStories(stories, init);
    assert InsertStories(stories, rows) == UpsertStory(prev, last);
    if i < |rows| - 1 {
      assert init[i] == rows[i];
      assert last.id != rows[i].id;
      InsertStoriesLastWins(stories, init, i);
      var k :| 0 <= k < |prev| && prev[k] == rows[i];
      assert UpsertStory(prev, last)[k] == prev[k];
    }
  }

  // ---------------------------------------------------------------------
  // Properties of the lookups

  lemma {:induction false} FlattenAppend(a: seq<seq<string>>, b: seq<seq<string>>)
    ensures Flatten(a + b) == Flatten(a) + Flatten(b)
  {
    if a == [] {
      assert a + b == b;
    } else {
      assert (a + b)[1..] == a[1..] + b;
      FlattenAppend(a[1..], b);
    }
  }

  /** The first-item lookup reads the first id of the whole window. */
  lemma {:induction false} FirstItemOfWindow(pages: seq<seq<string>>)
    ensures FirstItemId(pages) == if Flatten(pages) == [] then None else Some(Flatten(pages)[0])
  {
    if pages != [] {
      FirstItemOfWindow(pages[1..]);
    }
  }

  /** The last-item lookup reads the last id of the whole window. */
  lemma {:induction false} LastItemOfWindow(pages: seq<seq<string>>)
    ensures LastItemId(pages) == if Flatten(pages) == [] then None else Some(Flatten(pages)[|Flatten(pages)| - 1])
  {
    if pages != [] {
      var init, last := pages[..|pages| - 1], pages[|pages| - 1];
      assert pages == init + [last];
      FlattenAppend(init, [last]);
      assert Flatten([last]) == last by { assert [last][1..] == []; }
      LastItemOfWindow(init);
    }
  }

  // ---------------------------------------------------------------------
  // The table invariant

  /** The page that produced a key record: one past its `prevKey`, or the
      first page. */
  function PageOf(k: RemoteKeys): int
  {
    if k.prevKey.Some? then k.prevKey.value + 1 else INITIAL_PAGE_INDEX
  }

  /** A key record as a load writes it for a page of at least one item:
      `prevKey` absent only on the first page, `nextKey` one past its page. */
  predicate WellFormedKey(k: RemoteKeys)
  {
    && (k.prevKey.Some? ==> k.prevKey.value >= 1)
    && k.nextKey == Some(PageOf(k) + 1)
  }

  /** Every key record of a map is stored under its own id and well formed. */
  predicate KeysWellFormed(keys: map<string, RemoteKeys>)
  {
    forall id :: id in keys ==> keys[id].id == id && WellFormedKey(keys[id])
  }

  /** The tables agree: story ids are distinct, every story has exactly one
      key record and every key record one story, each stored under its own id
      and well formed. */
  predicate Consistent(t: Tables)
  {
    && DistinctIds(t.stories)
    && StoryIdSet(t.stories) == t.remoteKeys.Keys
    && KeysWellFormed(t.remoteKeys)
  }

  // ---------------------------------------------------------------------
  // Page resolution, stated against the window

  /** `Refresh` loads the page before the `nextKey` of the key stored for
      the row closest to the anchor, and page 1 when there is no anchor row,
      no key for it, or no `nextKey`. It never finishes early. */
  lemma RefreshResolution(state: PagingState, keys: map<string, RemoteKeys>)
    ensures ResolvePage(Refresh, state, keys) ==
      if state.closestToAnchor.Some? && state.closestToAnchor.value in keys
         && keys[state.closestToAnchor.value].nextKey.Some?
      then LoadPage(keys[state.closestToAnchor.value].nextKey.value - 1)
      else LoadPage(1)
  {
  }

  /** `Prepend` looks up the key of the first row of the window: no row or
      no key gives `Success(false)`, a key without `prevKey` gives
      `Success(true)`, and otherwise the load targets `prevKey`. */
  lemma PrependResolution(state: PagingState, keys: map<string, RemoteKeys>)
    ensures
      var ids := Flatten(state.pages);
      ResolvePage(Prepend, state, keys) ==
        if ids == [] || ids[0] !in keys then Finished(false)
        else if keys[ids[0]].prevKey.None? then Finished(true)
        else LoadPage(keys[ids[0]].prevKey.value)
  {
    FirstItemOfWindow(state.pages);
  }

  /** `Append` looks up the key of the last row of the window: no row or
      no key gives `Success(false)`, a key without `nextKey` gives
      `Success(true)`, and otherwise the load targets `nextKey`. */
  lemma AppendResolution(state: PagingState, keys: map<string, RemoteKeys>)
    ensures
      var ids := Flatten(state.pages);
      ResolvePage(Append, state, keys) ==
        if ids == [] || ids[|ids| - 1] !in keys then Finished(false)
        else if keys[ids[|ids| - 1]].nextKey.None? then Finished(true)
        else LoadPage(keys[ids[|ids| - 1]].nextKey.value)
  {
    LastItemOfWindow(state.pages);
  }

  /** On consistent tables every resolved page is at least 1, `Refresh`
      reloads the page that produced the anchor row, and `Append` never
      reports the end from a stored key: a stored `nextKey` is never absent,
      so the end of the feed is only ever found by fetching an empty page. */
  lemma ResolutionOnConsistentTables(t: Tables, loadType: LoadType, state: PagingState)
    requires Consistent(t)
    ensures ResolvePage(loadType, state, t.remoteKeys).LoadPage? ==> ResolvePage(loadType, state, t.remoteKeys).page >= 1
    ensures loadType == Refresh && state.closestToAnchor.Some? && state.closestToAnchor.value in t.remoteKeys ==>
      ResolvePage(loadType, state, t.remoteKeys) == LoadPage(PageOf(t.remoteKeys[state.closestToAnchor.value]))
    ensures loadType == Append ==> ResolvePage(loadType, state, t.remoteKeys) != Finished(true)
  {
  }

  // ---------------------------------------------------------------------
  // One load

  /** No two fetched items share an id. */
  predicate DistinctItemIds(items: seq<ListStoryItem>)
  {
    forall i, j :: 0 <= i < j < |items| ==> items[i].id != items[j].id
  }

  /** The mapped rows carry exactly the ids of the items. */
  lemma RowIds(items: seq<ListStoryItem>)
    ensures StoryIdSet(MapStoryResponseToDataEntity(items)) == ItemIdSet(items)
    ensures DistinctItemIds(items) ==> DistinctIds(MapStoryResponseToDataEntity(items))
  {
    var rows := MapStoryResponseToDataEntity(items);
    assert forall k :: 0 <= k < |items| ==> rows[k].id == items[k].id;
    assert StoryIdSet(rows) <= ItemIdSet(items) by {
      forall x | x in StoryIdSet(rows) ensures x in ItemIdSet(items) {
        var k :| 0 <= k < |rows| && rows[k].id == x;
        assert items[k] in items;
      }
    }
    assert ItemIdSet(items) <= StoryIdSet(rows) by {
      forall x | x in ItemIdSet(items) ensures x in StoryIdSet(rows) {
        var k :| 0 <= k < |items| && items[k].id == x;
        assert rows[k] in rows;
      }
    }
  }

  /** The key batch has one record per item id. */
  lemma BatchIds(items: seq<ListStoryItem>, prevKey: Option<int>, nextKey: Option<int>)
    ensures KeyIdSet(KeysFor(items, prevKey, nextKey)) == ItemIdSet(items)
  {
    var keys := KeysFor(items, prevKey, nextKey);
    assert KeyIdSet(keys) <= ItemIdSet(items) by {
      forall x | x in KeyIdSet(keys) ensures x in ItemIdSet(items) {
        var k :| 0 <= k < |keys| && keys[k].id == x;
        assert items[k] in items;
      }
    }
    assert ItemIdSet(items) <= KeyIdSet(keys) by {
      forall x | x in ItemIdSet(items) ensures x in KeyIdSet(keys) {
        var k :| 0 <= k < |items| && items[k].id == x;
        assert keys[k] in keys;
      }
    }
  }

  /** The mapped rows and the key batch of a page. */
  lemma PageIds(items: seq<ListStoryItem>, prevKey: Option<int>, nextKey: Option<int>)
    ensures StoryIdSet(MapStoryResponseToDataEntity(items)) == ItemIdSet(items)
    ensures KeyIdSet(KeysFor(items, prevKey, nextKey)) == ItemIdSet(items)
    ensures DistinctItemIds(items) ==> DistinctIds(MapStoryResponseToDataEntity(items))
  {
    RowIds(items);
    BatchIds(items, prevKey, nextKey);
  }

  /** A load that reaches the write reports `Success` with
      `endOfPaginationReached` set exactly when the fetched page is empty, and
      sends `getStories(page, pageSize)` with the session's token. */
  lemma EndOfPaginationIffEmptyPage(t: Tables, loadType: LoadType, state: PagingState, token: string,
                                    items: seq<ListStoryItem>, page: int)
    requires ResolvePage(loadType, state, t.remoteKeys) == LoadPage(page)
    ensures Step(t, loadType, state, Done(token), Done(items), false).result == Success(|items| == 0)
    ensures Step(t, loadType, state, Done(token), Done(items), false).request
         == Some(GetStoriesRequest(page, state.pageSize, token))
  {
  }

  /** Every fetched item gets one key record, all with the same pair:
      `prevKey` absent on page 1 and one less otherwise, `nextKey` absent when
      the page was empty and one more otherwise. */
  lemma {:induction false} EveryItemGetsPageKeys(t: Tables, loadType: LoadType, state: PagingState, token: string,
                                                 items: seq<ListStoryItem>, page: int)
    requires ResolvePage(loadType, state, t.remoteKeys) == LoadPage(page)
    ensures var keys := Step(t, loadType, state, Done(token), Done(items), false).tables.remoteKeys;
      forall item :: item in items ==>
        && item.id in keys
        && keys[item.id].id == item.id
        && (keys[item.id].prevKey.None? <==> page == 1)
        && (keys[item.id].prevKey.Some? ==> keys[item.id].prevKey.value == page - 1)
        && (keys[item.id].nextKey.None? <==> |items| == 0)
        && (keys[item.id].nextKey.Some? ==> keys[item.id].nextKey.value == page + 1)
  {
    var prevKey, nextKey := PrevKeyFor(page), NextKeyFor(page, |items| == 0);
    StepWrites(t, loadType, state, token, items, page);
    var base := if loadType == Refresh then Tables([], map[]) else t;
    BatchStored(base.remoteKeys, items, prevKey, nextKey);
  }

  /** After inserting a page's key batch, every item's id holds the page's
      pair. */
  lemma BatchStored(m: map<string, RemoteKeys>, items: seq<ListStoryItem>, prevKey: Option<int>, nextKey: Option<int>)
    ensures var keys := InsertKeys(m, KeysFor(items, prevKey, nextKey));
      forall item :: item in items ==> item.id in keys && keys[item.id] == RemoteKeys(item.id, prevKey, nextKey)
  {
    var batch := KeysFor(items, prevKey, nextKey);
    var keys := InsertKeys(m, batch);
    InsertKeysFacts(m, batch);
    forall item | item in items
      ensures item.id in keys && keys[item.id] == RemoteKeys(item.id, prevKey, nextKey)
    {
      var k :| 0 <= k < |items| && items[k] == item;
      assert batch[k] == RemoteKeys(item.id, prevKey, nextKey);
      assert batch[k] in batch;
      var stored := keys[item.id];
      assert stored in batch && stored.id == item.id;
      var j :| 0 <= j < |batch| && batch[j] == stored;
      assert batch[j] == RemoteKeys(items[j].id, prevKey, nextKey);
    }
  }

  /** A load whose page resolves performs the transaction body when nothing
      fails. */
  lemma StepWrites(t: Tables, loadType: LoadType, state: PagingState, token: string,
                   items: seq<ListStoryItem>, page: int)
    requires ResolvePage(loadType, state, t.remoteKeys) == LoadPage(page)
    ensures Step(t, loadType, state, Done(token), Done(items), false).tables == WriteTables(t, loadType, items, page)
  {
  }

  /** Inserting a page's rows into an empty story table gives rows with
      exactly the page's ids, each once, and exactly the mapped items when
      the fetched ids are distinct. */
  lemma {:induction false} WriteIntoEmpty(items: seq<ListStoryItem>)
    ensures var stories := InsertStories([], MapStoryResponseToDataEntity(items));
      && StoryIdSet(stories) == ItemIdSet(items)
      && DistinctIds(stories)
      && (DistinctItemIds(items) ==> stories == MapStoryResponseToDataEntity(items))
  {
    var rows := MapStoryResponseToDataEntity(items);
    RowIds(items);
    InsertStoriesFacts([], rows);
    assert StoryIdSet([]) == {};
    if DistinctItemIds(items) {
      InsertFreshStories([], rows);
      assert [] + rows == rows;
    }
  }

  /** The story table after a `Refresh` transaction holds exactly the
      fetched rows. */
  lemma RefreshRows(t: Tables, items: seq<ListStoryItem>, page: int)
    ensures var stories := WriteTables(t, Refresh, items, page).stories;
      && StoryIdSet(stories) == ItemIdSet(items)
      && DistinctIds(stories)
      && (DistinctItemIds(items) ==> stories == MapStoryResponseToDataEntity(items))
  {
    assert WriteTables(t, Refresh, items, page).stories == InsertStories([], MapStoryResponseToDataEntity(items));
    WriteIntoEmpty(items);
  }

  /** The key table after a `Refresh` transaction holds exactly the fetched
      ids. */
  lemma RefreshKeys(t: Tables, items: seq<ListStoryItem>, page: int)
    ensures WriteTables(t, Refresh, items, page).remoteKeys.Keys == ItemIdSet(items)
  {
    var batch := KeysFor(items, PrevKeyFor(page), NextKeyFor(page, |items| == 0));
    assert WriteTables(t, Refresh, items, page).remoteKeys == InsertKeys(map[], batch);
    InsertKeysFacts(map[], batch);
    BatchIds(items, PrevKeyFor(page), NextKeyFor(page, |items| == 0));
  }

  /** A story table without ids has no rows. */
  lemma NoIdsNoRows(stories: seq<StoryEntity>)
    ensures StoryIdSet(stories) == {} ==> stories == []
  {
    if stories != [] {
      assert stories[0].id in StoryIdSet(stories);
    }
  }

  /** A successful `Refresh` leaves both tables holding exactly the fetched
      page: the ids of the rows and of the key records are the fetched ids
      (none at all for an empty page), and when the fetched ids are distinct
      the rows are the mapped items in fetch order. */
  lemma {:induction false} RefreshReplacesTables(t: Tables, state: PagingState, token: string, items: seq<ListStoryItem>)
    ensures var after := Step(t, Refresh, state, Done(token), Done(items), false).tables;
      && StoryIdSet(after.stories) == ItemIdSet(items)
      && after.remoteKeys.Keys == ItemIdSet(items)
      && DistinctIds(after.stories)
      && (items == [] ==> after.stories == [] && after.remoteKeys == map[])
      && (DistinctItemIds(items) ==> after.stories == MapStoryResponseToDataEntity(items))
  {
    var page := ResolvePage(Refresh, state, t.remoteKeys).page;
    StepWrites(t, Refresh, state, token, items, page);
    RefreshRows(t, items, page);
    RefreshKeys(t, items, page);
    var after := WriteTables(t, Refresh, items, page);
    if items == [] {
      assert ItemIdSet(items) == {};
      NoIdsNoRows(after.stories);
      assert after.remoteKeys == map[];
    }
  }

  /** `Prepend` and `Append` leave every row and key record whose id is not
      in the fetched page where and as it was. */
  lemma {:induction false} ExtendKeepsOtherRows(t: Tables, loadType: LoadType, state: PagingState, token: string,
                                                items: seq<ListStoryItem>)
    requires loadType != Refresh
    ensures var after := Step(t, loadType, state, Done(token), Done(items), false).tables;
      && |t.stories| <= |after.stories|
      && (forall i :: 0 <= i < |t.stories| && t.stories[i].id !in ItemIdSet(items) ==> after.stories[i] == t.stories[i])
      && (forall id :: id in t.remoteKeys && id !in ItemIdSet(items) ==>
            id in after.remoteKeys && after.remoteKeys[id] == t.remoteKeys[id])
  {
    match ResolvePage(loadType, state, t.remoteKeys)
    case Finished(_) =>
    case LoadPage(page) =>
      var prevKey, nextKey := PrevKeyFor(page), NextKeyFor(page, |items| == 0);
      StepWrites(t, loadType, state, token, items, page);
      assert WriteTables(t, loadType, items, page)
          == Tables(InsertStories(t.stories, MapStoryResponseToDataEntity(items)),
                    InsertKeys(t.remoteKeys, KeysFor(items, prevKey, nextKey)));
      PageIds(items, prevKey, nextKey);
      InsertStoriesFacts(t.stories, MapStoryResponseToDataEntity(items));
      InsertKeysFacts(t.remoteKeys, KeysFor(items, prevKey, nextKey));
  }

  /** A load that reports `Error` leaves both tables as they were, and it
      reports `Error` exactly when it reached the session read and the read,
      the fetch or the transaction failed. */
  lemma FailureLeavesTables(t: Tables, loadType: LoadType, state: PagingState, token: Attempt<string>,
                            fetch: Attempt<seq<ListStoryItem>>, writeFails: bool)
    ensures Step(t, loadType, state, token, fetch, writeFails).result.Error? ==>
      Step(t, loadType, state, token, fetch, writeFails).tables == t
    ensures Step(t, loadType, state, token, fetch, writeFails).result.Error? <==>
      ResolvePage(loadType, state, t.remoteKeys).LoadPage? && (token.Failed? || fetch.Failed? || writeFails)
  {
  }

  /** `Prepend` whose first row has a key without `prevKey` reports the end
      without a request and without touching the tables; with no key for
      the first row it reports `Success(false)`, also without a request. */
  lemma {:induction false} PrependAtStart(t: Tables, state: PagingState, token: Attempt<string>,
                                          fetch: Attempt<seq<ListStoryItem>>, writeFails: bool)
    requires Flatten(state.pages) != []
    ensures var first := Flatten(state.pages)[0];
      first in t.remoteKeys && t.remoteKeys[first].prevKey.None? ==>
        Step(t, Prepend, state, token, fetch, writeFails) == StepResult(Success(true), None, t)
    ensures var first := Flatten(state.pages)[0];
      first !in t.remoteKeys ==>
        Step(t, Prepend, state, token, fetch, writeFails) == StepResult(Success(false), None, t)
  {
    PrependResolution(state, t.remoteKeys);
  }

  /** `Append` whose last row has a key without `nextKey` reports the end
      without a request and without touching the tables; with no key for
      the last row it reports `Success(false)`, also without a request. */
  lemma {:induction false} AppendAtEnd(t: Tables, state: PagingState, token: Attempt<string>,
                                       fetch: Attempt<seq<ListStoryItem>>, writeFails: bool)
    requires Flatten(state.pages) != []
    ensures var ids := Flatten(state.pages);
      ids[|ids| - 1] in t.remoteKeys && t.remoteKeys[ids[|ids| - 1]].nextKey.None? ==>
        Step(t, Append, state, token, fetch, writeFails) == StepResult(Success(true), None, t)
    ensures var ids := Flatten(state.pages);
      ids[|ids| - 1] !in t.remoteKeys ==>
        Step(t, Append, state, token, fetch, writeFails) == StepResult(Success(false), None, t)
  {
    AppendResolution(state, t.remoteKeys);
  }

  /** The key pair written for a page gives that page back: `PageOf`
      inverts `PrevKeyFor` on pages of at least 1, and the pair written for a
      non-empty page is well formed. */
  lemma PageKeyRoundTrip(id: string, page: int, endOfPaginationReached: bool)
    requires page >= 1
    ensures PageOf(RemoteKeys(id, PrevKeyFor(page), NextKeyFor(page, endOfPaginationReached))) == page
    ensures !endOfPaginationReached ==>
      WellFormedKey(RemoteKeys(id, PrevKeyFor(page), NextKeyFor(page, endOfPaginationReached)))
  {
  }

  /** Inserting well-formed records keeps a well-formed key table well
      formed. */
  lemma InsertWellFormedKeys(keys: map<string, RemoteKeys>, batch: seq<RemoteKeys>)
    requires KeysWellFormed(keys)
    requires forall k :: k in batch ==> WellFormedKey(k)
    ensures KeysWellFormed(InsertKeys(keys, batch))
  {
    var after := InsertKeys(keys, batch);
    InsertKeysFacts(keys, batch);
    forall id | id in after ensures after[id].id == id && WellFormedKey(after[id]) {
      if id in KeyIdSet(batch) {
        var k :| k in batch && k.id == id;
      }
    }
  }

  /** The key batch of a page of at least 1 is well formed. */
  lemma {:induction false} PageBatchWellFormed(items: seq<ListStoryItem>, page: int)
    requires page >= 1
    ensures forall k :: k in KeysFor(items, PrevKeyFor(page), NextKeyFor(page, |items| == 0)) ==> WellFormedKey(k)
  {
    var prevKey, nextKey := PrevKeyFor(page), NextKeyFor(page, |items| == 0);
    var batch := KeysFor(items, prevKey, nextKey);
    forall k | k in batch ensures WellFormedKey(k) {
      var i :| 0 <= i < |batch| && batch[i] == k;
      assert k == RemoteKeys(items[i].id, prevKey, nextKey);
      assert nextKey == Some(page + 1);
    }
  }

  /** Inserting the key batch of a page of at least 1 keeps every record
      well formed. */
  lemma InsertPageKeysWellFormed(keys: map<string, RemoteKeys>, items: seq<ListStoryItem>, page: int)
    requires KeysWellFormed(keys)
    requires page >= 1
    ensures var after := InsertKeys(keys, KeysFor(items, PrevKeyFor(page), NextKeyFor(page, |items| == 0)));
      KeysWellFormed(after) && after.Keys == keys.Keys + ItemIdSet(items)
  {
    BatchIds(items, PrevKeyFor(page), NextKeyFor(page, |items| == 0));
    PageBatchWellFormed(items, page);
    InsertKeysFacts(keys, KeysFor(items, PrevKeyFor(page), NextKeyFor(page, |items| == 0)));
    InsertWellFormedKeys(keys, KeysFor(items, PrevKeyFor(page), NextKeyFor(page, |items| == 0)));
  }

  /** Writing a page of at least 1 into consistent tables keeps them
      consistent. */
  lemma {:induction false} WritePreservesConsistency(t: Tables, loadType: LoadType, items: seq<ListStoryItem>, page: int)
    requires Consistent(t)
    requires page >= 1
    ensures Consistent(WriteTables(t, loadType, items, page))
  {
    var base := if loadType == Refresh then Tables([], map[]) else t;
    assert Consistent(base) by {
      if loadType == Refresh { assert StoryIdSet([]) == {}; }
    }
    var rows := MapStoryResponseToDataEntity(items);
    var stories := InsertStories(base.stories, rows);
    var keys := InsertKeys(base.remoteKeys, KeysFor(items, PrevKeyFor(page), NextKeyFor(page, |items| == 0)));
    assert WriteTables(t, loadType, items, page) == Tables(stories, keys);
    RowIds(items);
    InsertStoriesFacts(base.stories, rows);
    InsertPageKeysWellFormed(base.remoteKeys, items, page);
  }

  /** Every load keeps the tables consistent. */
  lemma {:induction false} StepPreservesConsistency(t: Tables, loadType: LoadType, state: PagingState,
                                                    token: Attempt<string>, fetch: Attempt<seq<ListStoryItem>>,
                                                    writeFails: bool)
    requires Consistent(t)
    ensures Consistent(Step(t, loadType, state, token, fetch, writeFails).tables)
  {
    match ResolvePage(loadType, state, t.remoteKeys)
    case Finished(_) =>
    case LoadPage(page) =>
      if token.Done? && fetch.Done? && !writeFails {
        ResolutionOnConsistentTables(t, loadType, state);
        StepWrites(t, loadType, state, token.value, fetch.value, page);
        WritePreservesConsistency(t, loadType, fetch.value, page);
      }
  }

  /** Loads that only append pages with new, distinct ids grow the story
      table by exactly those rows, in fetch order. */
  lemma {:induction false} AppendConcatenates(t: Tables, state: PagingState, token: string, items: seq<ListStoryItem>)
    requires DistinctItemIds(items)
    requires StoryIdSet(t.stories) !! ItemIdSet(items)
    requires ResolvePage(Append, state, t.remoteKeys).LoadPage?
    ensures Step(t, Append, state, Done(token), Done(items), false).tables.stories
         == t.stories + MapStoryResponseToDataEntity(items)
  {
    var page := ResolvePage(Append, state, t.remoteKeys).page;
    PageIds(items, PrevKeyFor(page), NextKeyFor(page, |items| == 0));
    InsertFreshStories(t.stories, MapStoryResponseToDataEntity(items));
  }

  /** A first `Refresh` from an empty cache with no anchor requests page 1
      and stores the fetched rows, each with the key pair `(null, 2)`. */
  lemma {:induction false} FirstRefreshScenario(items: seq<ListStoryItem>, token: string, pageSize: int)
    requires items != [] && DistinctItemIds(items)
    ensures var first := Step(Tables([], map[]), Refresh, PagingState([], None, pageSize), Done(token), Done(items), false);
      && first.request == Some(GetStoriesRequest(1, pageSize, token))
      && first.result == Success(false)
      && first.tables.stories == MapStoryResponseToDataEntity(items)
      && (forall item :: item in items ==>
            item.id in first.tables.remoteKeys && first.tables.remoteKeys[item.id] == RemoteKeys(item.id, None, Some(2)))
  {
    var t0 := Tables([], map[]);
    var state := PagingState([], None, pageSize);
    assert ResolvePage(Refresh, state, t0.remoteKeys) == LoadPage(1);
    EndOfPaginationIffEmptyPage(t0, Refresh, state, token, items, 1);
    StepWrites(t0, Refresh, state, token, items, 1);
    RefreshRows(t0, items, 1);
    var after := WriteTables(t0, Refresh, items, 1);
    assert PrevKeyFor(1) == None && NextKeyFor(1, |items| == 0) == Some(2);
    assert after.remoteKeys == InsertKeys(map[], KeysFor(items, None, Some(2)));
    BatchStored(map[], items, None, Some(2));
  }

  /** An `Append` from a window whose last row has the key pair `(null, 2)`
      requests page 2; an empty answer reports the end and leaves the rows as
      they are. */
  lemma {:induction false} AppendEmptyPageScenario(t: Tables, ids: seq<string>, token: string, pageSize: int)
    requires ids != [] && ids[|ids| - 1] in t.remoteKeys
    requires t.remoteKeys[ids[|ids| - 1]].nextKey == Some(2)
    ensures var window := PagingState([ids], None, pageSize);
      var second := Step(t, Append, window, Done(token), Done([]), false);
      && second.request == Some(GetStoriesRequest(2, pageSize, token))
      && second.result == Success(true)
      && second.tables.stories == t.stories
  {
    var window := PagingState([ids], None, pageSize);
    assert Flatten(window.pages) == ids by {
      assert window.pages[1..] == [];
    }
    AppendResolution(window, t.remoteKeys);
    StepWrites(t, Append, window, token, [], 2);
    assert MapStoryResponseToDataEntity([]) == [];
  }

  // ---------------------------------------------------------------------
  // The cache database and the mediator

  /** The two tables of the Room database the mediator writes, with the DAO
      operations it calls. */
  class StoryDatabase {
    var stories: seq<StoryEntity>
    var remoteKeys: map<string, RemoteKeys>

    /** A new, empty database. */
    constructor ()
      ensures stories == [] && remoteKeys == map[]
      ensures Consistent(Snapshot())
    {
      stories := [];
      remoteKeys := map[];
      assert StoryIdSet([]) == {};
    }

    /** The contents of both tables. */
    function Snapshot(): Tables
      reads this
    {
      Tables(stories, remoteKeys)
    }

    /** `remoteKeysDao().deleteRemoteKeys()`. */
    method DeleteRemoteKeys()
      modifies this
      ensures remoteKeys == map[] && stories == old(stories)
    {
      remoteKeys := map[];
    }

    /** `storyDao().deleteAll()`. */
    method DeleteAll()
      modifies this
      ensures stories == [] && remoteKeys == old(remoteKeys)
    {
      stories := [];
    }

    /** `remoteKeysDao().insertAll(keys)`, one record at a time. */
    method InsertAll(keys: seq<RemoteKeys>)
      modifies this
      ensures remoteKeys == InsertKeys(old(remoteKeys), keys) && stories == old(stories)
    {
      var i := 0;
      while i < |keys|
        invariant 0 <= i <= |keys|
        invariant remoteKeys == InsertKeys(old(remoteKeys), keys[..i])
        invariant stories == old(stories)
      {
        assert keys[..i + 1][..i] == keys[..i];
        assert keys[..i + 1][i] == keys[i];
        assert InsertKeys(old(remoteKeys), keys[..i + 1])
            == InsertKeys(old(remoteKeys), keys[..i])[keys[i].id := keys[i]];
        remoteKeys := remoteKeys[keys[i].id := keys[i]];
        i := i + 1;
      }
      assert keys[..|keys|] == keys;
    }

    /** `storyDao().insertStory(rows)`, one row at a time. */
    method InsertStory(rows: seq<StoryEntity>)
      modifies this
      ensures stories == InsertStories(old(stories), rows) && remoteKeys == old(remoteKeys)
    {
      var i := 0;
      while i < |rows|
        invariant 0 <= i <= |rows|
        invariant stories == InsertStories(old(stories), rows[..i])
        invariant remoteKeys == old(remoteKeys)
      {
        assert rows[..i + 1][..i] == rows[..i];
        stories := UpsertStory(stories, rows[i]);
        i := i + 1;
      }
      assert rows[..|rows|] == rows;
    }

    /** The rollback of a transaction that threw: both tables return to the
        contents they had when it began. */
    method RollBack(to: Tables)
      modifies this
      ensures Snapshot() == to
    {
      stories, remoteKeys := to.stories, to.remoteKeys;
    }
  }

  /** The remote mediator of the paged story feed. */
  class StoryRemoteMediator {
    const storyDatabase: StoryDatabase

    constructor (storyDatabase: StoryDatabase)
      ensures this.storyDatabase == storyDatabase
    {
      this.storyDatabase := storyDatabase;
    }

    /** The `withTransaction` block of `load`: on `Refresh` both tables are
        wiped, then the page's key records and rows are inserted; a
        transaction that throws is rolled back. */
    method WriteInTransaction(loadType: LoadType, responseData: seq<ListStoryItem>, page: int, writeFails: bool)
      modifies storyDatabase
      ensures storyDatabase.Snapshot() ==
        if writeFails then old(storyDatabase.Snapshot())
        else WriteTables(old(storyDatabase.Snapshot()), loadType, responseData, page)
    {
      var endOfPaginationReached := |responseData| == 0;
      var rows := MapStoryResponseToDataEntity(responseData);
      var before := storyDatabase.Snapshot();
      if loadType == Refresh {
        storyDatabase.DeleteRemoteKeys();
        storyDatabase.DeleteAll();
      }
      ghost var base := storyDatabase.Snapshot();
      var prevKey := PrevKeyFor(page);
      var nextKey := NextKeyFor(page, endOfPaginationReached);
      var keys := KeysFor(responseData, prevKey, nextKey);
      storyDatabase.InsertAll(keys);
      storyDatabase.InsertStory(rows);
      assert storyDatabase.Snapshot() == Tables(InsertStories(base.stories, rows), InsertKeys(base.remoteKeys, keys));
      assert base == if loadType == Refresh then Tables([], map[]) else before;
      if writeFails {
        storyDatabase.RollBack(before);
      }
    }

    /** `load`. The session token read, the backend's answer to the request
        and whether the transaction throws are inputs; `request` is the call
        made to the backend, if the load got that far. The result, the
        request and the tables afterwards are those `Step` computes, and
        consistent tables stay consistent. */
    method Load(loadType: LoadType, state: PagingState, token: Attempt<string>,
                fetch: Attempt<seq<ListStoryItem>>, writeFails: bool)
      returns (result: MediatorResult, request: Option<Request>)
      modifies storyDatabase
      ensures StepResult(result, request, storyDatabase.Snapshot())
           == Step(old(storyDatabase.Snapshot()), loadType, state, token, fetch, writeFails)
      ensures old(Consistent(storyDatabase.Snapshot())) ==> Consistent(storyDatabase.Snapshot())
    {
      if Consistent(storyDatabase.Snapshot()) {
        StepPreservesConsistency(storyDatabase.Snapshot(), loadType, state, token, fetch, writeFails);
      }
      var resolution := ResolvePage(loadType, state, storyDatabase.remoteKeys);
      if resolution.Finished? {
        return Success(resolution.endOfPaginationReached), None;
      }
      var page := resolution.page;
      if token.Failed? {
        return Error(SessionFault), None;
      }
      request := Some(GetStoriesRequest(page, state.pageSize, token.value));
      if fetch.Failed? {
        return Error(FetchFault), request;
      }
      var responseData := fetch.value;
      var endOfPaginationReached := |responseData| == 0;
      WriteInTransaction(loadType, responseData, page, writeFails);
      if writeFails {
        return Error(WriteFault), request;
      }
      result := Success(endOfPaginationReached);
    }

    /** `initialize`: the feed always starts with a refresh. */
    method Initialize() returns (action: InitializeAction)
      ensures action == LaunchInitialRefresh
    {
      action := LaunchInitialRefresh;
    }
  }
}
