/** The projection of fetched story items onto cached story rows
    (`DataMapper.mapStoryResponseToDataEntity`). */
module DataMapper {
  import opened Common

  /** One item of the `listStory` array of a stories response. Coordinates
      are carried as opaque numbers; the projection drops them. */
  datatype ListStoryItem = ListStoryItem(
    id: string,
    photoUrl: Option<string>,
    name: Option<string>,
    description: Option<string>,
    createdAt: Option<string>,
    lat: Option<real>,
    lon: Option<real>)

  /** A row of the `stories` table; `id` is its primary key. */
  datatype StoryEntity = StoryEntity(
    id: string,
    photoUrl: Option<string>,
    name: Option<string>,
    description: Option<string>,
    createdAt: Option<string>)

  /** The constructor call inside the `map` lambda. */
  function ToEntity(item: ListStoryItem): (e: StoryEntity)
  {
    StoryEntity(item.id, item.photoUrl, item.name, item.description, item.createdAt)
  }

  /** The item carrying exactly the fields of `e`, with no coordinates. */
  function FromEntity(e: StoryEntity): (item: ListStoryItem)
  {
    ListStoryItem(e.id, e.photoUrl, e.name, e.description, e.createdAt, None, None)
  }

  /** `input.map { StoryEntity(...) }`: one row per item, in the same order,
      every kept field copied unchanged. */
  function MapStoryResponseToDataEntity(input: seq<ListStoryItem>): (output: seq<StoryEntity>)
    ensures |output| == |input|
    ensures forall i :: 0 <= i < |input| ==>
      && output[i].id == input[i].id
      && output[i].photoUrl == input[i].photoUrl
      && output[i].name == input[i].name
      && output[i].description == input[i].description
      && output[i].createdAt == input[i].createdAt
  {
    if input == [] then [] else [ToEntity(input[0])] + MapStoryResponseToDataEntity(input[1..])
  }

  /** The sequence of row ids equals the sequence of item ids, so the rows that
      are inserted are exactly the rows that receive key records. */
  lemma MapPreservesIds(input: seq<ListStoryItem>)
    ensures var rows := MapStoryResponseToDataEntity(input);
      seq(|rows|, i requires 0 <= i < |rows| => rows[i].id) == seq(|input|, i requires 0 <= i < |input| => input[i].id)
  {
  }

  /** Mapping an empty list gives an empty list. */
  lemma MapEmpty()
    ensures MapStoryResponseToDataEntity([]) == []
  {
  }

  /** Mapping distributes over concatenation: mapping two pages one after the
      other gives the same rows as mapping them joined. */
  lemma {:induction false} MapConcat(a: seq<ListStoryItem>, b: seq<ListStoryItem>)
    ensures MapStoryResponseToDataEntity(a + b)
         == MapStoryResponseToDataEntity(a) + MapStoryResponseToDataEntity(b)
  {
    if a == [] {
      assert a + b == b;
    } else {
      assert (a + b)[1..] == a[1..] + b;
      MapConcat(a[1..], b);
    }
  }

  /** Round trip: reading a row back as an item and projecting it again gives
      the same row; the projection loses only the coordinates. */
  lemma EntityRoundTrip(e: StoryEntity)
    ensures ToEntity(FromEntity(e)) == e
  {
  }

  /** An item without coordinates survives the projection and back unchanged. */
  lemma ItemRoundTrip(item: ListStoryItem)
    requires item.lat.None? && item.lon.None?
    ensures FromEntity(ToEntity(item)) == item
  {
  }

  /** Round trip on whole lists: the cached rows read back as items give
      rows equal to themselves. */
  lemma {:induction false} MapRoundTrip(stories: seq<StoryEntity>)
    ensures MapStoryResponseToDataEntity(seq(|stories|, i requires 0 <= i < |stories| => FromEntity(stories[i]))) == stories
  {
    var items := seq(|stories|, i requires 0 <= i < |stories| => FromEntity(stories[i]));
    var out := MapStoryResponseToDataEntity(items);
    assert |out| == |stories|;
    forall i | 0 <= i < |stories| ensures out[i] == stories[i] {
      assert items[i] == FromEntity(stories[i]);
    }
  }
}
