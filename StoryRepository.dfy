/** `StoryRepository`: the account, location-feed and upload calls, each a
    result flow, and the configuration of the paged feed. */
module StoryRepository {
  import opened Common
  import opened Api
  import opened ResultFlow

  /** The page size of the paged story feed. */
  const PAGE_SIZE: int := 5

  /** The part of `PagingConfig` the feed sets. */
  datatype PagingConfig = PagingConfig(pageSize: int)

  /** The pager configuration `getStories` builds. */
  function GetStoriesConfig(): (config: PagingConfig)
    ensures config.pageSize == 5
  {
    PagingConfig(PAGE_SIZE)
  }

  /** The outcome of a call that first reads the session token: a failed
      read throws an exception that is not an `HttpException`. */
  function AuthorizedCall<P>(token: Attempt<string>, request: string -> Request,
                             api: Request -> CallOutcome<P>): (outcome: CallOutcome<P>)
    ensures token.Failed? ==> outcome == OtherFailure
    ensures token.Done? ==> outcome == api(request(token.value))
  {
    match token
    case Done(t) => api(request(t))
    case Failed => OtherFailure
  }

  /** The request `postStory` sends. `lat` and `lon` are the coordinates as
      `Double.toString` renders them, when present; they are stringified
      unconditionally, so an absent coordinate is sent as the text "null". */
  function PostStoryParts(photoFileName: string, description: string,
                          lat: Option<string>, lon: Option<string>, token: string): (r: Request)
    ensures r.PostStoryRequest?
    ensures r.photoFileName == photoFileName && r.description == description && r.token == token
    ensures lat.None? ==> r.lat == "null"
    ensures lon.None? ==> r.lon == "null"
    ensures lat.Some? ==> r.lat == lat.value
    ensures lon.Some? ==> r.lon == lon.value
  {
    PostStoryRequest(photoFileName, description, NullableText(lat), NullableText(lon), token)
  }

  /** `register`: emits `Loading`, then the classified response. */
  method Register<P>(collector: FlowCollector<Envelope<P>>, name: string, email: string, password: string,
                     api: Request -> CallOutcome<P>) returns (threw: bool)
    modifies collector
    ensures collector.emitted == old(collector.emitted) + Run(api(RegisterRequest(name, email, password))).emitted
    ensures threw == Run(api(RegisterRequest(name, email, password))).threw
  {
    threw := Collect(collector, api(RegisterRequest(name, email, password)));
  }

  /** `login`: emits `Loading`, then the classified response. */
  method Login<P>(collector: FlowCollector<Envelope<P>>, email: string, password: string,
                  api: Request -> CallOutcome<P>) returns (threw: bool)
    modifies collector
    ensures collector.emitted == old(collector.emitted) + Run(api(LoginRequest(email, password))).emitted
    ensures threw == Run(api(LoginRequest(email, password))).threw
  {
    threw := Collect(collector, api(LoginRequest(email, password)));
  }

  /** `getStoriesWithLocation`: emits `Loading`, reads the session, then the
      classified response. */
  method GetStoriesWithLocation<P>(collector: FlowCollector<Envelope<P>>, token: Attempt<string>,
                                   api: Request -> CallOutcome<P>) returns (threw: bool)
    modifies collector
    ensures collector.emitted == old(collector.emitted)
      + Run(AuthorizedCall(token, t => StoriesWithLocationRequest(t), api)).emitted
    ensures threw == Run(AuthorizedCall(token, t => StoriesWithLocationRequest(t), api)).threw
    ensures token.Failed? ==> collector.emitted == old(collector.emitted) + [Loading] && threw
  {
    threw := Collect(collector, AuthorizedCall(token, t => StoriesWithLocationRequest(t), api));
  }

  /** `postStory`: emits `Loading`, builds the parts, reads the session, then
      the classified response. */
  method PostStory<P>(collector: FlowCollector<Envelope<P>>, photoFileName: string, description: string,
                      lat: Option<string>, lon: Option<string>, token: Attempt<string>,
                      api: Request -> CallOutcome<P>) returns (threw: bool)
    modifies collector
    ensures collector.emitted == old(collector.emitted)
      + Run(AuthorizedCall(token, t => PostStoryParts(photoFileName, description, lat, lon, t), api)).emitted
    ensures threw == Run(AuthorizedCall(token, t => PostStoryParts(photoFileName, description, lat, lon, t), api)).threw
    ensures token.Failed? ==> collector.emitted == old(collector.emitted) + [Loading] && threw
  {
    threw := Collect(collector,
      AuthorizedCall(token, t => PostStoryParts(photoFileName, description, lat, lon, t), api));
  }
}
