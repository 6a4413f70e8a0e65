/** The client: fetch a body over HTTP, decode it, and for items resolve it to
    the requested kind. The transport and the JSON decoder are oracles held by
    the client value; the remote state they answer from is fixed for a call. */
module Clients {
  import opened Wrappers
  import opened Ints
  import opened Errors
  import opened Entities
  import opened Items
  import Endpoints
  import Collect

  /** A response whose body has not been read yet. */
  datatype Response = Response(bytes: seq<bv8>)

  /** The HTTP agent: `get(url).call()`, then `into_string()` on the response. */
  datatype Agent = Agent(
    call: string -> Result<Response, UreqError>,
    readBody: Response -> Result<string, IoError>)

  /** `miniserde::json::from_str` at each target type the client decodes. */
  datatype Json = Json(
    item: string -> Result<Item, DecodeError>,
    user: string -> Result<User, DecodeError>,
    id: string -> Result<U64, DecodeError>,
    ids: string -> Result<seq<U64>, DecodeError>,
    update: string -> Result<Update, DecodeError>)

  datatype Client = Client(agent: Agent, json: Json)

  /** `get(url).call()?.into_string()?`: a transport error becomes `UReq`, a body-read error `Io`. */
  function GetBody(c: Client, url: string): (r: Result<string, HError>)
    ensures r.Ok? <==> c.agent.call(url).Ok? && c.agent.readBody(c.agent.call(url).value).Ok?
    ensures r.Ok? ==> r.value == c.agent.readBody(c.agent.call(url).value).value
    ensures c.agent.call(url).Err? ==> r.error == UReq(c.agent.call(url).error)
    ensures c.agent.call(url).Ok? && r.Err? ==> r.error == Io(c.agent.readBody(c.agent.call(url).value).error)
  {
    var response :- c.agent.call(url).MapErr(FromUreq);
    var body :- c.agent.readBody(response).MapErr(FromIo);
    Ok(body)
  }

  /** `from_str(&body)?`: a decode error becomes `Miniserde`; a decoded value is kept as it is. */
  function Decode<T>(body: string, parse: string -> Result<T, DecodeError>): (r: Result<T, HError>)
    ensures r.Ok? <==> parse(body).Ok?
    ensures r.Ok? ==> r.value == parse(body).value
    ensures r.Err? ==> r.error == Miniserde(parse(body).error)
  {
    var v :- parse(body).MapErr(FromMiniserde);
    Ok(v)
  }

  /** `r` is what fetching `url` and decoding its body with `parse` gives: the
      first error of the three stages unchanged, or the decoded value unchanged. */
  ghost predicate Relays<T>(c: Client, url: string, parse: string -> Result<T, DecodeError>, r: Result<T, HError>) {
    match c.agent.call(url)
    case Err(e) => r == Err(UReq(e))
    case Ok(response) =>
      match c.agent.readBody(response)
      case Err(e) => r == Err(Io(e))
      case Ok(body) =>
        match parse(body)
        case Err(e) => r == Err(Miniserde(e))
        case Ok(v) => r == Ok(v)
  }

  /** `get_item`: the raw item at the item URL, with no kind check. Its errors are never `ConversionFailed`. */
  function GetItem(c: Client, id: U64): (r: Result<Item, HError>)
    ensures Relays(c, Endpoints.Item(id), c.json.item, r)
    ensures r.Err? ==> r.error != ConversionFailed
  {
    var body :- GetBody(c, Endpoints.Item(id));
    Decode(body, c.json.item)
  }

  /** `r` is `get_item(id)` followed by `convert`: the first error of either stage. */
  ghost predicate Resolves<T>(c: Client, id: U64, convert: Item -> Result<T, HError>, r: Result<T, HError>) {
    match GetItem(c, id)
    case Err(e) => r == Err(e)
    case Ok(item) => r == convert(item)
  }

  function GetAsk(c: Client, id: U64): (r: Result<Ask, HError>)
    ensures Resolves(c, id, AskFromItem, r)
  {
    var item :- GetItem(c, id);
    AskFromItem(item)
  }

  function GetComment(c: Client, id: U64): (r: Result<Comment, HError>)
    ensures Resolves(c, id, CommentFromItem, r)
  {
    var item :- GetItem(c, id);
    CommentFromItem(item)
  }

  function GetJob(c: Client, id: U64): (r: Result<Job, HError>)
    ensures Resolves(c, id, JobFromItem, r)
  {
    var item :- GetItem(c, id);
    JobFromItem(item)
  }

  function GetPoll(c: Client, id: U64): (r: Result<Poll, HError>)
    ensures Resolves(c, id, PollFromItem, r)
  {
    var item :- GetItem(c, id);
    PollFromItem(item)
  }

  function GetPollOption(c: Client, id: U64): (r: Result<PollOption, HError>)
    ensures Resolves(c, id, PollOptionFromItem, r)
  {
    var item :- GetItem(c, id);
    PollOptionFromItem(item)
  }

  function GetStory(c: Client, id: U64): (r: Result<Story, HError>)
    ensures Resolves(c, id, StoryFromItem, r)
  {
    var item :- GetItem(c, id);
    StoryFromItem(item)
  }

  /** A `ConversionFailed` from a typed fetch means the item was fetched and decoded,
      and did not resolve to the requested kind. */
  lemma ConversionFailedMeansFetched(c: Client, id: U64)
    ensures GetAsk(c, id) == Err(ConversionFailed) <==> GetItem(c, id).Ok? && !Admits(GetItem(c, id).value, "story", AskFields)
    ensures GetComment(c, id) == Err(ConversionFailed) <==> GetItem(c, id).Ok? && !Admits(GetItem(c, id).value, "comment", CommentFields)
    ensures GetJob(c, id) == Err(ConversionFailed) <==> GetItem(c, id).Ok? && !Admits(GetItem(c, id).value, "job", JobFields)
    ensures GetPoll(c, id) == Err(ConversionFailed) <==> GetItem(c, id).Ok? && !Admits(GetItem(c, id).value, "poll", PollFields)
    ensures GetPollOption(c, id) == Err(ConversionFailed) <==> GetItem(c, id).Ok? && !Admits(GetItem(c, id).value, "pollopt", PollOptionFields)
    ensures GetStory(c, id) == Err(ConversionFailed) <==> GetItem(c, id).Ok? && !Admits(GetItem(c, id).value, "story", StoryFields)
  {
  }

  /** `get_user`: the user is decoded straight from the body; there is no kind check. */
  function GetUser(c: Client, name: string): (r: Result<User, HError>)
    ensures Relays(c, Endpoints.User(name), c.json.user, r)
  {
    var body :- GetBody(c, Endpoints.User(name));
    Decode(body, c.json.user)
  }

  /** Fetch and decode an id list. */
  function GetIds(c: Client, url: string): (r: Result<seq<U64>, HError>)
    ensures Relays(c, url, c.json.ids, r)
  {
    var body :- GetBody(c, url);
    Decode(body, c.json.ids)
  }

  /** The typed fetches as functions of the id alone, for aggregation. */
  function AskFetch(c: Client): U64 -> Result<Ask, HError> { (id: U64) => GetAsk(c, id) }
  function CommentFetch(c: Client): U64 -> Result<Comment, HError> { (id: U64) => GetComment(c, id) }
  function JobFetch(c: Client): U64 -> Result<Job, HError> { (id: U64) => GetJob(c, id) }
  function PollFetch(c: Client): U64 -> Result<Poll, HError> { (id: U64) => GetPoll(c, id) }
  function PollOptionFetch(c: Client): U64 -> Result<PollOption, HError> { (id: U64) => GetPollOption(c, id) }
  function StoryFetch(c: Client): U64 -> Result<Story, HError> { (id: U64) => GetStory(c, id) }

  /** `get_latest_asks`: every id of the askstories list as an Ask, or the first error. */
  function GetLatestAsks(c: Client): (r: Result<seq<Ask>, HError>)
    ensures GetIds(c, Endpoints.AskStories()).Err? ==> r == Err(GetIds(c, Endpoints.AskStories()).error)
    ensures GetIds(c, Endpoints.AskStories()).Ok? ==> Collect.Strict(GetIds(c, Endpoints.AskStories()).value, AskFetch(c), r)
  {
    var ids :- GetIds(c, Endpoints.AskStories());
    Collect.All(ids, AskFetch(c))
  }

  /** `get_latest_stories`: every id of the showstories list as a Story, or the first error. */
  function GetLatestStories(c: Client): (r: Result<seq<Story>, HError>)
    ensures GetIds(c, Endpoints.ShowStories()).Err? ==> r == Err(GetIds(c, Endpoints.ShowStories()).error)
    ensures GetIds(c, Endpoints.ShowStories()).Ok? ==> Collect.Strict(GetIds(c, Endpoints.ShowStories()).value, StoryFetch(c), r)
  {
    var ids :- GetIds(c, Endpoints.ShowStories());
    Collect.All(ids, StoryFetch(c))
  }

  /** `get_latest_jobs`: as written it reads the askstories list, the same list as `get_latest_asks`. */
  function GetLatestJobs(c: Client): (r: Result<seq<Job>, HError>)
    ensures GetIds(c, Endpoints.AskStories()).Err? ==> r == Err(GetIds(c, Endpoints.AskStories()).error)
    ensures GetIds(c, Endpoints.AskStories()).Ok? ==> Collect.Strict(GetIds(c, Endpoints.AskStories()).value, JobFetch(c), r)
  {
    var ids :- GetIds(c, Endpoints.AskStories());
    Collect.All(ids, JobFetch(c))
  }

  /** Both batches read the askstories list and no item is both a "story" and a "job".
      So when both calls see the same list and the same items, as they do on one client
      value here, the two batches both succeed only when that list is empty. */
  lemma LatestJobsAndAsksExclude(c: Client)
    ensures GetLatestAsks(c).Ok? && GetLatestJobs(c).Ok? ==> GetLatestAsks(c).value == [] && GetLatestJobs(c).value == []
  {
    if GetLatestAsks(c).Ok? && GetLatestJobs(c).Ok? {
      var ids := GetIds(c, Endpoints.AskStories()).value;
      if ids != [] {
        assert false;
      }
    }
  }

  /** `get_latest`: the decoded max item id, unchanged. */
  function GetLatest(c: Client): (r: Result<U64, HError>)
    ensures Relays(c, Endpoints.MaxItem(), c.json.id, r)
  {
    var body :- GetBody(c, Endpoints.MaxItem());
    Decode(body, c.json.id)
  }

  /** `get_top`: the decoded id list, with no filtering or reordering. */
  function GetTop(c: Client): (r: Result<seq<U64>, HError>)
    ensures Relays(c, Endpoints.TopStories(), c.json.ids, r)
  {
    GetIds(c, Endpoints.TopStories())
  }

  /** `get_new`: the decoded id list, with no filtering or reordering. */
  function GetNew(c: Client): (r: Result<seq<U64>, HError>)
    ensures Relays(c, Endpoints.NewStories(), c.json.ids, r)
  {
    GetIds(c, Endpoints.NewStories())
  }

  /** `get_best`: the decoded id list, with no filtering or reordering. */
  function GetBest(c: Client): (r: Result<seq<U64>, HError>)
    ensures Relays(c, Endpoints.BestStories(), c.json.ids, r)
  {
    GetIds(c, Endpoints.BestStories())
  }

  /** `get_user_updates`: exactly the `profiles` of the decoded envelope. */
  function GetUserUpdates(c: Client): (r: Result<seq<string>, HError>)
    ensures GetBody(c, Endpoints.Updates()).Err? ==> r == Err(GetBody(c, Endpoints.Updates()).error)
    ensures GetBody(c, Endpoints.Updates()).Ok? ==>
              var update := Decode(GetBody(c, Endpoints.Updates()).value, c.json.update);
              (update.Ok? ==> r == Ok(update.value.profiles)) && (update.Err? ==> r == Err(update.error))
  {
    var body :- GetBody(c, Endpoints.Updates());
    var update :- Decode(body, c.json.update);
    Ok(update.profiles)
  }

  /** `get_updates`: exactly the `items` of the decoded envelope. */
  function GetUpdates(c: Client): (r: Result<seq<U64>, HError>)
    ensures GetBody(c, Endpoints.Updates()).Err? ==> r == Err(GetBody(c, Endpoints.Updates()).error)
    ensures GetBody(c, Endpoints.Updates()).Ok? ==>
              var update := Decode(GetBody(c, Endpoints.Updates()).value, c.json.update);
              (update.Ok? ==> r == Ok(update.value.items)) && (update.Err? ==> r == Err(update.error))
  {
    var body :- GetBody(c, Endpoints.Updates());
    var update :- Decode(body, c.json.update);
    Ok(update.items)
  }
}
