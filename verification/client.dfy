/**
 * lib/Client.js: the legacy client. Its synchronous guards throw a
 * `TypeError` before any request is made; otherwise a call sends one request
 * and settles on the transport's reply, which is passed in as `fetch`.
 */
module Client {
  import opened Wrappers
  import opened Json
  import opened Collections
  import HttpErrors
  import UserStructure
  import BotStructure

  const BaseURL := "https://api.botlist.space/v1"

  const OptionsNotObject := "Options must be an object"
  const OptionsIDNotString := "ID in options object must be a string"
  const OptionsTokenNotString := "Bot token in options object must be a string"
  const IDNotString := "ID must be a string"
  const UserIDNotString := "User ID must be a string"
  const CountNotNumberNorShards := "Server count is not a number nor shards array"

  datatype TypeError = TypeError(message: string)

  datatype Options = Options(id: string, botToken: string)

  datatype Client = Client(baseURL: string, options: Options)

  /** The JSON body of a server-count post. */
  datatype Payload = Shards(shards: seq<Json>) | ServerCount(serverCount: int)

  datatype Request = Request(verb: string, url: string, authorization: Option<string>, body: Option<Payload>)

  /** What the transport produced: the parsed response body, or what it threw. */
  datatype Reply<T> = Ok(value: T) | Err(error: HttpErrors.TransportError)

  /** A call threw synchronously, or its promise rejected or resolved. */
  datatype Call<T, E> = Thrown(error: TypeError) | Rejected(reason: E) | Resolved(value: T)

  /** The request a call sent, if any, and how it ended. */
  datatype Exchange<T, E> = Exchange(sent: Option<Request>, call: Call<T, E>)

  /** An upvote record as the site sends it. */
  datatype RawUpvote = RawUpvote(id: string, timestamp: int, user: UserStructure.RawUser)

  /** `new Upvote(raw)`: the record's own id is not kept. */
  datatype Upvote = Upvote(timestamp: int, user: UserStructure.User)

  function UpvoteFromRaw(raw: RawUpvote): Upvote {
    Upvote(raw.timestamp, UserStructure.FromRaw(raw.user))
  }

  function UpvoteID(raw: RawUpvote): string {
    raw.id
  }

  function BotID(raw: BotStructure.RawBot): string {
    raw.id
  }

  /** `isObject`: an object that is not an array (and not `null` or another primitive). */
  predicate IsObject(v: Json) {
    v.JObject?
  }

  /** `new Client(options)`: three guards, in this order. */
  function New(options: Json): (r: Result<Client, TypeError>)
    ensures r.Success? <==> IsObject(options) && IsString(Member(options, "id")) && IsString(Member(options, "botToken"))
    ensures !IsObject(options) ==> r == Failure(TypeError(OptionsNotObject))
    ensures IsObject(options) && !IsString(Member(options, "id")) ==> r == Failure(TypeError(OptionsIDNotString))
    ensures IsObject(options) && IsString(Member(options, "id")) && !IsString(Member(options, "botToken")) ==>
              r == Failure(TypeError(OptionsTokenNotString))
    ensures r.Success? ==> r.value.baseURL == BaseURL
    ensures r.Success? ==> JString(r.value.options.id) == options.fields["id"]
    ensures r.Success? ==> JString(r.value.options.botToken) == options.fields["botToken"]
  {
    if !IsObject(options) then Failure(TypeError(OptionsNotObject))
    else
      var id := Member(options, "id");
      var token := Member(options, "botToken");
      if !IsString(id) then Failure(TypeError(OptionsIDNotString))
      else if !IsString(token) then Failure(TypeError(OptionsTokenNotString))
      else Success(Client(BaseURL, Options(id.value.s, token.value.s)))
  }

  function Fetch(url: string, authorization: Option<string>): Request {
    Request("get", url, authorization, None)
  }

  /** The `.then(shape).catch(e => reject(new HTTPError(e)))` tail shared by the calls. */
  function Settle<R, T>(reply: Reply<R>, shape: R -> T): (c: Call<T, HttpErrors.HTTPError>)
    ensures reply.Ok? <==> c.Resolved?
    ensures reply.Ok? ==> c.value == shape(reply.value)
    ensures reply.Err? ==> c == Rejected(HttpErrors.FromTransport(reply.error))
  {
    match reply
    case Ok(v) => Resolved(shape(v))
    case Err(e) => Rejected(HttpErrors.FromTransport(e))
  }

  /**
   * The collection-building calls: a collection keyed by each record's id, one
   * entry per distinct id in response order, the last record winning.
   */
  function Gathered<T, V>(reply: Reply<seq<T>>, keyOf: T -> string, valueOf: T -> V): (c: Call<Collection<string, V>, HttpErrors.HTTPError>)
    ensures reply.Ok? <==> c.Resolved?
    ensures reply.Err? ==> c == Rejected(HttpErrors.FromTransport(reply.error))
    ensures c.Resolved? ==> Keys(c.value) == Distinct(KeysOf(reply.value, keyOf))
    ensures c.Resolved? ==> forall k :: Get(c.value, k) == LastValue(reply.value, keyOf, valueOf, k)
  {
    match reply
    case Ok(items) =>
      CollectKeys(items, keyOf, valueOf);
      assert forall k :: Get(Collect(items, keyOf, valueOf), k) == LastValue(items, keyOf, valueOf, k) by {
        forall k
          ensures Get(Collect(items, keyOf, valueOf), k) == LastValue(items, keyOf, valueOf, k)
        {
          CollectGet(items, keyOf, valueOf, k);
        }
      }
      Resolved(Collect(items, keyOf, valueOf))
    case Err(e) => Rejected(HttpErrors.FromTransport(e))
  }

  /** `getStatistics()`: the only call that rejects with the raw transport error. */
  function GetStatistics(c: Client, fetch: Request -> Reply<Json>): (x: Exchange<Json, HttpErrors.TransportError>)
    ensures x.sent == Some(Fetch(c.baseURL + "/statistics", None))
    ensures fetch(x.sent.value).Err? ==> x.call == Rejected(fetch(x.sent.value).error)
    ensures fetch(x.sent.value).Ok? ==> x.call == Resolved(fetch(x.sent.value).value)
  {
    var req := Fetch(c.baseURL + "/statistics", None);
    match fetch(req)
    case Ok(v) => Exchange(Some(req), Resolved(v))
    case Err(e) => Exchange(Some(req), Rejected(e))
  }

  /** `getAllBots()`. */
  function GetAllBots(c: Client, fetch: Request -> Reply<seq<BotStructure.RawBot>>):
    (x: Exchange<Collection<string, BotStructure.Bot>, HttpErrors.HTTPError>)
    ensures x.sent == Some(Fetch(c.baseURL + "/bots", None))
    ensures x.call == Gathered(fetch(x.sent.value), BotID, BotStructure.FromRaw)
  {
    var req := Fetch(c.baseURL + "/bots", None);
    Exchange(Some(req), Gathered(fetch(req), BotID, BotStructure.FromRaw))
  }

  /** `getBot(id)`: a non-string id throws before anything is sent. */
  function GetBot(c: Client, id: Json, fetch: Request -> Reply<BotStructure.RawBot>):
    (x: Exchange<BotStructure.Bot, HttpErrors.HTTPError>)
    ensures !id.JString? <==> x.call.Thrown?
    ensures !id.JString? ==> x == Exchange(None, Thrown(TypeError(IDNotString)))
    ensures id.JString? ==> x.sent == Some(Fetch(c.baseURL + "/bots/" + id.s, None))
    ensures id.JString? ==> x.call == Settle(fetch(x.sent.value), BotStructure.FromRaw)
  {
    if !id.JString? then Exchange(None, Thrown(TypeError(IDNotString)))
    else
      var req := Fetch(c.baseURL + "/bots/" + id.s, None);
      Exchange(Some(req), Settle(fetch(req), BotStructure.FromRaw))
  }

  /** The request `getUpvotes` sends: the configured bot's upvotes, authorised by its token. */
  function UpvotesRequest(c: Client): Request {
    Fetch(c.baseURL + "/bots/" + c.options.id + "/upvotes", Some(c.options.botToken))
  }

  /** `getUpvotes()`: the collection is keyed by each upvote record's id. */
  function GetUpvotes(c: Client, fetch: Request -> Reply<seq<RawUpvote>>):
    (x: Exchange<Collection<string, Upvote>, HttpErrors.HTTPError>)
    ensures x.sent == Some(Fetch(c.baseURL + "/bots/" + c.options.id + "/upvotes", Some(c.options.botToken)))
    ensures x.call == Gathered(fetch(x.sent.value), UpvoteID, UpvoteFromRaw)
  {
    var req := UpvotesRequest(c);
    Exchange(Some(req), Gathered(fetch(req), UpvoteID, UpvoteFromRaw))
  }

  /**
   * `hasUpvoted(userID)`: whether `userID` is a key of the upvotes
   * collection, that is, the id of some upvote record in the reply.
   */
  function HasUpvoted(c: Client, userID: Json, fetch: Request -> Reply<seq<RawUpvote>>):
    (x: Exchange<bool, HttpErrors.HTTPError>)
    ensures !userID.JString? ==> x == Exchange(None, Thrown(TypeError(UserIDNotString)))
    ensures userID.JString? ==> x.sent == Some(UpvotesRequest(c))
    ensures userID.JString? && fetch(UpvotesRequest(c)).Err? ==>
              x.call == Rejected(HttpErrors.FromTransport(fetch(UpvotesRequest(c)).error))
    ensures userID.JString? && fetch(UpvotesRequest(c)).Ok? ==>
              x.call.Resolved? &&
              (x.call.value <==> exists i | 0 <= i < |fetch(UpvotesRequest(c)).value| ::
                                   fetch(UpvotesRequest(c)).value[i].id == userID.s)
  {
    if !userID.JString? then Exchange(None, Thrown(TypeError(UserIDNotString)))
    else
      var upvotes := GetUpvotes(c, fetch);
      match upvotes.call
      case Resolved(collection) =>
        var items := fetch(UpvotesRequest(c)).value;
        CollectHas(items, UpvoteID, UpvoteFromRaw, userID.s);
        Exchange(upvotes.sent, Resolved(Has(collection, userID.s)))
      case Rejected(error) => Exchange(upvotes.sent, Rejected(error))
      case Thrown(error) => Exchange(upvotes.sent, Thrown(error))
  }

  /** `getSelfBot()`: `getBot` on the configured id, which is a string, so it never throws. */
  function GetSelfBot(c: Client, fetch: Request -> Reply<BotStructure.RawBot>):
    (x: Exchange<BotStructure.Bot, HttpErrors.HTTPError>)
    ensures !x.call.Thrown?
    ensures x.sent == Some(Fetch(c.baseURL + "/bots/" + c.options.id, None))
    ensures x.call == Settle(fetch(x.sent.value), BotStructure.FromRaw)
    ensures x == GetBot(c, JString(c.options.id), fetch)
  {
    GetBot(c, JString(c.options.id), fetch)
  }

  /** The JSON body `postServerCount` sends for a count that passed its guard. */
  function CountPayload(count: Json): (p: Payload)
    requires count.JNumber? || count.JArray?
    ensures count.JArray? <==> p.Shards?
    ensures count.JArray? ==> p.shards == count.items
    ensures count.JNumber? ==> p.serverCount == count.n
  {
    if count.JArray? then Shards(count.items) else ServerCount(count.n)
  }

  /** `postServerCount(count)`: a number or an array of shard counts, posted with the bot token. */
  function PostServerCount(c: Client, count: Json, fetch: Request -> Reply<Json>): (x: Exchange<(), HttpErrors.HTTPError>)
    ensures x.call.Thrown? <==> !count.JNumber? && !count.JArray?
    ensures x.call.Thrown? ==> x == Exchange(None, Thrown(TypeError(CountNotNumberNorShards)))
    ensures !x.call.Thrown? ==> x.sent == Some(Request("post", c.baseURL + "/bots/" + c.options.id,
                                                       Some(c.options.botToken), Some(CountPayload(count))))
    ensures !x.call.Thrown? && fetch(x.sent.value).Ok? ==> x.call == Resolved(())
    ensures !x.call.Thrown? && fetch(x.sent.value).Err? ==>
              x.call == Rejected(HttpErrors.FromTransport(fetch(x.sent.value).error))
  {
    if !count.JNumber? && !count.JArray? then Exchange(None, Thrown(TypeError(CountNotNumberNorShards)))
    else
      var req := Request("post", c.baseURL + "/bots/" + c.options.id, Some(c.options.botToken), Some(CountPayload(count)));
      Exchange(Some(req), Settle(fetch(req), (_: Json) => ()))
  }

  /** `getUser(id)`. */
  function GetUser(c: Client, id: Json, fetch: Request -> Reply<UserStructure.RawUser>):
    (x: Exchange<UserStructure.User, HttpErrors.HTTPError>)
    ensures !id.JString? ==> x == Exchange(None, Thrown(TypeError(UserIDNotString)))
    ensures id.JString? ==> x.sent == Some(Fetch(c.baseURL + "/users/" + id.s, None))
    ensures id.JString? ==> x.call == Settle(fetch(x.sent.value), UserStructure.FromRaw)
  {
    if !id.JString? then Exchange(None, Thrown(TypeError(UserIDNotString)))
    else
      var req := Fetch(c.baseURL + "/users/" + id.s, None);
      Exchange(Some(req), Settle(fetch(req), UserStructure.FromRaw))
  }

  /** `getUserBots(id)`. */
  function GetUserBots(c: Client, id: Json, fetch: Request -> Reply<seq<BotStructure.RawBot>>):
    (x: Exchange<Collection<string, BotStructure.Bot>, HttpErrors.HTTPError>)
    ensures !id.JString? ==> x == Exchange(None, Thrown(TypeError(UserIDNotString)))
    ensures id.JString? ==> x.sent == Some(Fetch(c.baseURL + "/users/" + id.s + "/bots", None))
    ensures id.JString? ==> x.call == Gathered(fetch(x.sent.value), BotID, BotStructure.FromRaw)
  {
    if !id.JString? then Exchange(None, Thrown(TypeError(UserIDNotString)))
    else
      var req := Fetch(c.baseURL + "/users/" + id.s + "/bots", None);
      Exchange(Some(req), Gathered(fetch(req), BotID, BotStructure.FromRaw))
  }

  /** With no id repeated, the listing calls return every record, in response order. */
  lemma GatheredInOrder<T, V>(items: seq<T>, keyOf: T -> string, valueOf: T -> V)
    requires forall i, j | 0 <= i < j < |items| :: keyOf(items[i]) != keyOf(items[j])
    ensures Gathered(Ok(items), keyOf, valueOf).Resolved?
    ensures ToArray(Gathered(Ok(items), keyOf, valueOf).value) ==
            seq(|items|, i requires 0 <= i < |items| => valueOf(items[i]))
  {
    CollectUnique(items, keyOf, valueOf);
  }
}
