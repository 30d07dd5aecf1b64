# botlist.space API client, modelled in Dafny

This project models the core of the botlist.space REST client library.

The newer `src/methods` layer has one function per endpoint. Each one checks
its arguments with a series of asserts and then builds a request: a path, an
ordered `URLSearchParams` query and, for some calls, an `Authorization`
header. An update call instead builds a JSON POST. Here each endpoint is a
pure function that returns `Result<Get, Violation>` or
`Result<Post<Form>, Violation>`:

- a `Violation` names the first assert that fails, in source order (the
  filter assert of the two listings is the corrected one, see Findings);
- a success holds the exact request the source would send.

Query strings are an ordered list of name/value pairs. `Query.Set` follows
the `set` operation of section 6.2 of the WHATWG URL Standard. The two
Discord regular expressions of `updateBot` are written out as predicates on
strings (`DiscordPatterns`).

The older `lib/` layer is also modelled:

- the `Collection` map, as a sequence of unique keys in insertion order;
- the `Bot`, `Server` and `User` structures built from wire records;
- `HTTPError`;
- the `Client`, whose argument guards throw `TypeError`.

The client's transport is a function parameter `fetch: Request -> Reply<T>`.
Each call returns the request it would send together with how its promise
settles.

Modules follow the repository layout:

- `Requests`, `Query` and `Text` hold what the endpoint files share: paging
  checks, parameter building, decimal rendering, and comma joins and splits;
- `Bots`, `Servers`, `Users` and `General` model `src/methods/*.ts`;
- `Collections`, `UserStructure`, `BotStructure`, `ServerStructure`,
  `HttpErrors` and `Client` model `lib/`.

Every builder has a partner:

- each `params.set` chain is proved equal to a literal reference list (for
  example `Requests.SearchPairs`);
- the decode lemmas show that the server reads back what the caller passed:
  the `get` of each name, the parse of each rendered integer, and the split
  of each comma-joined list;
- the `Collection` operations are related to a reference `Select` and to
  `Distinct`/`LastValue` over the input;
- the structure constructors are inverted by `ToRaw`.

## Model

| member | source | states |
|---|---|---|
| Requests.Listing | src/methods/users.ts:27-42 | a paged call succeeds iff page >= 1, 1 <= count <= 50 and sortDirection is `ascending` or `descending`; a page below one is the error reported; the request carries page, count, sortBy, sortDirection in that order |
| Requests.PagingParams | src/methods/bots.ts:165-169 | the four `set` calls on an empty query give exactly the reference list page, count, sortBy, sortDirection |
| Requests.PagingOnto | src/methods/general.ts:61-65 | the four paging `set` calls, made after calls that used other names, append the four pairs in order and change nothing before them |
| Requests.SearchParams | src/methods/bots.ts:36-43 | the listing query is the paging pairs, then `query`, `filters` and `tags` only when non-empty, the lists comma-joined |
| Requests.SearchExtras | src/methods/bots.ts:41-43 | the three guarded `set` calls append a pair exactly when their guard holds |
| Requests.WindowParams | src/methods/bots.ts:191-193 | the analytics query is exactly `from` then `to`, rendered in decimal |
| Requests.PagingPairsDecode | src/methods/bots.ts:36-40 | reading the paging query back gives the page and count passed (parsed from their decimal text) and the sortBy and sortDirection passed, under names in the order page, count, sortBy, sortDirection |
| Requests.SearchPairsDecode | src/methods/bots.ts:41-43 | `query`, `filters` and `tags` are present exactly when the caller's value is non-empty, holding the value or its comma join |
| Requests.SearchPairsPaging | src/methods/servers.ts:35-41 | the optional pairs that follow do not hide the paging values: page and count parse back, sortBy and sortDirection read back |
| Requests.WindowPairsDecode | src/methods/bots.ts:191-193 | the analytics query names are `from`, `to` in order and both parse back to the integers passed |
| Requests.OptionalsDecode | src/methods/bots.ts:41-43 | three guarded pairs with distinct names after a list holding none of them: each name reads back its value when its guard held and is absent otherwise |
| Requests.CheckFilters | src/methods/bots.ts:33 | the filter assert as intended: it passes iff every filter is on the allow-list; on failure it names a requested filter that is off the list |
| Requests.EmptyFilterSlipsThrough | src/methods/bots.ts:33 | the filter assert as written lets an off-list filter list through exactly when its first off-list entry is the empty string; on every other list it agrees with the intended check |
| Requests.CheckFiltersAgree | src/methods/servers.ts:31 | the assert as written and as intended agree on every filter list without an empty entry |
| Requests.FirstDisallowed | src/methods/bots.ts:33 | `filters.find(f => !allowed.includes(f))` finds nothing iff every filter is allowed; what it finds is the FIRST requested filter off the list, every earlier one being allowed |
| Query.Set | src/methods/bots.ts:37-43 | after `set`, `get` of that name returns the new value; for a name not yet present, `set` appends one pair |
| Query.SetKeepsOthers | src/methods/bots.ts:37-43 | `set` leaves what `get` returns for every other name unchanged |
| Query.SetWhen | src/methods/bots.ts:41-43 | a guarded `set` of a fresh name appends its pair when the guard holds and changes nothing otherwise |
| Query.SetTwo | src/methods/bots.ts:37-38 | two `set` calls with distinct fresh names append both pairs in call order |
| Query.LookupConcat | src/methods/bots.ts:41-43 | `get` on a list followed by more pairs finds the first part's value when it has one, and otherwise looks in the rest |
| Bots.GetBots | src/methods/bots.ts:20-49 | with the corrected filter assert: accepted iff the paging is valid and every filter is `approved` or `safeAvatar`; a page below one is reported first, and with valid paging the first off-list filter is reported; the GET goes to `/bots` without Authorization and carries the search query |
| Bots.GetBotsAgreesWithSource | src/methods/bots.ts:21-33 | on every filter list without an empty entry the listing accepts exactly what the source's `find`-based assert accepts |
| Bots.EmptyFilterListRefused | src/methods/bots.ts:33 | `['']` passes the source's assert but the listing refuses it, naming the empty filter |
| Bots.DefaultListingAsksForApproved | src/methods/bots.ts:20 | with every argument defaulted the call is accepted and asks for `filters=approved`, with no `query` or `tags` |
| Bots.FiltersParamDecodes | src/methods/bots.ts:33-42 | for an accepted call with filters, splitting the `filters` value at commas gives back the caller's filter list |
| Bots.GetBot | src/methods/bots.ts:51-59 | accepted iff the id is non-empty; GET `/bots/{id}` with no query |
| Bots.CheckBotForm | src/methods/bots.ts:69-140 | on a form whose extra keys never repeat a ruled key (as in any JavaScript object), the form passes iff short description, invite URL and prefix are non-empty when present, the invite URL matches the Discord authorize pattern, the prefix has at most 16 characters, support server is null or 1..32 characters matching the server-code pattern, vanity and website are null or non-empty, and server count is null or non-negative; a form that passes is unchanged |
| Bots.UpdateBot | src/methods/bots.ts:61-149 | accepted iff id and token are non-empty, the form (each key held once) has a key and the form rules hold; errors come in the order id, token, empty form; the POST goes to `/bots/{id}` with the token as Authorization, JSON content type and the form unchanged as body |
| Bots.GetBotReviews | src/methods/bots.ts:151-175 | accepted iff the id is non-empty and the paging is valid; the token is not checked and not sent |
| Bots.GetBotAnalytics | src/methods/bots.ts:177-200 | accepted iff id and token are non-empty and 0 <= from < to <= now; the query is from, to and the token is sent |
| Bots.DefaultWindowAccepted | src/methods/bots.ts:177 | the default window, the week before now, is accepted iff now is at least one week of milliseconds |
| Bots.GetBotUpvotes | src/methods/bots.ts:202-229 | accepted iff id and token are non-empty and the paging is valid; paging query, token as Authorization |
| Bots.GetBotUserUpvoteStatus | src/methods/bots.ts:231-244 | accepted iff bot id, user id and token are non-empty; GET `/bots/{bot}/upvotes/status/{user}` with the token |
| Bots.GetBotUpvoteLeaderboard | src/methods/bots.ts:246-273 | accepted iff id and token are non-empty and the paging is valid; paging query, token as Authorization |
| Bots.GetBotAuditLog | src/methods/bots.ts:275-302 | accepted iff id and token are non-empty and the paging is valid; paging query, token as Authorization |
| Bots.GetBotOwners | src/methods/bots.ts:304-328 | the paging is validated, but the GET to `/bots/{id}/owners` carries no query at all |
| Servers.GetServers | src/methods/servers.ts:18-47 | with the corrected filter assert: accepted iff the paging is valid and every filter is `safeAvatar`; with valid paging the first off-list filter is reported; the GET goes to `/servers` and carries the search query |
| Servers.GetServersAgreesWithSource | src/methods/servers.ts:19-31 | on every filter list without an empty entry the listing accepts exactly what the source's `find`-based assert accepts |
| Servers.EmptyFirstFilterRefused | src/methods/servers.ts:31 | `['', 'bogus']` passes the source's assert but the listing refuses it, naming the empty filter |
| Servers.DefaultListingUnfiltered | src/methods/servers.ts:16-40 | with every argument defaulted the call is accepted, sends no `filters` pair, and asks for page 1 of 16 |
| Servers.ApprovedFilterRefused | src/methods/servers.ts:16-31 | the bot-only filter `approved` is refused and named in the error |
| Servers.GetServer | src/methods/servers.ts:49-57 | accepted iff the id is non-empty; GET `/servers/{id}` |
| Servers.CheckServerForm | src/methods/servers.ts:67-108 | on a form whose extra keys never repeat a ruled key, the form passes iff short description and invite code are non-empty when present and vanity and website are null or non-empty; fields without a rule pass unchecked and the form is unchanged |
| Servers.UpdateServer | src/methods/servers.ts:59-117 | accepted iff id and token are non-empty, the form (each key held once) has a key and the form rules hold; errors in the order id, token, empty form; the form is posted unchanged with the token |
| Servers.GetServerReviews | src/methods/servers.ts:119-143 | accepted iff the id is non-empty and the paging is valid; no Authorization is sent although a token is taken |
| Servers.GetServerAnalytics | src/methods/servers.ts:145-168 | accepted iff id and token are non-empty and 0 <= from < to <= now; query from, to and the token |
| Servers.GetServerUpvotes | src/methods/servers.ts:170-197 | accepted iff id and token are non-empty and the paging is valid; paging query and token |
| Servers.GetServerUserUpvoteStatus | src/methods/servers.ts:199-212 | accepted iff server id, user id and token are non-empty; status path with the token |
| Servers.GetServerUpvoteLeaderboard | src/methods/servers.ts:214-241 | accepted iff id and token are non-empty and the paging is valid; paging query and token |
| Servers.GetServerAuditLog | src/methods/servers.ts:243-270 | accepted iff id and token are non-empty and the paging is valid; paging query and token |
| Servers.GetServerOwners | src/methods/servers.ts:272-296 | the paging is validated but the owners GET carries no query |
| Users.GetUser | src/methods/users.ts:12-20 | accepted iff the id is non-empty; GET `/users/{id}` |
| Users.CheckOptionalToken | src/methods/users.ts:26 | a token passes iff it is null or non-empty |
| Users.AuthorizationFor | src/methods/users.ts:47 | `token \|\| 'unauthorized'`: a non-empty token is sent as is, no token sends `unauthorized`, and the header is never empty |
| Users.GetUserBots | src/methods/users.ts:22-49 | accepted iff the id is non-empty, the token is null or non-empty and the paging is valid; an empty token is the error after the id; paging query only; Authorization is the token or `unauthorized` |
| Users.GetUserServers | src/methods/users.ts:51-78 | as for the user's bots, at `/users/{id}/servers` |
| General.GetStatistics | src/methods/general.ts:15-20 | no checks; GET `/statistics` with no query |
| General.GetLanguages | src/methods/general.ts:22-44 | accepted iff the paging is valid; GET `/languages` with the four paging pairs |
| General.TagParams | src/methods/general.ts:60-65 | the tag query is `type`, then the four paging pairs |
| General.GetTags | src/methods/general.ts:46-71 | accepted iff the type is `all`, `bot` or `server` and the paging is valid; a bad type is reported before the paging |
| General.TagPairsDecode | src/methods/general.ts:60-65 | the tag query reads back as the type, page, count, sortBy and sortDirection passed |
| DiscordPatterns.InviteURLPatternIff | src/methods/bots.ts:17 | the invite regex accepts a string iff it starts with `http` or `https`, `://discord` or `://discordapp`, `.com`, optionally `/api`, then `/oauth2/authorize`, whatever follows |
| DiscordPatterns.SupportServerAcceptsCodes | src/methods/bots.ts:18 | every non-empty run of letters, digits, `-` and `.` is accepted, bare or after `http(s)://discord.gg/` |
| DiscordPatterns.SupportServerOnlyCodes | src/methods/bots.ts:18 | anything accepted is such a run, bare or after `http(s)://discord.gg/` |
| Collections.Get | lib/Structures/Collection.js:6 | `get` finds a value iff the key is present, and the entry holding it |
| Collections.Set | lib/Structures/Collection.js:6 | after `set` the key maps to the new value; an existing key keeps its position, a new key goes last |
| Collections.SetOther | lib/Structures/Collection.js:6 | `set` leaves every other key's value unchanged |
| Collections.ToArray | lib/Structures/Collection.js:50-52 | `toArray` lists the values in key-insertion order, one per entry |
| Collections.Filter | lib/Structures/Collection.js:21-28 | `filter` returns the values that satisfy the predicate, in order: the reference selection of `toArray` |
| Collections.SelectMembers | lib/Structures/Collection.js:21-28 | a value is in the filtered array iff it is a value of the collection and satisfies the predicate |
| Collections.SelectShorter | lib/Structures/Collection.js:21-28 | the filtered array is no longer than the collection |
| Collections.FilterAllIsToArray | lib/Structures/Collection.js:21-28 | filtering with an always-true predicate gives `toArray` |
| Collections.MapValues | lib/Structures/Collection.js:36-43 | `map` returns as many results as entries, result i being f of the i-th value |
| Collections.CollectKeys | lib/Structures/Bot.js:40-43 | a `set` per item leaves one key per distinct item key, in first-seen order |
| Collections.CollectGet | lib/Structures/Bot.js:40-43 | a `set` per item leaves each key holding the value of its last item |
| Collections.CollectHas | lib/Client.js:103-107 | a key is present after the `set` loop iff some item carries it |
| Collections.CollectUnique | lib/Client.js:58-62 | with distinct item keys the `set` loop keeps every item, in order |
| UserStructure.FromRaw | lib/Structures/User.js:16-23 | building a user loses nothing: the wire record comes back, `avatar` and `short_description` under their new names |
| UserStructure.GetURL | lib/Structures/User.js:30-32 | the profile URL is the `https://botlist.space/user/` prefix followed by the id |
| BotStructure.OwnersRoundTrip | lib/Structures/Bot.js:40-43 | with no owner id listed twice, the owners collection holds every owner record in the order sent |
| BotStructure.RoundTrip | lib/Structures/Bot.js:29-49 | with no owner id listed twice, building a bot loses nothing: the wire record comes back |
| BotStructure.OwnersByID | lib/Structures/Bot.js:40-43 | one owner entry per distinct id in first-seen order; a repeated id holds the last owner; an id is present iff some owner has it |
| BotStructure.IsNSFWFromRaw | lib/Structures/Bot.js:182-184 | `isNSFW` is the negation of the raw `avatarChildFriendly`, which the constructor copies (lib/Structures/Bot.js:33-35); the descriptions and avatar come from the snake-case keys |
| BotStructure.GetURL | lib/Structures/Bot.js:56-58 | the bot page is the `https://botlist.space/bot/` prefix followed by the id |
| BotStructure.GetTag | lib/Structures/Bot.js:92-94 | the tag is username, `#`, discriminator: it begins with the username, the `#` sits right after it, and the rest is the discriminator |
| BotStructure.TagSplitsBack | lib/Structures/Bot.js:92-94 | when neither part holds a `#`, splitting the tag at `#` gives back username and discriminator |
| ServerStructure.RoundTrip | lib/Structures/Server.js:26-43 | with no owner id listed twice, building a server loses nothing: the wire record comes back |
| ServerStructure.OwnersByID | lib/Structures/Server.js:39-42 | one owner entry per distinct id in first-seen order; a repeated id holds the last owner |
| ServerStructure.FlagsFromRaw | lib/Structures/Server.js:131-142 | `isNSFW` negates the raw `iconChildFriendly` and `isPublic` is the raw `public` flag |
| ServerStructure.GetURL | lib/Structures/Server.js:50-52 | the server page is the `https://botlist.space/server/` prefix followed by the id |
| ServerStructure.PageURLsDisjoint | lib/Structures/Server.js:50-52 | bot, server and user pages never share a URL, whatever the ids |
| HttpErrors.FromTransport | lib/Structures/Error.js:12-15 | with no body, code and message are both the number 500; with an object body, they are its `code` and `message` members; they are absent exactly when the body lacks them |
| HttpErrors.GettersReadBody | lib/Structures/Error.js:22-33 | `getCode` and `getMessage` return the stored fields: 500 and a non-string message without a body, the body's members with one |
| Client.New | lib/Client.js:9-28 | the constructor succeeds iff options is a non-array object whose `id` and `botToken` are strings; the guards throw `TypeError`s with the source's messages in the order options, id, token; the base URL is `https://api.botlist.space/v1` |
| Client.Settle | lib/Client.js:82-89 | a reply resolves with the shaped body, and a transport error rejects with the `HTTPError` built from it |
| Client.Gathered | lib/Client.js:58-67 | a listing resolves with one entry per distinct `id`, in first-seen order, each holding the last record with that id; an error rejects with an `HTTPError` |
| Client.GatheredInOrder | lib/Client.js:58-62 | with distinct ids the collection's values are the records, in response order |
| Client.GetStatistics | lib/Client.js:35-46 | fetches `/statistics` without Authorization and rejects with the raw transport error, not an `HTTPError` |
| Client.GetAllBots | lib/Client.js:53-70 | fetches `/bots` and gathers the bots by id |
| Client.GetBot | lib/Client.js:78-91 | a non-string id throws before any request; otherwise `/bots/{id}` is fetched and the bot built |
| Client.GetUpvotes | lib/Client.js:98-115 | fetches the client bot's `/upvotes` with the bot token as Authorization and gathers the records by id |
| Client.HasUpvoted | lib/Client.js:123-136 | a non-string user id throws; otherwise the upvotes are fetched, and the answer is true iff some upvote record's id equals the user id; a failure rejects as `getUpvotes` does |
| Client.GetSelfBot | lib/Client.js:143-145 | is `getBot` on the configured id: never throws while the options still hold the string id seen at construction, fetches `/bots/{options.id}`, resolves with the bot built from the reply and rejects with the `HTTPError` of a failed transport |
| Client.CountPayload | lib/Client.js:157 | an array becomes `{shards: count}` and a number `{server_count: count}` |
| Client.PostServerCount | lib/Client.js:153-169 | a count that is neither a number nor an array throws before any request; otherwise it POSTs the payload to `/bots/{options.id}` with the bot token and resolves iff the transport succeeds; a failed transport rejects with the `HTTPError` built from the transport error |
| Client.GetUser | lib/Client.js:177-190 | a non-string id throws; otherwise `/users/{id}` is fetched and the user built |
| Client.GetUserBots | lib/Client.js:198-217 | a non-string id throws; otherwise `/users/{id}/bots` is fetched and the bots gathered by id |
| Text.IntToStringRoundTrip | src/methods/bots.ts:37-38 | `toString` of an integer parses back to that integer |
| Text.SplitJoin | src/methods/bots.ts:42-43 | joining a non-empty list with `,` and splitting at `,` gives back the list when no element holds a comma |

## Left out

- Transport: superagent, node-fetch, promises and response status are I/O. The client's transport is the `fetch` parameter, and the `src/methods` functions stop at the request they would send.
- The `User-Agent` header is built from the version in `package.json`, which is read from disk; it is not part of the modelled requests.
- Clock: the `Date.now()` defaults of the analytics calls become an explicit `now` argument. `Bots.DefaultWindowAccepted` states the default window.
- Percent-encoding and `URLSearchParams.toString` are not modelled; a query stops at the ordered pair list.
- `JSON.stringify` in `Collection.toJSON` and in the `postServerCount` body is not modelled. The payload stays a datatype.
- The `Date` objects of the `getTimestamp` methods are not modelled.
- `typeof` checks that Dafny's types make vacuous are dropped: strings, numbers, arrays and booleans in `src/methods`, and `form` being an object. Where the source really receives untyped values they are kept as `Json`: Client options, ids, the `postServerCount` count and the error body.
- Numbers are unbounded integers, and `Text.IntToString` prints them in plain decimal, which is what JavaScript prints below 1e21 in magnitude (beyond that it uses exponent form, and beyond 2^53 it loses precision). The `Number.isInteger` checks on `count`, `from`, `to` and `serverCount` therefore always pass. `page` has no integer check in the source either.
- The `query` assert allows `null`, but `query.length` would then throw. `query` is modelled as a string.
- String lengths count Dafny characters, not UTF-16 code units.
- `User.getTag` interpolates the method instead of calling it (lib/Structures/User.js:67), so it is not modelled as `username#discriminator`.
- The field-copy classes `Statistics`, `Statistics/Bots`, `GenericResult`, `ClientOptions` and the event classes are not modelled. `Client.GetStatistics` resolves with the raw body rather than a `Statistics` object.
- `Upvote` is reduced to the record id the client keys it by, the timestamp and the user.
- lib/Error.js is an older variant of `HTTPError` and is not part of this model. lib/index.js re-exports a WebSocket module that is not part of this model. examples/test.js calls methods the client does not define.
- Type declarations (`src/models/*.ts`, typings/index.d.ts) carry no behaviour. typings/index.d.ts:92 says `filter` returns a Collection, but the code returns an array; the model follows the code.
- Raw records are typed datatypes, so a wire record with a missing field, or a `bot.owners` that is not an array, is not modelled.
- `Json.Member` reads members of objects only. A property read on a non-object JSON value is treated as absent.
- Collection keys are compared by value equality. This matches `Map` for the string ids the client uses.
- Client.New: the source keeps a reference to the caller's options object (lib/Client.js:27) and reads `id` and `botToken` from it again on every call; the model copies those two values once, when the client is built, and drops any other option keys. A later change to that object is not modelled: after it the source's `getUpvotes` and `postServerCount` use the new values, and `getSelfBot` throws `getBot`'s `TypeError` once `id` is no longer a string, so `Client.GetSelfBot`'s "never throws" holds for the values seen at construction.
- BotStructure.RoundTrip and ServerStructure.RoundTrip require distinct owner ids, because the source's `Map` keeps one entry per id. `OwnersByID` states what happens to repeated ids.
- Bots.GetBots: models the corrected filter assert, so it refuses `['']` and `['', 'bogus']`, which `bots.ts` accepts and sends as `filters=`; `Bots.GetBotsAgreesWithSource` ties it to the source on every other list.
- Servers.GetServers: the same for the server listing and `servers.ts`; see `Servers.GetServersAgreesWithSource`.

## Findings

| source | as written | input that shows it | evidently intended | confidence | as-written member | corrected member |
|---|---|---|---|---|---|---|
| src/methods/bots.ts:33 and src/methods/servers.ts:31 | `assert(!filters.find((f) => !allowedFilters.includes(f)))` passes whenever `find` returns a falsy value, and the empty string is falsy | `getBots(1, 16, 'top', 'descending', '', [''])` passes the assert and sends `filters=` | reject every filter that is not on the allow-list, the empty string included | not executed | Requests.CheckFiltersAsWritten, shown by Requests.EmptyFilterSlipsThrough | Requests.CheckFilters, used by Bots.GetBots and Servers.GetServers |
