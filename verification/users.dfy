/**
 * src/methods/users.ts: the user endpoints. A token is optional here: `null`
 * is allowed, an empty string is not, and without one the request carries
 * the placeholder `unauthorized`.
 */
module Users {
  import opened Wrappers
  import opened Requests

  /** The Authorization value sent when the caller has no token. */
  const Unauthorized := "unauthorized"

  /** `token || 'unauthorized'`: the token when it is a truthy string. */
  function AuthorizationFor(token: Option<string>): (r: string)
    ensures r != ""
    ensures token.Some? && token.value != "" ==> r == token.value
    ensures token.None? ==> r == Unauthorized
  {
    if token.Some? && token.value != "" then token.value else Unauthorized
  }

  /**
   * `if (token !== null) assert(token.length > 0)`. The token parameters of
   * this module are `string | null = null`: `None` is the `null` that an
   * omitted token defaults to, so it stands for `null` here.
   */
  function CheckOptionalToken(token: Option<string>): (r: Outcome<Violation>)
    ensures r.Pass? <==> token.None? || token.value != ""
  {
    if token.Some? then CheckNonEmpty("token", token.value) else Pass
  }

  /** `getUser`. */
  function GetUser(id: string): (r: Result<Get, Violation>)
    ensures r.Success? <==> id != ""
    ensures r.Success? ==> r.value == Get("/users/" + id, [], None)
  {
    var path := "/users/" + id;
    :- CheckNonEmpty("id", id);
    Success(Get(path, [], None))
  }

  /** `getUserBots`: the bots a user owns; `token` is `None` for `null` or omitted. */
  function GetUserBots(id: string, token: Option<string> := None, page: int := DefaultPage, count: int := DefaultCount,
                       sortBy: string := "username", sortDirection: string := "ascending"): (r: Result<Get, Violation>)
    ensures r.Success? <==> id != "" && (token.None? || token.value != "") && PagingValid(page, count, sortDirection)
    ensures id != "" && token == Some("") ==> r == Failure(EmptyArgument("token"))
    ensures r.Success? ==> r.value == Get("/users/" + id + "/bots", PagingPairs(page, count, sortBy, sortDirection),
                                          Some(if token.Some? then token.value else Unauthorized))
  {
    var path := "/users/" + id + "/bots";
    :- CheckNonEmpty("id", id);
    :- CheckOptionalToken(token);
    Listing(path, page, count, sortBy, sortDirection, Some(AuthorizationFor(token)))
  }

  /** `getUserServers`: the servers a user owns; `token` is `None` for `null` or omitted. */
  function GetUserServers(id: string, token: Option<string> := None, page: int := DefaultPage, count: int := DefaultCount,
                          sortBy: string := "name", sortDirection: string := "ascending"): (r: Result<Get, Violation>)
    ensures r.Success? <==> id != "" && (token.None? || token.value != "") && PagingValid(page, count, sortDirection)
    ensures id != "" && token == Some("") ==> r == Failure(EmptyArgument("token"))
    ensures r.Success? ==> r.value == Get("/users/" + id + "/servers", PagingPairs(page, count, sortBy, sortDirection),
                                          Some(if token.Some? then token.value else Unauthorized))
  {
    var path := "/users/" + id + "/servers";
    :- CheckNonEmpty("id", id);
    :- CheckOptionalToken(token);
    Listing(path, page, count, sortBy, sortDirection, Some(AuthorizationFor(token)))
  }
}
