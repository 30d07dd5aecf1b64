/**
 * src/methods/servers.ts: the server endpoints. They mirror the bot ones,
 * with a smaller update form and a single allowed filter that the listing
 * does not apply by default.
 */
module Servers {
  import opened Wrappers
  import opened Text
  import opened Query
  import opened Requests
  import Json

  /** The filters a server listing accepts. */
  const AllowedFilters: set<string> := {"safeAvatar"}

  /**
   * A partial update of a server; `None` means the key is absent and
   * `Some(Null)` that it is present with value `null`. `others` holds the
   * keys without a rule, which are posted as they are.
   */
  datatype ServerUpdate = ServerUpdate(
    shortDescription: Option<string>,
    fullDescription: Option<string>,
    inviteCode: Option<string>,
    safeAvatar: Option<bool>,
    tags: Option<seq<string>>,
    vanity: Option<Nullable<string>>,
    websiteURL: Option<Nullable<string>>,
    active: Option<bool>,
    others: map<string, Json.Json>)

  /** The keys `updateServer` has a rule for, each held in its own field of `ServerUpdate`. */
  const RuledKeys: set<string> := {
    "shortDescription", "fullDescription", "inviteCode", "safeAvatar", "tags", "vanity", "websiteURL", "active"}

  /** A form a JavaScript object can be: no key is held both in a field and in `others`. */
  predicate WellFormed(f: ServerUpdate) {
    f.others.Keys !! RuledKeys
  }

  type ServerForm = f: ServerUpdate | WellFormed(f)
    witness ServerUpdate(None, None, None, None, None, None, None, None, map[])

  /** `Object.keys(form).length`. */
  function KeyCount(f: ServerForm): nat {
    Present(f.shortDescription) + Present(f.fullDescription) + Present(f.inviteCode)
    + Present(f.safeAvatar) + Present(f.tags) + Present(f.vanity)
    + Present(f.websiteURL) + Present(f.active) + |f.others|
  }

  /** The rule of each field that is present, stated declaratively. */
  predicate ServerFormValid(f: ServerUpdate) {
    && (f.shortDescription.Some? ==> |f.shortDescription.value| > 0)
    && (f.inviteCode.Some? ==> |f.inviteCode.value| > 0)
    && NullOrNonEmpty(f.vanity)
    && NullOrNonEmpty(f.websiteURL)
  }

  /** The per-field asserts of `updateServer`, in source order. */
  function CheckServerForm(f: ServerForm): (r: Result<ServerForm, Violation>)
    ensures r.Success? <==> ServerFormValid(f)
    ensures r.Success? ==> r.value == f
  {
    var outcome :=
      CheckNonEmptyField("shortDescription", f.shortDescription)
      .Then(CheckNonEmptyField("inviteCode", f.inviteCode))
      .Then(CheckNullableNonEmpty("vanity", f.vanity))
      .Then(CheckNullableNonEmpty("websiteURL", f.websiteURL));
    :- outcome;
    Success(f)
  }

  /** `getServers`: the server listing, with search, filters and tags. */
  function GetServers(page: int := DefaultPage, count: int := DefaultCount, sortBy: string := "top",
                      sortDirection: string := "descending", query: string := "",
                      filters: seq<string> := [], tags: seq<string> := []): (r: Result<Get, Violation>)
    ensures r.Success? <==> PagingValid(page, count, sortDirection) && FiltersAllowed(filters, AllowedFilters)
    ensures page < 1 ==> r == Failure(PageBelowOne(page))
    ensures PagingValid(page, count, sortDirection) && !FiltersAllowed(filters, AllowedFilters) ==>
              r == Failure(FilterNotAllowed(FirstDisallowed(filters, AllowedFilters).value))
    ensures r.Success? ==> r.value.path == "/servers" && r.value.authorization.None?
    ensures r.Success? ==> r.value.params == SearchPairs(page, count, sortBy, sortDirection, query, filters, tags)
  {
    var params := SearchParams(page, count, sortBy, sortDirection, query, filters, tags);
    :- CheckPaging(page, count, sortDirection);
    :- CheckFilters(filters, AllowedFilters);
    Success(Get("/servers", params, None))
  }

  /** `getServer`. */
  function GetServer(id: string): (r: Result<Get, Violation>)
    ensures r.Success? <==> id != ""
    ensures r.Success? ==> r.value == Get("/servers/" + id, [], None)
  {
    var path := "/servers/" + id;
    :- CheckNonEmpty("id", id);
    Success(Get(path, [], None))
  }

  /** `updateServer`: a POST of the whole form, unchanged, once every rule passes. */
  function UpdateServer(id: string, token: string, form: ServerForm): (r: Result<Post<ServerForm>, Violation>)
    ensures r.Success? <==> id != "" && token != "" && KeyCount(form) > 0 && ServerFormValid(form)
    ensures r.Success? ==> r.value == Post("/servers/" + id, token, JsonContentType, form)
    ensures id == "" ==> r == Failure(EmptyArgument("id"))
    ensures id != "" && token == "" ==> r == Failure(EmptyArgument("token"))
    ensures id != "" && token != "" && KeyCount(form) == 0 ==> r == Failure(EmptyForm)
  {
    var path := "/servers/" + id;
    :- CheckNonEmpty("id", id);
    :- CheckNonEmpty("token", token);
    :- Need(KeyCount(form) > 0, EmptyForm);
    var body :- CheckServerForm(form);
    Success(Post(path, token, JsonContentType, body))
  }

  /** `getServerReviews`: takes a token but neither checks nor sends it. */
  function GetServerReviews(id: string, token: string, page: int := DefaultPage, count: int := DefaultCount,
                            sortBy: string := "top", sortDirection: string := "descending"): (r: Result<Get, Violation>)
    ensures r.Success? <==> id != "" && PagingValid(page, count, sortDirection)
    ensures r.Success? ==> r.value == Get("/servers/" + id + "/reviews", PagingPairs(page, count, sortBy, sortDirection), None)
  {
    var path := "/servers/" + id + "/reviews";
    :- CheckNonEmpty("id", id);
    Listing(path, page, count, sortBy, sortDirection, None)
  }

  /** `getServerAnalytics`, with the clock reading `now` passed in. */
  function GetServerAnalytics(id: string, token: string, from: int, to: int, now: int): (r: Result<Get, Violation>)
    ensures r.Success? <==> id != "" && token != "" && WindowValid(from, to, now)
    ensures r.Success? ==> r.value == Get("/servers/" + id + "/analytics", WindowPairs(from, to), Some(token))
  {
    var path := "/servers/" + id + "/analytics";
    :- CheckNonEmpty("id", id);
    :- CheckNonEmpty("token", token);
    :- CheckWindow(from, to, now);
    Success(Get(path, WindowParams(from, to), Some(token)))
  }

  /** `getServerUpvotes`. */
  function GetServerUpvotes(id: string, token: string, page: int := DefaultPage, count: int := DefaultCount,
                            sortBy: string := "timestamp", sortDirection: string := "ascending"): (r: Result<Get, Violation>)
    ensures r.Success? <==> id != "" && token != "" && PagingValid(page, count, sortDirection)
    ensures r.Success? ==> r.value == Get("/servers/" + id + "/upvotes", PagingPairs(page, count, sortBy, sortDirection), Some(token))
  {
    var path := "/servers/" + id + "/upvotes";
    :- CheckNonEmpty("id", id);
    :- CheckNonEmpty("token", token);
    Listing(path, page, count, sortBy, sortDirection, Some(token))
  }

  /** `getServerUserUpvoteStatus`. */
  function GetServerUserUpvoteStatus(serverID: string, userID: string, token: string): (r: Result<Get, Violation>)
    ensures r.Success? <==> serverID != "" && userID != "" && token != ""
    ensures r.Success? ==> r.value == Get("/servers/" + serverID + "/upvotes/status/" + userID, [], Some(token))
  {
    var path := "/servers/" + serverID + "/upvotes/status/" + userID;
    :- CheckNonEmpty("serverID", serverID);
    :- CheckNonEmpty("userID", userID);
    :- CheckNonEmpty("token", token);
    Success(Get(path, [], Some(token)))
  }

  /** `getServerUpvoteLeaderboard`. */
  function GetServerUpvoteLeaderboard(id: string, token: string, page: int := DefaultPage, count: int := DefaultCount,
                                      sortBy: string := "count", sortDirection: string := "descending"): (r: Result<Get, Violation>)
    ensures r.Success? <==> id != "" && token != "" && PagingValid(page, count, sortDirection)
    ensures r.Success? ==> r.value == Get("/servers/" + id + "/upvotes/leaderboard", PagingPairs(page, count, sortBy, sortDirection), Some(token))
  {
    var path := "/servers/" + id + "/upvotes/leaderboard";
    :- CheckNonEmpty("id", id);
    :- CheckNonEmpty("token", token);
    Listing(path, page, count, sortBy, sortDirection, Some(token))
  }

  /** `getServerAuditLog`. */
  function GetServerAuditLog(id: string, token: string, page: int := DefaultPage, count: int := DefaultCount,
                             sortBy: string := "timestamp", sortDirection: string := "descending"): (r: Result<Get, Violation>)
    ensures r.Success? <==> id != "" && token != "" && PagingValid(page, count, sortDirection)
    ensures r.Success? ==> r.value == Get("/servers/" + id + "/audit", PagingPairs(page, count, sortBy, sortDirection), Some(token))
  {
    var path := "/servers/" + id + "/audit";
    :- CheckNonEmpty("id", id);
    :- CheckNonEmpty("token", token);
    Listing(path, page, count, sortBy, sortDirection, Some(token))
  }

  /** `getServerOwners`: the paging arguments are checked, then the request carries no query. */
  function GetServerOwners(id: string, page: int := DefaultPage, count: int := DefaultCount,
                           sortBy: string := "id", sortDirection: string := "ascending"): (r: Result<Get, Violation>)
    ensures r.Success? <==> id != "" && PagingValid(page, count, sortDirection)
    ensures r.Success? ==> r.value == Get("/servers/" + id + "/owners", [], None)
  {
    var path := "/servers/" + id + "/owners";
    :- CheckNonEmpty("id", id);
    :- CheckPaging(page, count, sortDirection);
    Success(Get(path, [], None))
  }

  /** With every argument defaulted the listing applies no filter: the query has no filters pair. */
  lemma DefaultListingUnfiltered()
    ensures GetServers().Success?
    ensures Lookup(GetServers().value.params, "filters").None?
    ensures DecodesTo(GetServers().value.params, "page", 1)
    ensures DecodesTo(GetServers().value.params, "count", 16)
  {
    SearchPairsDecode(1, 16, "top", "descending", "", [], []);
    SearchPairsPaging(1, 16, "top", "descending", "", [], []);
  }

  /**
   * The listing applies the corrected filter check. On every filter list
   * without an empty entry it accepts exactly what the source's
   * `find`-based assert accepts.
   */
  lemma GetServersAgreesWithSource(page: int, count: int, sortBy: string, sortDirection: string,
                                   query: string, filters: seq<string>, tags: seq<string>)
    requires forall i | 0 <= i < |filters| :: filters[i] != ""
    ensures GetServers(page, count, sortBy, sortDirection, query, filters, tags).Success? <==>
            PagingValid(page, count, sortDirection) && CheckFiltersAsWritten(filters, AllowedFilters).Pass?
  {
  }

  /** `["", "bogus"]` passes the source's assert, and the listing refuses it. */
  lemma EmptyFirstFilterRefused()
    ensures CheckFiltersAsWritten(["", "bogus"], AllowedFilters).Pass?
    ensures GetServers(filters := ["", "bogus"]) == Failure(FilterNotAllowed(""))
  {
    assert ["", "bogus"][0] !in AllowedFilters;
  }

  /** A bot-only filter is refused by the server listing. */
  lemma ApprovedFilterRefused()
    ensures GetServers(filters := ["approved"]) == Failure(FilterNotAllowed("approved"))
  {
  }
}
