/**
 * src/methods/bots.ts: argument validation and request building for the bot
 * endpoints. Each function returns the request the source would hand to the
 * transport, or the first assert that failed.
 */
module Bots {
  import opened Wrappers
  import opened Text
  import opened Query
  import opened Requests
  import opened DiscordPatterns
  import Json

  /** The filters a bot listing accepts. */
  const AllowedFilters: set<string> := {"approved", "safeAvatar"}

  /** The listing's default filter list. */
  const DefaultFilters: seq<string> := ["approved"]

  const MaxPrefixLength := 16
  const MaxSupportServerLength := 32

  /**
   * A partial update of a bot: `None` means the form has no such key,
   * `Some(Null)` that the key is present with value `null`. `others` holds
   * the keys the validator has no rule for; they are posted as they are.
   */
  datatype BotUpdate = BotUpdate(
    shortDescription: Option<string>,
    fullDescription: Option<string>,
    inviteURL: Option<string>,
    prefix: Option<string>,
    safeAvatar: Option<bool>,
    supportServer: Option<Nullable<string>>,
    tags: Option<seq<string>>,
    languages: Option<seq<string>>,
    vanity: Option<Nullable<string>>,
    websiteURL: Option<Nullable<string>>,
    serverCount: Option<Nullable<int>>,
    active: Option<bool>,
    others: map<string, Json.Json>)

  /** The keys `updateBot` has a rule for, each held in its own field of `BotUpdate`. */
  const RuledKeys: set<string> := {
    "shortDescription", "fullDescription", "inviteURL", "prefix", "safeAvatar", "supportServer",
    "tags", "languages", "vanity", "websiteURL", "serverCount", "active"}

  /** A form a JavaScript object can be: no key is held both in a field and in `others`. */
  predicate WellFormed(f: BotUpdate) {
    f.others.Keys !! RuledKeys
  }

  type BotForm = f: BotUpdate | WellFormed(f)
    witness BotUpdate(None, None, None, None, None, None, None, None, None, None, None, None, map[])

  /** `Object.keys(form).length`. */
  function KeyCount(f: BotForm): nat {
    Present(f.shortDescription) + Present(f.fullDescription) + Present(f.inviteURL)
    + Present(f.prefix) + Present(f.safeAvatar) + Present(f.supportServer)
    + Present(f.tags) + Present(f.languages) + Present(f.vanity)
    + Present(f.websiteURL) + Present(f.serverCount) + Present(f.active)
    + |f.others|
  }

  /** The rule of each field that is present, stated declaratively. */
  predicate BotFormValid(f: BotUpdate) {
    && (f.shortDescription.Some? ==> |f.shortDescription.value| > 0)
    && (f.inviteURL.Some? ==> |f.inviteURL.value| > 0 && InviteURLPattern(f.inviteURL.value))
    && (f.prefix.Some? ==> 1 <= |f.prefix.value| <= MaxPrefixLength)
    && (f.supportServer.Some? && f.supportServer.value.NonNull? ==>
          var s := f.supportServer.value.value;
          1 <= |s| <= MaxSupportServerLength && SupportServerPattern(s))
    && NullOrNonEmpty(f.vanity)
    && NullOrNonEmpty(f.websiteURL)
    && (f.serverCount.Some? && f.serverCount.value.NonNull? ==> f.serverCount.value.value >= 0)
  }

  /** The invite URL asserts. */
  function CheckInviteURL(value: Option<string>): Outcome<Violation> {
    if value.None? then Pass
    else if |value.value| == 0 then Fail(FieldEmpty("inviteURL"))
    else if !InviteURLPattern(value.value) then Fail(FieldPattern("inviteURL"))
    else Pass
  }

  /** The prefix asserts. */
  function CheckPrefix(value: Option<string>): Outcome<Violation> {
    if value.None? then Pass
    else if |value.value| == 0 then Fail(FieldEmpty("prefix"))
    else if |value.value| > MaxPrefixLength then Fail(FieldTooLong("prefix", MaxPrefixLength))
    else Pass
  }

  /** The support server asserts; `null` is accepted. */
  function CheckSupportServer(value: Option<Nullable<string>>): Outcome<Violation> {
    if value.None? || value.value.Null? then Pass
    else
      var s := value.value.value;
      if |s| == 0 then Fail(FieldEmpty("supportServer"))
      else if |s| > MaxSupportServerLength then Fail(FieldTooLong("supportServer", MaxSupportServerLength))
      else if !SupportServerPattern(s) then Fail(FieldPattern("supportServer"))
      else Pass
  }

  /** The server count asserts; `null` is accepted. */
  function CheckServerCount(value: Option<Nullable<int>>): Outcome<Violation> {
    if value.Some? && value.value.NonNull? && value.value.value < 0 then Fail(FieldNegative("serverCount"))
    else Pass
  }

  /**
   * The per-field asserts of `updateBot`, in source order. `fullDescription`,
   * `safeAvatar`, `tags`, `languages` and `active` carry type checks only.
   */
  function CheckBotForm(f: BotForm): (r: Result<BotForm, Violation>)
    ensures r.Success? <==> BotFormValid(f)
    ensures r.Success? ==> r.value == f
  {
    var outcome :=
      CheckNonEmptyField("shortDescription", f.shortDescription)
      .Then(CheckInviteURL(f.inviteURL))
      .Then(CheckPrefix(f.prefix))
      .Then(CheckSupportServer(f.supportServer))
      .Then(CheckNullableNonEmpty("vanity", f.vanity))
      .Then(CheckNullableNonEmpty("websiteURL", f.websiteURL))
      .Then(CheckServerCount(f.serverCount));
    :- outcome;
    Success(f)
  }

  /** `getBots`: the bot listing, with search, filters and tags. */
  function GetBots(page: int := DefaultPage, count: int := DefaultCount, sortBy: string := "top",
                   sortDirection: string := "descending", query: string := "",
                   filters: seq<string> := DefaultFilters, tags: seq<string> := []): (r: Result<Get, Violation>)
    ensures r.Success? <==> PagingValid(page, count, sortDirection) && FiltersAllowed(filters, AllowedFilters)
    ensures page < 1 ==> r == Failure(PageBelowOne(page))
    ensures PagingValid(page, count, sortDirection) && !FiltersAllowed(filters, AllowedFilters) ==>
              r == Failure(FilterNotAllowed(FirstDisallowed(filters, AllowedFilters).value))
    ensures r.Success? ==> r.value.path == "/bots" && r.value.authorization.None?
    ensures r.Success? ==> r.value.params == SearchPairs(page, count, sortBy, sortDirection, query, filters, tags)
  {
    var params := SearchParams(page, count, sortBy, sortDirection, query, filters, tags);
    :- CheckPaging(page, count, sortDirection);
    :- CheckFilters(filters, AllowedFilters);
    Success(Get("/bots", params, None))
  }

  /** `getBot`. */
  function GetBot(id: string): (r: Result<Get, Violation>)
    ensures r.Success? <==> id != ""
    ensures r.Success? ==> r.value == Get("/bots/" + id, [], None)
  {
    var path := "/bots/" + id;
    :- CheckNonEmpty("id", id);
    Success(Get(path, [], None))
  }

  /** `updateBot`: a POST of the whole form, unchanged, once every rule passes. */
  function UpdateBot(id: string, token: string, form: BotForm): (r: Result<Post<BotForm>, Violation>)
    ensures r.Success? <==> id != "" && token != "" && KeyCount(form) > 0 && BotFormValid(form)
    ensures r.Success? ==> r.value == Post("/bots/" + id, token, JsonContentType, form)
    ensures id == "" ==> r == Failure(EmptyArgument("id"))
    ensures id != "" && token == "" ==> r == Failure(EmptyArgument("token"))
    ensures id != "" && token != "" && KeyCount(form) == 0 ==> r == Failure(EmptyForm)
  {
    var path := "/bots/" + id;
    :- CheckNonEmpty("id", id);
    :- CheckNonEmpty("token", token);
    :- Need(KeyCount(form) > 0, EmptyForm);
    var body :- CheckBotForm(form);
    Success(Post(path, token, JsonContentType, body))
  }

  /** `getBotReviews`: takes a token but neither checks nor sends it. */
  function GetBotReviews(id: string, token: string, page: int := DefaultPage, count: int := DefaultCount,
                         sortBy: string := "top", sortDirection: string := "descending"): (r: Result<Get, Violation>)
    ensures r.Success? <==> id != "" && PagingValid(page, count, sortDirection)
    ensures r.Success? ==> r.value == Get("/bots/" + id + "/reviews", PagingPairs(page, count, sortBy, sortDirection), None)
  {
    var path := "/bots/" + id + "/reviews";
    :- CheckNonEmpty("id", id);
    Listing(path, page, count, sortBy, sortDirection, None)
  }

  /** `getBotAnalytics`, with the clock reading `now` passed in. */
  function GetBotAnalytics(id: string, token: string, from: int, to: int, now: int): (r: Result<Get, Violation>)
    ensures r.Success? <==> id != "" && token != "" && WindowValid(from, to, now)
    ensures r.Success? ==> r.value == Get("/bots/" + id + "/analytics", WindowPairs(from, to), Some(token))
  {
    var path := "/bots/" + id + "/analytics";
    :- CheckNonEmpty("id", id);
    :- CheckNonEmpty("token", token);
    :- CheckWindow(from, to, now);
    Success(Get(path, WindowParams(from, to), Some(token)))
  }

  /** `getBotUpvotes`. */
  function GetBotUpvotes(id: string, token: string, page: int := DefaultPage, count: int := DefaultCount,
                         sortBy: string := "timestamp", sortDirection: string := "ascending"): (r: Result<Get, Violation>)
    ensures r.Success? <==> id != "" && token != "" && PagingValid(page, count, sortDirection)
    ensures r.Success? ==> r.value == Get("/bots/" + id + "/upvotes", PagingPairs(page, count, sortBy, sortDirection), Some(token))
  {
    var path := "/bots/" + id + "/upvotes";
    :- CheckNonEmpty("id", id);
    :- CheckNonEmpty("token", token);
    Listing(path, page, count, sortBy, sortDirection, Some(token))
  }

  /** `getBotUserUpvoteStatus`: both ids and the token must be non-empty. */
  function GetBotUserUpvoteStatus(botID: string, userID: string, token: string): (r: Result<Get, Violation>)
    ensures r.Success? <==> botID != "" && userID != "" && token != ""
    ensures r.Success? ==> r.value == Get("/bots/" + botID + "/upvotes/status/" + userID, [], Some(token))
  {
    var path := "/bots/" + botID + "/upvotes/status/" + userID;
    :- CheckNonEmpty("botID", botID);
    :- CheckNonEmpty("userID", userID);
    :- CheckNonEmpty("token", token);
    Success(Get(path, [], Some(token)))
  }

  /** `getBotUpvoteLeaderboard`. */
  function GetBotUpvoteLeaderboard(id: string, token: string, page: int := DefaultPage, count: int := DefaultCount,
                                   sortBy: string := "count", sortDirection: string := "descending"): (r: Result<Get, Violation>)
    ensures r.Success? <==> id != "" && token != "" && PagingValid(page, count, sortDirection)
    ensures r.Success? ==> r.value == Get("/bots/" + id + "/upvotes/leaderboard", PagingPairs(page, count, sortBy, sortDirection), Some(token))
  {
    var path := "/bots/" + id + "/upvotes/leaderboard";
    :- CheckNonEmpty("id", id);
    :- CheckNonEmpty("token", token);
    Listing(path, page, count, sortBy, sortDirection, Some(token))
  }

  /** `getBotAuditLog`. */
  function GetBotAuditLog(id: string, token: string, page: int := DefaultPage, count: int := DefaultCount,
                          sortBy: string := "timestamp", sortDirection: string := "descending"): (r: Result<Get, Violation>)
    ensures r.Success? <==> id != "" && token != "" && PagingValid(page, count, sortDirection)
    ensures r.Success? ==> r.value == Get("/bots/" + id + "/audit", PagingPairs(page, count, sortBy, sortDirection), Some(token))
  {
    var path := "/bots/" + id + "/audit";
    :- CheckNonEmpty("id", id);
    :- CheckNonEmpty("token", token);
    Listing(path, page, count, sortBy, sortDirection, Some(token))
  }

  /** `getBotOwners`: the paging arguments are checked, then the request carries no query. */
  function GetBotOwners(id: string, page: int := DefaultPage, count: int := DefaultCount,
                        sortBy: string := "id", sortDirection: string := "ascending"): (r: Result<Get, Violation>)
    ensures r.Success? <==> id != "" && PagingValid(page, count, sortDirection)
    ensures r.Success? ==> r.value == Get("/bots/" + id + "/owners", [], None)
  {
    var path := "/bots/" + id + "/owners";
    :- CheckNonEmpty("id", id);
    :- CheckPaging(page, count, sortDirection);
    Success(Get(path, [], None))
  }

  /**
   * The listing applies the corrected filter check. On every filter list
   * without an empty entry it accepts exactly what the source's
   * `find`-based assert accepts.
   */
  lemma GetBotsAgreesWithSource(page: int, count: int, sortBy: string, sortDirection: string,
                                query: string, filters: seq<string>, tags: seq<string>)
    requires forall i | 0 <= i < |filters| :: filters[i] != ""
    ensures GetBots(page, count, sortBy, sortDirection, query, filters, tags).Success? <==>
            PagingValid(page, count, sortDirection) && CheckFiltersAsWritten(filters, AllowedFilters).Pass?
  {
  }

  /** `[""]` is where the two part: the source's assert lets it through, the listing refuses it. */
  lemma EmptyFilterListRefused()
    ensures CheckFiltersAsWritten([""], AllowedFilters).Pass?
    ensures GetBots(filters := [""]) == Failure(FilterNotAllowed(""))
  {
    assert [""][0] !in AllowedFilters;
  }

  /** With every argument defaulted the listing is accepted and asks for approved bots only. */
  lemma DefaultListingAsksForApproved()
    ensures GetBots().Success?
    ensures Lookup(GetBots().value.params, "filters") == Some("approved")
    ensures Lookup(GetBots().value.params, "query").None?
    ensures Lookup(GetBots().value.params, "tags").None?
  {
    SearchPairsDecode(1, 16, "top", "descending", "", DefaultFilters, []);
  }

  /** The filters parameter reads back, split on commas, as the list the caller passed. */
  lemma FiltersParamDecodes(page: int, count: int, sortBy: string, sortDirection: string,
                            query: string, filters: seq<string>, tags: seq<string>)
    requires GetBots(page, count, sortBy, sortDirection, query, filters, tags).Success?
    requires |filters| > 0
    ensures var ps := GetBots(page, count, sortBy, sortDirection, query, filters, tags).value.params;
            Lookup(ps, "filters").Some? && Split(Lookup(ps, "filters").value, ',') == filters
  {
    SearchPairsDecode(page, count, sortBy, sortDirection, query, filters, tags);
    assert FiltersAllowed(filters, AllowedFilters);
    forall k | 0 <= k < |filters|
      ensures ',' !in filters[k]
    {
      FilterHasNoComma(filters[k]);
    }
    SplitJoin(filters, ',');
  }

  lemma FilterHasNoComma(name: string)
    requires name in AllowedFilters
    ensures ',' !in name
  {
  }

  /** The window the source defaults to (the last seven days) is accepted once the clock has run that long. */
  lemma DefaultWindowAccepted(id: string, token: string, now: int)
    requires id != "" && token != ""
    ensures GetBotAnalytics(id, token, now - WeekMillis, now, now).Success? <==> now >= WeekMillis
  {
  }
}
