/**
 * src/methods/general.ts: the endpoints not tied to one bot, server or user.
 */
module General {
  import opened Wrappers
  import opened Text
  import opened Query
  import opened Requests

  /** The tag types `getTags` accepts. */
  const TagTypes: set<string> := {"all", "bot", "server"}

  /** `getStatistics`: no arguments, nothing to check. */
  function GetStatistics(): (r: Get)
    ensures r.path == "/statistics" && r.params == [] && r.authorization.None?
  {
    Get("/statistics", [], None)
  }

  /** `getLanguages`. */
  function GetLanguages(page: int := DefaultPage, count: int := DefaultCount, sortBy: string := "name",
                        sortDirection: string := "ascending"): (r: Result<Get, Violation>)
    ensures r.Success? <==> PagingValid(page, count, sortDirection)
    ensures r.Success? ==> r.value == Get("/languages", PagingPairs(page, count, sortBy, sortDirection), None)
  {
    Listing("/languages", page, count, sortBy, sortDirection, None)
  }

  /** The pairs `getTags` sends: the tag type first, then the paging. */
  function TagPairs(tagType: string, page: int, count: int, sortBy: string, sortDirection: string): Params {
    [("type", tagType)] + PagingPairs(page, count, sortBy, sortDirection)
  }

  /** The `params.set` calls of `getTags`. */
  function TagParams(tagType: string, page: int, count: int, sortBy: string, sortDirection: string): (ps: Params)
    ensures ps == TagPairs(tagType, page, count, sortBy, sortDirection)
  {
    var p0 := SetWhen([], true, "type", tagType, {});
    PagingOnto(p0, {"type"}, Text.IntToString(page), Text.IntToString(count), sortBy, sortDirection)
  }

  /** `getTags`: the type is checked before the paging arguments. */
  function GetTags(tagType: string := "all", page: int := DefaultPage, count: int := DefaultCount,
                   sortBy: string := "name", sortDirection: string := "ascending"): (r: Result<Get, Violation>)
    ensures r.Success? <==> tagType in TagTypes && PagingValid(page, count, sortDirection)
    ensures tagType !in TagTypes ==> r == Failure(TagTypeNotAllowed(tagType))
    ensures r.Success? ==> r.value == Get("/tags", TagPairs(tagType, page, count, sortBy, sortDirection), None)
  {
    var ps := TagParams(tagType, page, count, sortBy, sortDirection);
    :- Need(tagType in TagTypes, TagTypeNotAllowed(tagType));
    :- CheckPaging(page, count, sortDirection);
    Success(Get("/tags", ps, None))
  }

  /** The tag query reads back as the type and paging the caller passed. */
  lemma TagPairsDecode(tagType: string, page: int, count: int, sortBy: string, sortDirection: string)
    ensures Lookup(TagPairs(tagType, page, count, sortBy, sortDirection), "type") == Some(tagType)
    ensures DecodesTo(TagPairs(tagType, page, count, sortBy, sortDirection), "page", page)
    ensures DecodesTo(TagPairs(tagType, page, count, sortBy, sortDirection), "count", count)
    ensures Lookup(TagPairs(tagType, page, count, sortBy, sortDirection), "sortBy") == Some(sortBy)
    ensures Lookup(TagPairs(tagType, page, count, sortBy, sortDirection), "sortDirection") == Some(sortDirection)
  {
    var t: Params := [("type", tagType)];
    var p := PagingPairs(page, count, sortBy, sortDirection);
    PagingPairsDecode(page, count, sortBy, sortDirection);
    LookupConcat(t, p, "type");
    LookupConcat(t, p, "page");
    LookupConcat(t, p, "count");
    LookupConcat(t, p, "sortBy");
    LookupConcat(t, p, "sortDirection");
  }
}
