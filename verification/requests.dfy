/**
 * What the request functions of src/methods share: the ways a call can be
 * refused, the requests they hand to the transport, and the checks and
 * parameter lists that recur in every listing call.
 */
module Requests {
  import opened Wrappers
  import opened Text
  import opened Query

  /** The first `assert` of a call that failed; the call then issues no request. */
  datatype Violation =
    | EmptyArgument(name: string)
    | PageBelowOne(page: int)
    | CountBelowOne(count: int)
    | CountAboveFifty(count: int)
    | UnknownSortDirection(sortDirection: string)
    | FilterNotAllowed(filter: string)
    | TagTypeNotAllowed(tagType: string)
    | FromNegative(from: int)
    | FromNotBeforeTo(from: int, to: int)
    | ToNegative(to: int)
    | ToInFuture(to: int, now: int)
    | EmptyForm
    | FieldEmpty(field: string)
    | FieldTooLong(field: string, maxLength: nat)
    | FieldPattern(field: string)
    | FieldNegative(field: string)

  /** A GET: path below the service's base URL, query pairs (none means no `?`), `Authorization` header. */
  datatype Get = Get(path: string, params: Params, authorization: Option<string>)

  /** A POST with a JSON body; the token goes verbatim into `Authorization`. */
  datatype Post<B> = Post(path: string, authorization: string, contentType: string, body: B)

  const JsonContentType := "application/json"

  const SortDirections: set<string> := {"ascending", "descending"}

  const MaxCount := 50

  /** Default page and page size of every listing call. */
  const DefaultPage := 1
  const DefaultCount := 16

  /** Seven days in milliseconds: the default width of an analytics window. */
  const WeekMillis := 1000 * 60 * 60 * 24 * 7

  /** The constraints every listing call puts on its paging arguments; `sortBy` is free. */
  predicate PagingValid(page: int, count: int, sortDirection: string) {
    && page >= 1
    && 1 <= count <= MaxCount
    && sortDirection in SortDirections
  }

  /** 0 <= from < to <= now: the time window of the analytics calls. */
  predicate WindowValid(from: int, to: int, now: int) {
    0 <= from < to <= now
  }

  /** `assert(x.length > 0)` on a required identifier or token. */
  function CheckNonEmpty(name: string, value: string): Outcome<Violation> {
    if |value| == 0 then Fail(EmptyArgument(name)) else Pass
  }

  /** The page, count and sortDirection asserts, in the order the source makes them. */
  function CheckPaging(page: int, count: int, sortDirection: string): Outcome<Violation> {
    if page < 1 then Fail(PageBelowOne(page))
    else if count < 1 then Fail(CountBelowOne(count))
    else if count > MaxCount then Fail(CountAboveFifty(count))
    else if sortDirection !in SortDirections then Fail(UnknownSortDirection(sortDirection))
    else Pass
  }

  /** The analytics window asserts, in source order; `to < 0` cannot fail once the first two pass. */
  function CheckWindow(from: int, to: int, now: int): Outcome<Violation> {
    if from < 0 then Fail(FromNegative(from))
    else if from >= to then Fail(FromNotBeforeTo(from, to))
    else if to < 0 then Fail(ToNegative(to))
    else if to > now then Fail(ToInFuture(to, now))
    else Pass
  }

  const PagingNames: set<string> := {"page", "count", "sortBy", "sortDirection"}

  /** The four pairs every listing call sends, in this order, whatever their values. */
  function PagingPairs(page: int, count: int, sortBy: string, sortDirection: string): Params {
    RenderedPaging(IntToString(page), IntToString(count), sortBy, sortDirection)
  }

  /** The paging pairs once the page and count have been written out as text. */
  function RenderedPaging(page: string, count: string, sortBy: string, sortDirection: string): Params {
    [("page", page), ("count", count), ("sortBy", sortBy), ("sortDirection", sortDirection)]
  }

  /** The `params.set` calls of a listing call; they append, since every name is new. */
  function PagingParams(page: int, count: int, sortBy: string, sortDirection: string): (ps: Params)
    ensures ps == PagingPairs(page, count, sortBy, sortDirection)
  {
    PagingOnto([], {}, IntToString(page), IntToString(count), sortBy, sortDirection)
  }

  /**
   * The tail every paged endpoint shares: the paging asserts, then a GET of
   * `path` with the four paging pairs.
   */
  function Listing(path: string, page: int, count: int, sortBy: string, sortDirection: string,
                   authorization: Option<string>): (r: Result<Get, Violation>)
    ensures r.Success? <==> PagingValid(page, count, sortDirection)
    ensures page < 1 ==> r == Failure(PageBelowOne(page))
    ensures r.Success? ==> r.value == Get(path, PagingPairs(page, count, sortBy, sortDirection), authorization)
  {
    var params := PagingParams(page, count, sortBy, sortDirection);
    :- CheckPaging(page, count, sortDirection);
    Success(Get(path, params, authorization))
  }

  /** The four paging `set` calls made after earlier ones that used none of their names. */
  function PagingOnto(ps: Params, known: set<string>, page: string, count: string, sortBy: string, sortDirection: string): (r: Params)
    requires NamesWithin(ps, known) && known !! PagingNames
    ensures r == ps + RenderedPaging(page, count, sortBy, sortDirection)
  {
    var p2 := SetTwo(ps, known, "page", page, "count", count);
    var r := SetTwo(p2, known + {"page", "count"}, "sortBy", sortBy, "sortDirection", sortDirection);
    AppendPairs(ps, ("page", page), ("count", count), ("sortBy", sortBy), ("sortDirection", sortDirection));
    r
  }

  /** A pair that is sent only when `cond` holds. */
  function OptionalPair(cond: bool, name: string, value: string): (ps: Params)
    ensures Lookup(ps, name) == if cond then Some(value) else None
    ensures NamesWithin(ps, {name})
  {
    if cond then [(name, value)] else []
  }

  /** The pairs of a searchable listing: paging, then query, filters and tags only when non-empty. */
  function SearchPairs(page: int, count: int, sortBy: string, sortDirection: string,
                       query: string, filters: seq<string>, tags: seq<string>): Params {
    PagingPairs(page, count, sortBy, sortDirection)
    + OptionalPair(|query| > 0, "query", query)
    + OptionalPair(|filters| > 0, "filters", Join(filters, ','))
    + OptionalPair(|tags| > 0, "tags", Join(tags, ','))
  }

  /** The `params.set` calls of `getBots`/`getServers`, with the three optional ones guarded. */
  function SearchParams(page: int, count: int, sortBy: string, sortDirection: string,
                        query: string, filters: seq<string>, tags: seq<string>): (ps: Params)
    ensures ps == SearchPairs(page, count, sortBy, sortDirection, query, filters, tags)
  {
    var p0 := PagingParams(page, count, sortBy, sortDirection);
    assert NamesWithin(p0, PagingNames);
    SearchExtras(p0, query, filters, tags)
  }

  /** The three guarded `set` calls after the paging ones. */
  function SearchExtras(ps: Params, query: string, filters: seq<string>, tags: seq<string>): (r: Params)
    requires NamesWithin(ps, PagingNames)
    ensures r == ps + OptionalPair(|query| > 0, "query", query)
                    + OptionalPair(|filters| > 0, "filters", Join(filters, ','))
                    + OptionalPair(|tags| > 0, "tags", Join(tags, ','))
  {
    var p1 := SetWhen(ps, |query| > 0, "query", query, PagingNames);
    var p2 := SetWhen(p1, |filters| > 0, "filters", Join(filters, ','), PagingNames + {"query"});
    SetWhen(p2, |tags| > 0, "tags", Join(tags, ','), PagingNames + {"query", "filters"})
  }

  /** The two pairs an analytics call sends. */
  function WindowPairs(from: int, to: int): Params {
    [("from", IntToString(from)), ("to", IntToString(to))]
  }

  /** The `params.set` calls of an analytics call. */
  function WindowParams(from: int, to: int): (ps: Params)
    ensures ps == WindowPairs(from, to)
  {
    Set(Set([], "from", IntToString(from)), "to", IntToString(to))
  }

  /** The value of a pair whose name occurs nowhere before it. */
  lemma LookupAt(ps: Params, i: nat)
    requires i < |ps|
    requires forall j | 0 <= j < i :: ps[j].0 != ps[i].0
    ensures Lookup(ps, ps[i].0) == Some(ps[i].1)
  {
    if i > 0 {
      LookupAt(ps[1..], i - 1);
    }
  }

  /** A pair whose name occurs nowhere before it, holding a rendered integer, decodes to it. */
  lemma DecodesAt(ps: Params, i: nat, n: int)
    requires i < |ps| && ps[i].1 == IntToString(n)
    requires forall j | 0 <= j < i :: ps[j].0 != ps[i].0
    ensures DecodesTo(ps, ps[i].0, n)
  {
    LookupAt(ps, i);
    IntToStringRoundTrip(n);
  }

  /** The paging arguments read back from the query: the server sees what the caller passed. */
  lemma PagingPairsDecode(page: int, count: int, sortBy: string, sortDirection: string)
    ensures Names(PagingPairs(page, count, sortBy, sortDirection)) ==
            ["page", "count", "sortBy", "sortDirection"]
    ensures DecodesTo(PagingPairs(page, count, sortBy, sortDirection), "page", page)
    ensures DecodesTo(PagingPairs(page, count, sortBy, sortDirection), "count", count)
    ensures Lookup(PagingPairs(page, count, sortBy, sortDirection), "sortBy") == Some(sortBy)
    ensures Lookup(PagingPairs(page, count, sortBy, sortDirection), "sortDirection") == Some(sortDirection)
  {
    RenderedPagingLookups(IntToString(page), IntToString(count), sortBy, sortDirection);
    IntToStringRoundTrip(page);
    IntToStringRoundTrip(count);
  }

  lemma RenderedPagingLookups(page: string, count: string, sortBy: string, sortDirection: string)
    ensures Lookup(RenderedPaging(page, count, sortBy, sortDirection), "page") == Some(page)
    ensures Lookup(RenderedPaging(page, count, sortBy, sortDirection), "count") == Some(count)
    ensures Lookup(RenderedPaging(page, count, sortBy, sortDirection), "sortBy") == Some(sortBy)
    ensures Lookup(RenderedPaging(page, count, sortBy, sortDirection), "sortDirection") == Some(sortDirection)
  {
    LookupFour("page", page, "count", count, "sortBy", sortBy, "sortDirection", sortDirection);
  }

  /** In a list of four pairs with distinct names, each name finds its own value. */
  lemma LookupFour(n1: string, v1: string, n2: string, v2: string, n3: string, v3: string, n4: string, v4: string)
    requires n1 != n2 && n1 != n3 && n1 != n4 && n2 != n3 && n2 != n4 && n3 != n4
    ensures Lookup([(n1, v1), (n2, v2), (n3, v3), (n4, v4)], n1) == Some(v1)
    ensures Lookup([(n1, v1), (n2, v2), (n3, v3), (n4, v4)], n2) == Some(v2)
    ensures Lookup([(n1, v1), (n2, v2), (n3, v3), (n4, v4)], n3) == Some(v3)
    ensures Lookup([(n1, v1), (n2, v2), (n3, v3), (n4, v4)], n4) == Some(v4)
  {
    var t4 := [(n4, v4)];
    var t3 := [(n3, v3)] + t4;
    var t2 := [(n2, v2)] + t3;
    assert [(n1, v1), (n2, v2), (n3, v3), (n4, v4)] == [(n1, v1)] + t2;
    LookupCons((n1, v1), t2, n1);
    LookupCons((n1, v1), t2, n2);
    LookupCons((n2, v2), t3, n2);
    LookupCons((n1, v1), t2, n3);
    LookupCons((n2, v2), t3, n3);
    LookupCons((n3, v3), t4, n3);
    LookupCons((n1, v1), t2, n4);
    LookupCons((n2, v2), t3, n4);
    LookupCons((n3, v3), t4, n4);
    LookupCons((n4, v4), [], n4);
  }

  /** Concatenating lists whose names lie in two sets gives a list whose names lie in their union. */
  lemma NamesWithinConcat(a: Params, b: Params, aNames: set<string>, bNames: set<string>)
    requires NamesWithin(a, aNames) && NamesWithin(b, bNames)
    ensures NamesWithin(a + b, aNames + bNames)
  {
  }

  /** An optional pair after parts that cannot hold its name decides what `get` finds, whatever follows. */
  lemma LookupOptionalAfter(a: Params, cond: bool, name: string, value: string, t: Params, aNames: set<string>, tNames: set<string>)
    requires NamesWithin(a, aNames) && name !in aNames
    requires NamesWithin(t, tNames) && name !in tNames
    ensures Lookup(a + OptionalPair(cond, name, value) + t, name) == if cond then Some(value) else None
  {
    var o := OptionalPair(cond, name, value);
    LookupAbsent(a, name, aNames);
    LookupAbsent(t, name, tNames);
    LookupConcat(a, o, name);
    LookupConcat(a + o, t, name);
  }

  lemma PagingNamesWithin(page: int, count: int, sortBy: string, sortDirection: string)
    ensures NamesWithin(PagingPairs(page, count, sortBy, sortDirection), PagingNames)
  {
  }

  /**
   * Three optional pairs with distinct names, after a list that holds none of
   * them, read back as what was passed, whatever their names and values are.
   */
  lemma OptionalsDecode(p: Params, known: set<string>, n1: string, c1: bool, v1: string,
                        n2: string, c2: bool, v2: string, n3: string, c3: bool, v3: string)
    requires NamesWithin(p, known) && n1 !in known && n2 !in known && n3 !in known
    requires n1 != n2 && n1 != n3 && n2 != n3
    ensures var ps := p + OptionalPair(c1, n1, v1) + OptionalPair(c2, n2, v2) + OptionalPair(c3, n3, v3);
            && Lookup(ps, n1) == (if c1 then Some(v1) else None)
            && Lookup(ps, n2) == (if c2 then Some(v2) else None)
            && Lookup(ps, n3) == (if c3 then Some(v3) else None)
  {
    var o1 := OptionalPair(c1, n1, v1);
    var o2 := OptionalPair(c2, n2, v2);
    var o3 := OptionalPair(c3, n3, v3);
    NamesWithinConcat(o2, o3, {n2}, {n3});
    LookupOptionalAfter(p, c1, n1, v1, o2 + o3, known, {n2, n3});
    assert p + o1 + (o2 + o3) == p + o1 + o2 + o3;
    NamesWithinConcat(p, o1, known, {n1});
    LookupOptionalAfter(p + o1, c2, n2, v2, o3, known + {n1}, {n3});
    NamesWithinConcat(p + o1, o2, known + {n1}, {n2});
    LookupOptionalAfter(p + o1 + o2, c3, n3, v3, [], known + {n1} + {n2}, {});
    assert p + o1 + o2 + o3 + [] == p + o1 + o2 + o3;
  }

  /**
   * The optional arguments of a searchable listing read back from the query:
   * each is there exactly when the caller passed something non-empty, and the
   * lists come back comma-joined.
   */
  lemma SearchPairsDecode(page: int, count: int, sortBy: string, sortDirection: string,
                          query: string, filters: seq<string>, tags: seq<string>)
    ensures var ps := SearchPairs(page, count, sortBy, sortDirection, query, filters, tags);
            && Lookup(ps, "query") == (if |query| > 0 then Some(query) else None)
            && Lookup(ps, "filters") == (if |filters| > 0 then Some(Join(filters, ',')) else None)
            && Lookup(ps, "tags") == (if |tags| > 0 then Some(Join(tags, ',')) else None)
  {
    PagingNamesWithin(page, count, sortBy, sortDirection);
    OptionalsDecode(PagingPairs(page, count, sortBy, sortDirection), PagingNames,
                    "query", |query| > 0, query, "filters", |filters| > 0, Join(filters, ','),
                    "tags", |tags| > 0, Join(tags, ','));
  }

  /** The paging arguments of a searchable listing read back as passed, whatever follows them. */
  lemma SearchPairsPaging(page: int, count: int, sortBy: string, sortDirection: string,
                          query: string, filters: seq<string>, tags: seq<string>)
    ensures DecodesTo(SearchPairs(page, count, sortBy, sortDirection, query, filters, tags), "page", page)
    ensures DecodesTo(SearchPairs(page, count, sortBy, sortDirection, query, filters, tags), "count", count)
    ensures Lookup(SearchPairs(page, count, sortBy, sortDirection, query, filters, tags), "sortBy") == Some(sortBy)
    ensures Lookup(SearchPairs(page, count, sortBy, sortDirection, query, filters, tags), "sortDirection") == Some(sortDirection)
  {
    var p := PagingPairs(page, count, sortBy, sortDirection);
    var o1 := OptionalPair(|query| > 0, "query", query);
    var o2 := OptionalPair(|filters| > 0, "filters", Join(filters, ','));
    var o3 := OptionalPair(|tags| > 0, "tags", Join(tags, ','));
    PagingPairsDecode(page, count, sortBy, sortDirection);
    LookupFirstOfFour(p, o1, o2, o3, "page");
    LookupFirstOfFour(p, o1, o2, o3, "count");
    LookupFirstOfFour(p, o1, o2, o3, "sortBy");
    LookupFirstOfFour(p, o1, o2, o3, "sortDirection");
  }

  /** A name the first part carries is found there, whatever three parts follow. */
  lemma LookupFirstOfFour(p: Params, o1: Params, o2: Params, o3: Params, name: string)
    requires Lookup(p, name).Some?
    ensures Lookup(p + o1 + o2 + o3, name) == Lookup(p, name)
  {
    assert p + o1 + o2 + o3 == p + (o1 + o2 + o3);
    LookupConcat(p, o1 + o2 + o3, name);
  }

  /** A name that no pair carries is not found. */
  lemma LookupAbsent(ps: Params, name: string, known: set<string>)
    requires NamesWithin(ps, known) && name !in known
    ensures Lookup(ps, name).None?
  {
  }

  /** The window read back from the query. */
  lemma WindowPairsDecode(from: int, to: int)
    ensures Names(WindowPairs(from, to)) == ["from", "to"]
    ensures DecodesTo(WindowPairs(from, to), "from", from)
    ensures DecodesTo(WindowPairs(from, to), "to", to)
  {
    var ps := WindowPairs(from, to);
    DecodesAt(ps, 0, from);
    DecodesAt(ps, 1, to);
  }

  /** The query carries `name` and its value reads back as the integer `n`. */
  predicate DecodesTo(ps: Params, name: string, n: int) {
    Lookup(ps, name).Some? && ParseInt(Lookup(ps, name).value) == Some(n)
  }

  /** Every requested filter is on the call's allow-list. */
  predicate FiltersAllowed(filters: seq<string>, allowed: set<string>) {
    forall i | 0 <= i < |filters| :: filters[i] in allowed
  }

  /** `filters.find((f) => !allowed.includes(f))`: the first filter off the allow-list. */
  function FirstDisallowed(filters: seq<string>, allowed: set<string>): (r: Option<string>)
    ensures r.None? <==> FiltersAllowed(filters, allowed)
    ensures r.Some? ==> r.value !in allowed && r.value in filters
    ensures r.Some? ==> exists i | 0 <= i < |filters| :: filters[i] == r.value && FiltersAllowed(filters[..i], allowed)
    decreases |filters|
  {
    if |filters| == 0 then None
    else if filters[0] !in allowed then
      assert filters[0] == filters[0] && FiltersAllowed(filters[..0], allowed);
      Some(filters[0])
    else
      var r := FirstDisallowed(filters[1..], allowed);
      if r.Some? then
        var i :| 0 <= i < |filters[1..]| && filters[1..][i] == r.value && FiltersAllowed(filters[1..][..i], allowed);
        assert filters[..i + 1] == [filters[0]] + filters[1..][..i];
        assert filters[i + 1] == r.value && FiltersAllowed(filters[..i + 1], allowed);
        r
      else r
  }

  /**
   * The filter assert as the source writes it, `assert(!filters.find(...))`:
   * it passes when `find` returns a falsy value, which happens both when no
   * filter is disallowed and when the first disallowed one is the empty string.
   */
  function CheckFiltersAsWritten(filters: seq<string>, allowed: set<string>): Outcome<Violation> {
    match FirstDisallowed(filters, allowed)
    case None => Pass
    case Some(f) => if f == "" then Pass else Fail(FilterNotAllowed(f))
  }

  /** The filter assert as intended: it fails on the first filter off the allow-list. */
  function CheckFilters(filters: seq<string>, allowed: set<string>): (r: Outcome<Violation>)
    ensures r.Pass? <==> FiltersAllowed(filters, allowed)
    ensures r.Fail? ==> r.error.FilterNotAllowed? && r.error.filter !in allowed && r.error.filter in filters
  {
    match FirstDisallowed(filters, allowed)
    case None => Pass
    case Some(f) => Fail(FilterNotAllowed(f))
  }

  /**
   * The check as written lets a filter list through that is not on the
   * allow-list exactly when its first offending entry is `""`, e.g. `[""]`
   * or `["", "bogus"]`; on every other list the two checks agree.
   */
  lemma EmptyFilterSlipsThrough(filters: seq<string>, allowed: set<string>)
    ensures CheckFiltersAsWritten(filters, allowed).Pass? && !FiltersAllowed(filters, allowed)
            <==> FirstDisallowed(filters, allowed) == Some("")
    ensures FirstDisallowed(filters, allowed) != Some("") ==>
              CheckFiltersAsWritten(filters, allowed) == CheckFilters(filters, allowed)
  {
  }

  /** The two checks agree on every list whose entries are all non-empty. */
  lemma CheckFiltersAgree(filters: seq<string>, allowed: set<string>)
    requires forall i | 0 <= i < |filters| :: filters[i] != ""
    ensures CheckFiltersAsWritten(filters, allowed) == CheckFilters(filters, allowed)
  {
  }

  /** An update-form field that, when present, must be a non-empty string. */
  function CheckNonEmptyField(field: string, value: Option<string>): Outcome<Violation> {
    if value.Some? && |value.value| == 0 then Fail(FieldEmpty(field)) else Pass
  }

  /** An update-form field that, when present, must be `null` or a non-empty string. */
  function CheckNullableNonEmpty(field: string, value: Option<Nullable<string>>): Outcome<Violation> {
    if value.Some? && value.value.NonNull? && |value.value.value| == 0 then Fail(FieldEmpty(field)) else Pass
  }

  predicate NullOrNonEmpty(value: Option<Nullable<string>>) {
    value.Some? && value.value.NonNull? ==> |value.value.value| > 0
  }

  /** 1 for a field present in an update form, 0 for an absent one. */
  function Present<T>(field: Option<T>): nat {
    if field.Some? then 1 else 0
  }
}
