/** What processing one item does against a library client: one call whose
    reply becomes the item's response, a "return all" listing, one bounded
    list call, nothing at all (the response stays `{}`), or an error thrown
    before any call. Every library-backed node's operations are specified as
    one of these. */
module Effects {
  import opened Json
  import opened Host
  import Paging

  datatype Effect =
    | Single(call: Call)
    | ListAll(filters: Value, pageSize: Value)
    | ListOne(filters: Value, page: Value, pageSize: Value)
    | Nothing
    | Throw(message: string)

  /** Starting from the calls `before`, `client` carried out `e` and `r` is the
      item's response. */
  ghost predicate Did(client: ApiClient, before: seq<Call>, e: Effect, r: Reply)
    reads client
  {
    Carried(client, before, client.calls, e, r)
  }

  /** `Did`, with the calls made up to the end given as `after`: a fact about
      the client's replies that later calls leave true. */
  ghost predicate Carried(client: ApiClient, before: seq<Call>, after: seq<Call>, e: Effect, r: Reply)
  {
    match e
    case Single(c) => after == before + [c] && r == client.answer(|before|, c)
    case ListAll(filters, pageSize) => Paging.Listed(client, before, after, filters, pageSize, r)
    case ListOne(filters, page, pageSize) =>
      after == before + [ListCall(filters, page, pageSize)] && r == Paging.AsReply(client.pages(|before|, ListCall(filters, page, pageSize)))
    case Nothing => after == before && r == Ok(Obj(map[]))
    case Throw(m) => after == before && r == Fail(m)
  }

  /** The calls an effect adds: exactly its own call for a single call, one
      or more `list` calls, the first for page 1, for a listing, and none when
      nothing is done or an error is thrown; the earlier calls are kept. */
  lemma CallsAdded(client: ApiClient, before: seq<Call>, e: Effect, r: Reply)
    requires Did(client, before, e, r)
    ensures |before| <= |client.calls| && client.calls[..|before|] == before
    ensures e.Single? ==> client.calls[|before|..] == [e.call]
    ensures e.ListOne? ==> client.calls[|before|..] == [ListCall(e.filters, e.page, e.pageSize)]
    ensures e.ListAll? ==>
      && |client.calls| > |before|
      && client.calls[|before|] == ListCall(e.filters, Num(1), e.pageSize)
      && forall k :: |before| <= k < |client.calls| ==> client.calls[k].name == "list"
    ensures e.Nothing? || e.Throw? ==> client.calls == before
    ensures e.Throw? ==> r.Fail?
  {
    if e.ListAll? {
      var n := |client.calls| - |before|;
      forall k | |before| <= k < |client.calls|
        ensures client.calls[k].name == "list"
      {
        ListCallsAt(e.filters, e.pageSize, n, k - |before|);
      }
      ListCallsAt(e.filters, e.pageSize, n, 0);
    }
  }

  /** The `j`-th of the list calls for pages 1 .. n asks for page `j + 1`. */
  lemma {:induction false} ListCallsAt(filters: Value, pageSize: Value, n: nat, j: nat)
    requires j < n
    ensures Paging.ListCalls(filters, pageSize, n)[j] == ListCall(filters, Num(j + 1), pageSize)
  {
    if j < n - 1 {
      ListCallsAt(filters, pageSize, n - 1, j);
    }
  }

  // ---------------------------------------------------------------------------
  // The two listings the nodes share

  /** The listing of the nodes without filters: `client.list({}, { page, pageSize })`,
      whose bounded form asks for page 1. */
  function UnfilteredList(item: Item): Effect
  {
    if WantsAll(item) then ListAll(Obj(map[]), PageSize(item)) else ListOne(Obj(map[]), Num(1), PageSize(item))
  }

  /** The listing of the nodes that pass their filters on unchanged:
      `client.list({ ...filters }, { page, pageSize: params.pageSize })` with
      `params = { page: 1, pageSize, ...filters }`, so a `pageSize` filter sets
      the page size; the bounded form asks for page 1 whatever the filters say. */
  function FilteredList(item: Item): Effect
  {
    var filters, pageSize := Obj(Collection(item, "filters")), ListParams(item)["pageSize"];
    if WantsAll(item) then ListAll(filters, pageSize) else ListOne(filters, Num(1), pageSize)
  }

  /** "Return all" lists every page, 100 at a time; otherwise one call for
      page 1 of `limit` items (50 by default). No filter is ever sent. */
  lemma UnfilteredListShape(item: Item)
    ensures UnfilteredList(item).ListAll? <==> WantsAll(item)
    ensures UnfilteredList(item).ListAll? || UnfilteredList(item).ListOne?
    ensures UnfilteredList(item).filters == Obj(map[])
    ensures WantsAll(item) ==> UnfilteredList(item).pageSize == Num(100)
    ensures !WantsAll(item) ==> UnfilteredList(item).page == Num(1) && UnfilteredList(item).pageSize == Param(item, "limit", Num(50))
  {
  }

  /** The filters go to the client exactly as given, in both forms; the page
      size is the `pageSize` filter when there is one, else 100 for "return
      all" and `limit` (50 by default) otherwise; a `page` filter is ignored. */
  lemma FilteredListShape(item: Item)
    ensures FilteredList(item).ListAll? <==> WantsAll(item)
    ensures FilteredList(item).ListAll? || FilteredList(item).ListOne?
    ensures FilteredList(item).filters == Obj(Collection(item, "filters"))
    ensures var filters := Collection(item, "filters");
      && ("pageSize" in filters ==> FilteredList(item).pageSize == filters["pageSize"])
      && ("pageSize" !in filters && WantsAll(item) ==> FilteredList(item).pageSize == Num(100))
      && ("pageSize" !in filters && !WantsAll(item) ==> FilteredList(item).pageSize == Param(item, "limit", Num(50)))
    ensures !WantsAll(item) ==> FilteredList(item).page == Num(1)
  {
  }

  /** Carries out the unfiltered listing. */
  method ListUnfiltered(client: ApiClient, item: Item) returns (r: Reply)
    requires client.ListingsEnd()
    modifies client
    ensures Did(client, old(client.calls), UnfilteredList(item), r)
  {
    var returnAll := Truthy(Param(item, "returnAll", Bool(false)));
    var pageSize := if returnAll then Num(100) else Param(item, "limit", Num(50));
    if returnAll {
      r := Paging.ReturnAll(client, Obj(map[]), pageSize);
    } else {
      r := Paging.FirstPage(client, Obj(map[]), Num(1), pageSize);
    }
  }

  /** Carries out the filtered listing. */
  method ListFiltered(client: ApiClient, item: Item) returns (r: Reply)
    requires client.ListingsEnd()
    modifies client
    ensures Did(client, old(client.calls), FilteredList(item), r)
  {
    var returnAll := Truthy(Param(item, "returnAll", Bool(false)));
    var filters := Collection(item, "filters");
    var params := map["page" := Num(1), "pageSize" := if returnAll then Num(100) else Param(item, "limit", Num(50))] + filters;
    if returnAll {
      r := Paging.ReturnAll(client, Obj(filters), params["pageSize"]);
    } else {
      r := Paging.FirstPage(client, Obj(filters), Num(1), params["pageSize"]);
    }
  }
}
