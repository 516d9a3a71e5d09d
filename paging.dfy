/** The "return all" loop every node runs for its list operation: request pages
    1, 2, ... with a fixed page size, concatenate their items, and stop after the
    first page whose length is not the page size. Written once, over the
    library client, and called by every node with its own filters. */
module Paging {
  import opened Json
  import opened Host

  /** Reference definition: the listing obtained from the replies to pages
      1, 2, ... in order. A failing request fails the listing; a full page asks
      for the next one; the first page that is not full ends it. */
  function Paginate(replies: seq<PageReply>, pageSize: Value): Outcome<seq<Value>>
  {
    if replies == [] then Ok([])
    else match replies[0]
      case Fail(m) => Fail(m)
      case Ok(items) =>
        if pageSize == Num(|items|) then
          match Paginate(replies[1..], pageSize)
          case Ok(rest) => Ok(items + rest)
          case Fail(m) => Fail(m)
        else Ok(items)
  }

  /** The items of a sequence of successful pages, concatenated in page order. */
  function Flatten(replies: seq<PageReply>): seq<Value>
    requires forall k :: 0 <= k < |replies| ==> replies[k].Ok?
  {
    if replies == [] then [] else Flatten(replies[..|replies| - 1]) + replies[|replies| - 1].value
  }

  /** Every reply is a full page. */
  ghost predicate AllFull(replies: seq<PageReply>, pageSize: Value)
  {
    forall k :: 0 <= k < |replies| ==> Full(replies[k], pageSize)
  }

  /** The replies a loop sees when its last page is the first one that is not full. */
  ghost predicate StopsAtLast(replies: seq<PageReply>, pageSize: Value)
  {
    && |replies| >= 1
    && (forall k :: 0 <= k < |replies| - 1 ==> Full(replies[k], pageSize))
    && !Full(replies[|replies| - 1], pageSize)
  }

  /** The list calls for pages 1 .. n. */
  function ListCalls(filters: Value, pageSize: Value, n: nat): (cs: seq<Call>)
    ensures |cs| == n
  {
    if n == 0 then [] else ListCalls(filters, pageSize, n - 1) + [ListCall(filters, Num(n), pageSize)]
  }

  /** The replies to pages 1 .. n of a listing started at call number `base`. */
  function Replies(client: ApiClient, base: nat, filters: Value, pageSize: Value, n: nat): (rs: seq<PageReply>)
    ensures |rs| == n
  {
    if n == 0 then [] else Replies(client, base, filters, pageSize, n - 1) + [client.PageAt(base, filters, pageSize, n - 1)]
  }

  /** The result of a listing in the shape a node emits it: the items as an array. */
  function AsReply(listing: Outcome<seq<Value>>): Reply
  {
    match listing
    case Ok(items) => Ok(Arr(items))
    case Fail(m) => Fail(m)
  }

  /** A loop that ran over full pages and stopped at the first one that is not
      full returns the concatenation of all pages, or the last reply's failure. */
  lemma {:induction false} PaginateStops(replies: seq<PageReply>, pageSize: Value)
    requires StopsAtLast(replies, pageSize)
    ensures var last := replies[|replies| - 1];
      Paginate(replies, pageSize) ==
        if last.Fail? then Fail(last.message)
        else Ok(Flatten(replies[..|replies| - 1]) + last.value)
  {
    var last := replies[|replies| - 1];
    if |replies| == 1 {
      assert replies[..0] == [];
      assert Flatten(replies[..0]) == [];
      assert replies[0] == last;
      if last.Ok? {
        assert !Full(last, pageSize);
        assert Paginate(replies, pageSize) == Ok(last.value);
        assert Flatten(replies[..0]) + last.value == last.value;
      }
    } else {
      var tail := replies[1..];
      assert tail[|tail| - 1] == last;
      assert Full(replies[0], pageSize);
      PaginateStops(tail, pageSize);
      var first := replies[0].value;
      if last.Ok? {
        FlattenCons(replies[..|replies| - 1]);
        assert replies[..|replies| - 1][1..] == tail[..|tail| - 1];
        var middle := Flatten(tail[..|tail| - 1]);
        assert Paginate(tail, pageSize) == Ok(middle + last.value);
        assert Paginate(replies, pageSize) == Ok(first + (middle + last.value));
        assert first + (middle + last.value) == (first + middle) + last.value;
      } else {
        assert Paginate(tail, pageSize) == Fail(last.message);
      }
    }
  }

  /** Flatten peels off from the front as well. */
  lemma {:induction false} FlattenCons(replies: seq<PageReply>)
    requires |replies| >= 1 && forall k :: 0 <= k < |replies| ==> replies[k].Ok?
    ensures Flatten(replies) == replies[0].value + Flatten(replies[1..])
  {
    if |replies| > 1 {
      var init := replies[..|replies| - 1];
      FlattenCons(init);
      assert init[1..] == replies[1..][..|replies| - 2];
    }
  }

  /** Full pages each hold `size` items. */
  lemma {:induction false} FlattenFullLength(replies: seq<PageReply>, size: nat)
    requires forall k :: 0 <= k < |replies| ==> Full(replies[k], Num(size))
    requires forall k :: 0 <= k < |replies| ==> replies[k].Ok?
    ensures |Flatten(replies)| == |replies| * size
  {
    if replies != [] {
      var n := |replies|;
      FlattenFullLength(replies[..n - 1], size);
      assert |replies[n - 1].value| == size;
      assert |Flatten(replies)| == (n - 1) * size + size;
      OneMore(n - 1, size);
    }
  }

  /** The request count of a complete listing: with `total` items and pages of
      `size`, a listing that ends on a short page issues `total / size + 1`
      requests, that is ceil(total / size) requests, plus one extra request for
      an empty last page when `total` is a multiple of `size`. */
  lemma RequestCount(replies: seq<PageReply>, size: nat)
    requires size > 0 && StopsAtLast(replies, Num(size))
    requires replies[|replies| - 1].Ok? && |replies[|replies| - 1].value| < size
    ensures Paginate(replies, Num(size)).Ok?
    ensures var total := |Paginate(replies, Num(size)).value|;
      |replies| == total / size + 1
      && (total % size == 0 <==> replies[|replies| - 1].value == [])
  {
    PaginateStops(replies, Num(size));
    var n := |replies|;
    var full := replies[..n - 1];
    FlattenFullLength(full, size);
    var last := |replies[n - 1].value|;
    var total := (n - 1) * size + last;
    assert |Paginate(replies, Num(size)).value| == total;
    DivisionByPages(n - 1, size, last);
  }

  /** Euclidean division of `pages * size + rest` by `size` when `rest < size`. */
  lemma DivisionByPages(pages: nat, size: nat, rest: nat)
    requires 0 <= rest < size
    ensures (pages * size + rest) / size == pages
    ensures (pages * size + rest) % size == rest
  {
    var t := pages * size + rest;
    var q, r := t / size, t % size;
    assert t == q * size + r && 0 <= r < size;
    if q < pages {
      MultipleAtLeast(pages - q, size);
      assert false;
    } else if q > pages {
      MultipleAtLeast(q - pages, size);
      assert false;
    }
  }

  lemma OneMore(k: nat, size: nat)
    ensures k * size + size == (k + 1) * size
  {
  }

  lemma MultipleAtLeast(k: nat, size: nat)
    requires k >= 1
    ensures k * size >= size
  {
  }

  /** A failing request fails the whole listing, whatever the pages before it held. */
  lemma {:induction false} FailureFailsListing(replies: seq<PageReply>, pageSize: Value)
    requires StopsAtLast(replies, pageSize) && replies[|replies| - 1].Fail?
    ensures Paginate(replies, pageSize) == Fail(replies[|replies| - 1].message)
  {
    PaginateStops(replies, pageSize);
  }

  /** What a "return all" listing did: it issued list calls for pages 1 .. n in
      order, pages 1 .. n-1 came back full, page n did not, and the result is
      the reference listing of those replies. */
  ghost predicate ListedAll(client: ApiClient, before: seq<Call>, filters: Value, pageSize: Value, r: Reply)
    reads client
  {
    Listed(client, before, client.calls, filters, pageSize, r)
  }

  /** `ListedAll`, with the calls made up to the end given as `after`. */
  ghost predicate Listed(client: ApiClient, before: seq<Call>, after: seq<Call>, filters: Value, pageSize: Value, r: Reply)
  {
    && |before| < |after|
    && var n := |after| - |before|;
    && after == before + ListCalls(filters, pageSize, n)
    && StopsAtLast(Replies(client, |before|, filters, pageSize, n), pageSize)
    && r == AsReply(Paginate(Replies(client, |before|, filters, pageSize, n), pageSize))
  }

  /** What a bounded listing did: one list call for the given page, emitting its items. */
  ghost predicate ListedFirst(client: ApiClient, before: seq<Call>, filters: Value, page: Value, pageSize: Value, r: Reply)
    reads client
  {
    && client.calls == before + [ListCall(filters, page, pageSize)]
    && r == AsReply(client.pages(|before|, ListCall(filters, page, pageSize)))
  }

  /** The "return all" loop. */
  method ReturnAll(client: ApiClient, filters: Value, pageSize: Value) returns (r: Reply)
    requires client.ListingsEnd()
    modifies client
    ensures ListedAll(client, old(client.calls), filters, pageSize, r)
  {
    ghost var before := client.calls;
    ghost var bound := EndOf(client, |before|, filters, pageSize);
    var all: seq<Value> := [];
    var page := 1;
    var hasMore := true;
    ghost var replies: seq<PageReply> := [];
    while hasMore
      invariant 1 <= page && replies == Replies(client, |before|, filters, pageSize, page - 1)
      invariant client.calls == before + ListCalls(filters, pageSize, page - 1)
      invariant page <= bound + 2 && (hasMore ==> page - 1 <= bound)
      invariant Progress(replies, all, hasMore, pageSize)
      decreases bound + 2 - page
    {
      var result := FetchPage(client, before, filters, pageSize, page);
      Advance(client, |before|, filters, pageSize, replies, all, result, bound);
      replies := replies + [result];
      if result.Fail? {
        r := Fail(result.message);
        Concluded(client, before, filters, pageSize, replies, r);
        return;
      }
      all := all + result.value;
      hasMore := pageSize == Num(|result.value|);
      page := page + 1;
    }
    r := Ok(Arr(all));
    Concluded(client, before, filters, pageSize, replies, r);
  }

  /** What one more page tells the loop: the replies grow by it, the loop's
      knowledge carries over, and a full page cannot be the one at which the
      listing is known to end. */
  lemma Advance(client: ApiClient, base: nat, filters: Value, pageSize: Value, replies: seq<PageReply>, all: seq<Value>,
                result: PageReply, bound: nat)
    requires replies == Replies(client, base, filters, pageSize, |replies|)
    requires result == client.PageAt(base, filters, pageSize, |replies|)
    requires !Full(client.PageAt(base, filters, pageSize, bound), pageSize) && |replies| <= bound
    requires Progress(replies, all, true, pageSize)
    ensures replies + [result] == Replies(client, base, filters, pageSize, |replies| + 1)
    ensures result.Ok? ==> Progress(replies + [result], all + result.value, pageSize == Num(|result.value|), pageSize)
    ensures result.Fail? ==>
      && StopsAtLast(replies + [result], pageSize)
      && Paginate(replies + [result], pageSize) == Fail(result.message)
    ensures Full(result, pageSize) ==> |replies| < bound
  {
    NextPage(replies, all, result, pageSize);
    RepliesStep(client, base, filters, pageSize, |replies|);
  }

  /** A page at which a listing ends. */
  ghost function EndOf(client: ApiClient, base: nat, filters: Value, pageSize: Value): (k: nat)
    requires client.ListingsEnd()
    ensures !Full(client.PageAt(base, filters, pageSize, k), pageSize)
  {
    assert client.Ends(base, filters, pageSize);
    var k: nat :| !Full(client.PageAt(base, filters, pageSize, k), pageSize); k
  }

  /** Requests page `page` of a listing whose earlier pages were requested in order. */
  method FetchPage(client: ApiClient, ghost before: seq<Call>, filters: Value, pageSize: Value, page: nat)
    returns (result: PageReply)
    requires 1 <= page && client.calls == before + ListCalls(filters, pageSize, page - 1)
    modifies client
    ensures client.calls == before + ListCalls(filters, pageSize, page)
    ensures result == client.PageAt(|before|, filters, pageSize, page - 1)
  {
    result := client.List(filters, Num(page), pageSize);
    ListCallsStep(filters, pageSize, page - 1);
  }

  lemma RepliesStep(client: ApiClient, base: nat, filters: Value, pageSize: Value, n: nat)
    ensures Replies(client, base, filters, pageSize, n) + [client.PageAt(base, filters, pageSize, n)]
      == Replies(client, base, filters, pageSize, n + 1)
  {
  }

  /** The facts a finished loop holds, rephrased as ListedAll. */
  lemma Concluded(client: ApiClient, before: seq<Call>, filters: Value, pageSize: Value, replies: seq<PageReply>, r: Reply)
    requires replies == Replies(client, |before|, filters, pageSize, |replies|)
    requires client.calls == before + ListCalls(filters, pageSize, |replies|)
    requires StopsAtLast(replies, pageSize)
    requires r == AsReply(Paginate(replies, pageSize))
    ensures ListedAll(client, before, filters, pageSize, r)
  {
    assert |client.calls| - |before| == |replies|;
  }

  /** The loop's knowledge after the replies `done`: while more pages are
      wanted, all replies were full pages whose items make up `all`; once not,
      the replies end at the first page that is not full and `all` is their
      reference listing. */
  ghost predicate Progress(done: seq<PageReply>, all: seq<Value>, hasMore: bool, pageSize: Value)
  {
    && (hasMore ==> AllFull(done, pageSize) && all == Flatten(done))
    && (!hasMore ==> StopsAtLast(done, pageSize) && Paginate(done, pageSize) == Ok(all))
  }

  /** One more reply: a full page extends the run of full pages and their
      items; any other reply ends the listing. */
  lemma NextPage(done: seq<PageReply>, all: seq<Value>, result: PageReply, pageSize: Value)
    requires Progress(done, all, true, pageSize)
    ensures result.Ok? ==> Progress(done + [result], all + result.value, pageSize == Num(|result.value|), pageSize)
    ensures result.Fail? ==>
      && StopsAtLast(done + [result], pageSize)
      && Paginate(done + [result], pageSize) == Fail(result.message)
  {
    var now := done + [result];
    assert now[..|now| - 1] == done;
    if !Full(result, pageSize) {
      PaginateStops(now, pageSize);
    }
  }

  lemma ListCallsStep(filters: Value, pageSize: Value, n: nat)
    ensures ListCalls(filters, pageSize, n) + [ListCall(filters, Num(n + 1), pageSize)] == ListCalls(filters, pageSize, n + 1)
  {
  }

  /** The bounded listing: a single list call, normally for page 1. */
  method FirstPage(client: ApiClient, filters: Value, page: Value, pageSize: Value) returns (r: Reply)
    modifies client
    ensures ListedFirst(client, old(client.calls), filters, page, pageSize, r)
  {
    var result := client.List(filters, page, pageSize);
    r := AsReply(result);
  }
}
