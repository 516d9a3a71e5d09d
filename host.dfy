/** What a node sees of the workflow runtime: its input items, the parameters
    resolved for each item, and the library client it talks to. */
module Host {
  import opened Json

  /** One input item: the node parameters resolved for it, and the names of the
      binary properties it carries. */
  datatype Item = Item(params: map<string, Value>, binary: set<string>)

  /** `getNodeParameter(name, i, fallback)`: the resolved value, or the fallback
      when the parameter is not set. */
  function Param(item: Item, name: string, fallback: Value): (v: Value)
    ensures name in item.params && item.params[name] != Undefined ==> v == item.params[name]
    ensures name !in item.params || item.params[name] == Undefined ==> v == fallback
  {
    if name in item.params && item.params[name] != Undefined then item.params[name] else fallback
  }

  /** A parameter of the runtime's "collection" kind (an object of optional
      fields, defaulting to `{}`), as a map. */
  function Collection(item: Item, name: string): map<string, Value>
  {
    Spread(Param(item, name, Obj(map[])))
  }

  /** `items[i].binary?.[name]`: the item carries a binary property of that name. */
  predicate HasBinary(item: Item, name: Value)
  {
    name.Str? && name.s in item.binary
  }

  /** `getBinaryDataBuffer(i, name)`: the binary content of item `i`, opaque. */
  function BufferOf(index: nat, name: Value): Value
  {
    Buffer(index, name)
  }

  /** `returnAll ? 100 : getNodeParameter('limit', i, 50)`: the page size a list operation asks for. */
  function PageSize(item: Item): (size: Value)
    ensures Truthy(Param(item, "returnAll", Bool(false))) ==> size == Num(100)
    ensures !Truthy(Param(item, "returnAll", Bool(false))) ==> size == Param(item, "limit", Num(50))
    ensures !Truthy(Param(item, "returnAll", Bool(false))) && "limit" !in item.params ==> size == Num(50)
  {
    if Truthy(Param(item, "returnAll", Bool(false))) then Num(100) else Param(item, "limit", Num(50))
  }

  /** `getNodeParameter('returnAll', i, false)` taken as a condition. */
  predicate WantsAll(item: Item)
  {
    Truthy(Param(item, "returnAll", Bool(false)))
  }

  /** `{ page: 1, pageSize, ...filters }`: the list parameters of the nodes that
      take a filters collection; a filter of the same name overrides the page
      or the page size. */
  function ListParams(item: Item): (params: map<string, Value>)
    ensures "page" in params && "pageSize" in params
    ensures var filters := Collection(item, "filters");
      && (forall k :: k in filters ==> k in params && params[k] == filters[k])
      && (forall k :: k in params && k !in filters ==> k == "page" || k == "pageSize")
      && ("page" !in filters ==> params["page"] == Num(1))
      && ("pageSize" !in filters ==> params["pageSize"] == PageSize(item))
  {
    map["page" := Num(1), "pageSize" := PageSize(item)] + Collection(item, "filters")
  }

  // ---------------------------------------------------------------------------
  // Library clients

  /** One call into a Posty5 client library: the method's name and its arguments. */
  datatype Call = Call(name: string, args: seq<Value>)

  type PageReply = Outcome<seq<Value>>

  /** The pagination argument `{ page, pageSize }` of a list call. */
  function PageArgs(page: Value, pageSize: Value): Value
  {
    Obj(map["page" := page, "pageSize" := pageSize])
  }

  /** `client.list(filters, { page, pageSize })`. */
  function ListCall(filters: Value, page: Value, pageSize: Value): Call
  {
    Call("list", [filters, PageArgs(page, pageSize)])
  }

  /** `result.items.length === pageSize`: the reply is a page that asks for more. */
  predicate Full(reply: PageReply, pageSize: Value)
  {
    reply.Ok? && pageSize == Num(|reply.value|)
  }

  /** `c` was the next call `client` made, after the calls `before`, and `r` is its reply. */
  ghost predicate Invoked(client: ApiClient, before: seq<Call>, c: Call, r: Reply)
    reads client
  {
    client.calls == before + [c] && r == client.answer(|before|, c)
  }

  /** A client library object. The remote service it talks to is an oracle:
      the reply to a call depends on the call and on how many calls came before
      it. Every call is recorded, in order, in `calls`. List calls resolve to a
      page of items, all other calls to a value. */
  class ApiClient {
    var calls: seq<Call>
    const answer: (nat, Call) -> Reply
    const pages: (nat, Call) -> PageReply

    constructor (answer: (nat, Call) -> Reply, pages: (nat, Call) -> PageReply)
      ensures calls == [] && this.answer == answer && this.pages == pages
    {
      calls := [];
      this.answer := answer;
      this.pages := pages;
    }

    /** The reply to the `k`-th page request (page `k + 1`) of a listing whose
        first request is call number `base`. */
    function PageAt(base: nat, filters: Value, pageSize: Value, k: nat): PageReply
    {
      pages(base + k, ListCall(filters, Num(k + 1), pageSize))
    }

    /** A listing started at call number `base` reaches a page that is not full. */
    ghost predicate Ends(base: nat, filters: Value, pageSize: Value)
    {
      exists k: nat :: !Full(PageAt(base, filters, pageSize, k), pageSize)
    }

    /** The service's listings are finite: whatever is listed, and whenever,
        some page eventually comes back short (or fails). */
    ghost predicate ListingsEnd()
    {
      forall base: nat, filters: Value, pageSize: Value :: Ends(base, filters, pageSize)
    }

    /** Calls a library method that resolves to a value. */
    method Invoke(c: Call) returns (r: Reply)
      modifies this
      ensures calls == old(calls) + [c]
      ensures r == answer(|old(calls)|, c)
    {
      r := answer(|calls|, c);
      calls := calls + [c];
    }

    /** `client.list(filters, { page, pageSize })`. */
    method List(filters: Value, page: Value, pageSize: Value) returns (r: PageReply)
      modifies this
      ensures calls == old(calls) + [ListCall(filters, page, pageSize)]
      ensures r == pages(|old(calls)|, ListCall(filters, page, pageSize))
    {
      r := pages(|calls|, ListCall(filters, page, pageSize));
      calls := calls + [ListCall(filters, page, pageSize)];
    }
  }
}
