/** The form-submission node: get a submission, its neighbours, delete it, or
    list submissions through the form-submission client. */
module FormSubmissionNode {
  import opened Json
  import opened Host
  import opened Effects

  /** The operations the node offers. */
  const Offered: set<string> := {"delete", "get", "getAdjacent", "list"}

  function Id(item: Item): Value { Param(item, "submissionId", Undefined) }

  /** Reference definition of what an item does for `operation`. */
  function Plan(operation: string, item: Item): Effect
  {
    if operation == "get" then Single(Call("get", [Id(item)]))
    else if operation == "getAdjacent" then Single(Call("getNextPrevious", [Id(item)]))
    else if operation == "delete" then Single(Call("delete", [Id(item)]))
    else if operation == "list" then FilteredList(item)
    else Nothing
  }

  /** get, getAdjacent and delete each make exactly one call, keyed by the
      submission id. */
  lemma ByIdOperations(item: Item)
    ensures Plan("get", item) == Single(Call("get", [Id(item)]))
    ensures Plan("getAdjacent", item) == Single(Call("getNextPrevious", [Id(item)]))
    ensures Plan("delete", item) == Single(Call("delete", [Id(item)]))
  {
  }

  /** Exactly the offered operations do something: any other operation makes
      no call and emits `{}`. The listing passes the filters on unchanged, in
      both its forms. */
  lemma Operations(operation: string, item: Item)
    ensures Plan(operation, item).Nothing? <==> operation !in Offered
    ensures !Plan(operation, item).Throw?
    ensures Plan("list", item).filters == Obj(Collection(item, "filters"))
    ensures Plan("list", item).ListAll? <==> WantsAll(item)
  {
    FilteredListShape(item);
  }

  /** Processes an item for `operation`, as the node's loop body does before
      its error handling. */
  method Process(client: ApiClient, operation: string, item: Item) returns (r: Reply)
    requires client.ListingsEnd()
    modifies client
    ensures Did(client, old(client.calls), Plan(operation, item), r)
  {
    r := Ok(Obj(map[]));
    if operation == "get" {
      r := client.Invoke(Call("get", [Param(item, "submissionId", Undefined)]));
    } else if operation == "getAdjacent" {
      r := client.Invoke(Call("getNextPrevious", [Param(item, "submissionId", Undefined)]));
    } else if operation == "delete" {
      r := client.Invoke(Call("delete", [Param(item, "submissionId", Undefined)]));
    } else if operation == "list" {
      r := ListFiltered(client, item);
    }
  }
}
