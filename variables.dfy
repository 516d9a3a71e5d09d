/** The HTML-hosting variables node: create, get, update, delete and list
    page variables through the variables client. */
module VariablesNode {
  import opened Json
  import opened Host
  import opened Effects

  /** The variable's body `{ name, key, value }`. */
  function Body(item: Item): map<string, Value>
  {
    map["name" := Param(item, "name", Undefined), "key" := Param(item, "key", Undefined), "value" := Param(item, "value", Undefined)]
  }

  function Id(item: Item): Value { Param(item, "variableId", Undefined) }

  /** Reference definition of what an item does for `operation`. */
  function Plan(operation: string, item: Item): Effect
  {
    if operation == "create" then Single(Call("create", [Obj(Body(item))]))
    else if operation == "get" then Single(Call("get", [Id(item)]))
    else if operation == "update" then Single(Call("update", [Id(item), Obj(Body(item))]))
    else if operation == "delete" then Single(Call("delete", [Id(item)]))
    else if operation == "list" then FilteredList(item)
    else Nothing
  }

  /** Create always sends exactly the name, key and value, whatever they are:
      nothing is omitted and the key is not checked for its prefix; update
      sends the same body with the variable id passed first and on its own. */
  lemma Bodies(item: Item)
    ensures Plan("create", item).Single? && Plan("create", item).call.args == [Obj(Body(item))]
    ensures Body(item).Keys == {"name", "key", "value"}
    ensures Body(item)["key"] == Param(item, "key", Undefined)
    ensures Plan("update", item).call.args == [Id(item)] + Plan("create", item).call.args
    ensures "variableId" !in Body(item) && "id" !in Body(item)
  {
  }

  /** get and delete each make exactly one call with the variable id; the
      listing is the shared filtered one; unknown operations make no call and
      emit `{}`. */
  lemma Operations(operation: string, item: Item)
    ensures Plan("get", item) == Single(Call("get", [Id(item)]))
    ensures Plan("delete", item) == Single(Call("delete", [Id(item)]))
    ensures Plan("list", item) == FilteredList(item)
    ensures Plan(operation, item).Nothing? <==> operation !in {"create", "get", "update", "delete", "list"}
    ensures !Plan(operation, item).Throw?
  {
    FilteredListShape(item);
  }

  /** Processes an item for `operation`, as the node's loop body does before
      its error handling. */
  method Process(client: ApiClient, operation: string, item: Item) returns (r: Reply)
    requires client.ListingsEnd()
    modifies client
    ensures Did(client, old(client.calls), Plan(operation, item), r)
  {
    r := Ok(Obj(map[]));
    if operation == "create" {
      var name, key, value := Param(item, "name", Undefined), Param(item, "key", Undefined), Param(item, "value", Undefined);
      r := client.Invoke(Call("create", [Obj(map["name" := name, "key" := key, "value" := value])]));
    } else if operation == "get" {
      r := client.Invoke(Call("get", [Param(item, "variableId", Undefined)]));
    } else if operation == "update" {
      var variableId := Param(item, "variableId", Undefined);
      var name, key, value := Param(item, "name", Undefined), Param(item, "key", Undefined), Param(item, "value", Undefined);
      r := client.Invoke(Call("update", [variableId, Obj(map["name" := name, "key" := key, "value" := value])]));
    } else if operation == "delete" {
      r := client.Invoke(Call("delete", [Param(item, "variableId", Undefined)]));
    } else if operation == "list" {
      r := ListFiltered(client, item);
    }
  }
}
