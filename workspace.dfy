/** The social-publisher workspace node: create, get, update, delete and list
    workspaces through the workspace client. */
module WorkspaceNode {
  import opened Json
  import opened Host
  import opened Effects

  /** The workspace parameters: the name, and the description when truthy. */
  function Params(item: Item): map<string, Value>
  {
    Put(map["name" := Param(item, "name", Undefined)], IfTruthy("description", Param(item, "description", Str(""))))
  }

  /** The logo: a `logo.png` file of the binary property named by `logo`,
      when that name is not empty and the item carries it; else no file. */
  function Logo(item: Item, i: nat): Value
  {
    var property := Param(item, "logo", Str(""));
    if Truthy(property) && HasBinary(item, property) then File(BufferOf(i, property), Str("logo.png"), "image/png")
    else Undefined
  }

  function Id(item: Item): Value { Param(item, "workspaceId", Undefined) }

  /** Reference definition of what item `i` does for `operation`. */
  function Plan(operation: string, item: Item, i: nat): Effect
  {
    if operation == "create" then Single(Call("create", [Obj(Params(item)), Logo(item, i)]))
    else if operation == "get" then Single(Call("get", [Id(item)]))
    else if operation == "update" then Single(Call("update", [Id(item), Obj(Params(item)), Logo(item, i)]))
    else if operation == "delete" then Single(Call("delete", [Id(item)]))
    else if operation == "list" then UnfilteredList(item)
    else Nothing
  }

  /** The parameters are the name and, exactly when it is truthy, the description. */
  lemma ParamsShape(item: Item)
    ensures var p, description := Params(item), Param(item, "description", Str(""));
      && p.Keys == {"name"} + (if Truthy(description) then {"description"} else {})
      && p["name"] == Param(item, "name", Undefined)
      && (Truthy(description) ==> p["description"] == description)
  {
    PutSlot(map["name" := Param(item, "name", Undefined)], IfTruthy("description", Param(item, "description", Str(""))));
  }

  /** A logo file is attached exactly when the logo property name is not empty
      and the item carries that binary property, and it is then a PNG named
      `logo.png`. */
  lemma LogoRule(item: Item, i: nat)
    ensures var property := Param(item, "logo", Str(""));
      && (Logo(item, i) != Undefined <==> property.Str? && property.s != "" && property.s in item.binary)
      && (Logo(item, i) != Undefined ==> Logo(item, i) == File(BufferOf(i, property), Str("logo.png"), "image/png"))
  {
  }

  /** Update sends what create sends, with the workspace id passed first and
      on its own; the id is never one of the parameters. */
  lemma CreateAndUpdate(item: Item, i: nat)
    ensures Plan("update", item, i).call.args == [Id(item)] + Plan("create", item, i).call.args
    ensures "workspaceId" !in Params(item) && "id" !in Params(item)
  {
    ParamsShape(item);
  }

  /** The listing never filters: 100 per page for "return all", else one
      page-1 call of `limit` items (50 by default). Unknown operations make no
      call and emit `{}`. */
  lemma Operations(operation: string, item: Item, i: nat)
    ensures Plan("list", item, i) == UnfilteredList(item)
    ensures Plan("list", item, i).filters == Obj(map[])
    ensures Plan(operation, item, i).Nothing? <==> operation !in {"create", "get", "update", "delete", "list"}
    ensures !Plan(operation, item, i).Throw?
  {
    UnfilteredListShape(item);
  }

  /** Processes item `i` for `operation`, as the node's loop body does before
      its error handling. */
  method Process(client: ApiClient, operation: string, item: Item, i: nat) returns (r: Reply)
    requires client.ListingsEnd()
    modifies client
    ensures Did(client, old(client.calls), Plan(operation, item, i), r)
  {
    r := Ok(Obj(map[]));
    if operation == "create" {
      var params := Describe(item);
      var logoFile := LogoFile(item, i);
      r := client.Invoke(Call("create", [Obj(params), logoFile]));
    } else if operation == "get" {
      r := client.Invoke(Call("get", [Param(item, "workspaceId", Undefined)]));
    } else if operation == "update" {
      var workspaceId := Param(item, "workspaceId", Undefined);
      var params := Describe(item);
      var logoFile := LogoFile(item, i);
      r := client.Invoke(Call("update", [workspaceId, Obj(params), logoFile]));
    } else if operation == "delete" {
      r := client.Invoke(Call("delete", [Param(item, "workspaceId", Undefined)]));
    } else if operation == "list" {
      r := ListUnfiltered(client, item);
    }
  }

  /** `{ name }`, then the description when truthy. */
  method Describe(item: Item) returns (params: map<string, Value>)
    ensures params == Params(item)
  {
    params := map["name" := Param(item, "name", Undefined)];
    var description := Param(item, "description", Str(""));
    if Truthy(description) {
      params := params["description" := description];
    }
  }

  /** The logo file, left undefined unless the named property is there. */
  method LogoFile(item: Item, i: nat) returns (logoFile: Value)
    ensures logoFile == Logo(item, i)
  {
    logoFile := Undefined;
    var logoBinaryProperty := Param(item, "logo", Str(""));
    if Truthy(logoBinaryProperty) && HasBinary(item, logoBinaryProperty) {
      logoFile := File(BufferOf(i, logoBinaryProperty), Str("logo.png"), "image/png");
    }
  }
}
