/** The HTML-hosting node: create and update hosted pages from an uploaded
    file or a GitHub file, get, delete, clear the cache of and list them
    through the HTML-hosting client. */
module HtmlHostingNode {
  import opened Json
  import opened Host
  import opened Effects

  /** The optional keys of every create and update variant. */
  const OptionalKeys: set<string> := {"customLandingId", "tag", "refId"}

  /** `params` with the custom landing page, tag and reference added, each
      when truthy. `extra` holds the additional fields. */
  function Optional(params: map<string, Value>, landing: Value, extra: map<string, Value>): map<string, Value>
  {
    var p1 := Put(params, IfTruthy("customLandingId", landing));
    var p2 := Put(p1, IfTruthy("tag", Field(extra, "tag")));
    Put(p2, IfTruthy("refId", Field(extra, "refId")))
  }

  /** The page file: the buffer of the binary property named by `htmlFile`,
      as an HTML file named `fileName`. */
  function HtmlFile(item: Item, i: nat): Value
  {
    File(BufferOf(i, Param(item, "htmlFile", Undefined)), Param(item, "fileName", Undefined), "text/html")
  }

  /** The parameters a variant builds: its fixed keys `fixed` and the optional ones. */
  function VariantParams(fixed: map<string, Value>, item: Item): map<string, Value>
  {
    Optional(fixed, Param(item, "customLandingId", Str("")), Collection(item, "additionalFields"))
  }

  function Name(item: Item): Value { Param(item, "name", Undefined) }

  function Github(item: Item): Value { Param(item, "githubFileUrl", Undefined) }

  function Id(item: Item): Value { Param(item, "htmlHostingId", Undefined) }

  /** Reference definition of what item `i` does for `operation`. */
  function Plan(operation: string, item: Item, i: nat): Effect
  {
    if operation == "createFromFile" then
      Single(Call("createWithFile", [Obj(VariantParams(map["name" := Name(item)], item)), HtmlFile(item, i)]))
    else if operation == "createFromGithub" then
      Single(Call("createWithGithubFile", [Obj(VariantParams(map["name" := Name(item), "githubFileUrl" := Github(item)], item))]))
    else if operation == "updateFromFile" then
      Single(Call("updateWithNewFile", [Id(item), Obj(VariantParams(map["name" := Name(item)], item)), HtmlFile(item, i)]))
    else if operation == "updateFromGithub" then
      Single(Call("updateWithGithubFile",
                  [Id(item), Obj(VariantParams(map["id" := Id(item), "name" := Name(item), "githubFileUrl" := Github(item)], item))]))
    else if operation == "get" then Single(Call("get", [Id(item)]))
    else if operation == "delete" then Single(Call("delete", [Id(item)]))
    else if operation == "clearCache" then Single(Call("cleanCache", [Id(item)]))
    else if operation == "list" then FilteredList(item)
    else Nothing
  }

  /** Each optional key is present exactly when its input is truthy, and then
      holds it; the parameters given are kept and nothing else is added. */
  lemma OptionalShape(params: map<string, Value>, landing: Value, extra: map<string, Value>)
    requires forall k :: k in OptionalKeys ==> k !in params
    ensures var r := Optional(params, landing, extra);
      && (forall k :: k in params ==> k in r && r[k] == params[k])
      && (forall k :: k in r ==> k in params || k in OptionalKeys)
      && ("customLandingId" in r <==> Truthy(landing)) && ("customLandingId" in r ==> r["customLandingId"] == landing)
      && ("tag" in r <==> Truthy(Field(extra, "tag"))) && ("tag" in r ==> r["tag"] == extra["tag"])
      && ("refId" in r <==> Truthy(Field(extra, "refId"))) && ("refId" in r ==> r["refId"] == extra["refId"])
  {
    var p1 := Put(params, IfTruthy("customLandingId", landing));
    PutSlot(params, IfTruthy("customLandingId", landing));
    var p2 := Put(p1, IfTruthy("tag", Field(extra, "tag")));
    PutSlot(p1, IfTruthy("tag", Field(extra, "tag")));
    PutSlot(p2, IfTruthy("refId", Field(extra, "refId")));
  }

  /** The optional keys added to `m` are those added to `{}`, laid over `m`. */
  lemma OptionalOver(m: map<string, Value>, landing: Value, extra: map<string, Value>)
    ensures Optional(m, landing, extra) == m + Optional(map[], landing, extra)
  {
    var e := map[];
    assert m == m + e;
    PutOver(m, e, IfTruthy("customLandingId", landing));
    var q1 := Put(e, IfTruthy("customLandingId", landing));
    PutOver(m, q1, IfTruthy("tag", Field(extra, "tag")));
    var q2 := Put(q1, IfTruthy("tag", Field(extra, "tag")));
    PutOver(m, q2, IfTruthy("refId", Field(extra, "refId")));
  }

  /** The optional keys of an item, shared by all four variants. */
  function Optionals(item: Item): map<string, Value>
  {
    VariantParams(map[], item)
  }

  /** All four variants send the name and the same optional keys, which never
      include an id, a name or a GitHub URL; both GitHub variants add the
      GitHub URL, and only the GitHub update puts the id into the parameters,
      while the file update passes it on its own, first. */
  lemma Variants(item: Item, i: nat)
    ensures Plan("createFromFile", item, i).call.args[0] == Obj(map["name" := Name(item)] + Optionals(item))
    ensures Plan("createFromGithub", item, i).call.args[0]
      == Obj(map["name" := Name(item), "githubFileUrl" := Github(item)] + Optionals(item))
    ensures Plan("updateFromFile", item, i).call.args[..2] == [Id(item), Obj(map["name" := Name(item)] + Optionals(item))]
    ensures Plan("updateFromGithub", item, i).call.args
      == [Id(item), Obj(map["id" := Id(item), "name" := Name(item), "githubFileUrl" := Github(item)] + Optionals(item))]
    ensures "id" !in Optionals(item) && "name" !in Optionals(item) && "githubFileUrl" !in Optionals(item)
  {
    var landing, extra := Param(item, "customLandingId", Str("")), Collection(item, "additionalFields");
    OptionalOver(map["name" := Name(item)], landing, extra);
    OptionalOver(map["name" := Name(item), "githubFileUrl" := Github(item)], landing, extra);
    OptionalOver(map["id" := Id(item), "name" := Name(item), "githubFileUrl" := Github(item)], landing, extra);
    OptionalShape(map[], landing, extra);
  }

  /** The file variants upload the named binary property as an HTML file
      named `fileName`, last among their arguments. */
  lemma FileVariants(item: Item, i: nat)
    ensures var create, update := Plan("createFromFile", item, i).call, Plan("updateFromFile", item, i).call;
      && |create.args| == 2 && |update.args| == 3 && create.args[1] == update.args[2]
      && create.args[1].File? && create.args[1].mimeType == "text/html"
      && create.args[1].fileName == Param(item, "fileName", Undefined)
      && create.args[1].content == BufferOf(i, Param(item, "htmlFile", Undefined))
  {
  }

  /** get, delete and clearCache each make exactly one call, with the page's id. */
  lemma ByIdOperations(item: Item, i: nat)
    ensures Plan("get", item, i) == Single(Call("get", [Id(item)]))
    ensures Plan("delete", item, i) == Single(Call("delete", [Id(item)]))
    ensures Plan("clearCache", item, i) == Single(Call("cleanCache", [Id(item)]))
  {
  }

  /** The offered getFormIds operation has no branch, so it makes no call and
      emits `{}`, as does any other unknown operation. */
  lemma Operations(operation: string, item: Item, i: nat)
    ensures Plan(operation, item, i).Nothing? <==>
      operation !in {"createFromFile", "createFromGithub", "updateFromFile", "updateFromGithub", "get", "delete", "clearCache", "list"}
    ensures Plan("getFormIds", item, i).Nothing?
    ensures Plan("list", item, i) == FilteredList(item)
    ensures !Plan(operation, item, i).Throw?
  {
    var p := Plan(operation, item, i);
    if operation == "list" {
      FilteredListShape(item);
    } else {
      assert p.Single? <==> operation in {"createFromFile", "createFromGithub", "updateFromFile", "updateFromGithub", "get", "delete", "clearCache"};
    }
  }

  // ---------------------------------------------------------------------------
  // One item, as the node runs it

  /** Processes item `i` for `operation`, as the node's loop body does before
      its error handling. */
  method Process(client: ApiClient, operation: string, item: Item, i: nat) returns (r: Reply)
    requires client.ListingsEnd()
    modifies client
    ensures Did(client, old(client.calls), Plan(operation, item, i), r)
  {
    r := Ok(Obj(map[]));
    if operation == "createFromFile" {
      var file := HtmlFile(item, i);
      var params := Optioned(map["name" := Param(item, "name", Undefined)], item);
      r := client.Invoke(Call("createWithFile", [Obj(params), file]));
    } else if operation == "createFromGithub" {
      var params := Optioned(map["name" := Param(item, "name", Undefined), "githubFileUrl" := Param(item, "githubFileUrl", Undefined)], item);
      r := client.Invoke(Call("createWithGithubFile", [Obj(params)]));
    } else if operation == "updateFromFile" {
      var htmlHostingId := Param(item, "htmlHostingId", Undefined);
      var file := HtmlFile(item, i);
      var params := Optioned(map["name" := Param(item, "name", Undefined)], item);
      r := client.Invoke(Call("updateWithNewFile", [htmlHostingId, Obj(params), file]));
    } else if operation == "updateFromGithub" {
      var htmlHostingId := Param(item, "htmlHostingId", Undefined);
      var params := Optioned(map["id" := htmlHostingId, "name" := Param(item, "name", Undefined),
                                  "githubFileUrl" := Param(item, "githubFileUrl", Undefined)], item);
      r := client.Invoke(Call("updateWithGithubFile", [htmlHostingId, Obj(params)]));
    } else if operation == "get" {
      r := client.Invoke(Call("get", [Param(item, "htmlHostingId", Undefined)]));
    } else if operation == "delete" {
      r := client.Invoke(Call("delete", [Param(item, "htmlHostingId", Undefined)]));
    } else if operation == "clearCache" {
      r := client.Invoke(Call("cleanCache", [Param(item, "htmlHostingId", Undefined)]));
    } else if operation == "list" {
      r := ListFiltered(client, item);
    }
  }

  /** Adds the optional keys to the fixed ones, one by one. */
  method Optioned(fixed: map<string, Value>, item: Item) returns (p: map<string, Value>)
    ensures p == VariantParams(fixed, item)
  {
    var customLandingId := Param(item, "customLandingId", Str(""));
    var additionalFields := Collection(item, "additionalFields");
    p := Add(fixed, IfTruthy("customLandingId", customLandingId));
    p := Add(p, IfTruthy("tag", Field(additionalFields, "tag")));
    p := Add(p, IfTruthy("refId", Field(additionalFields, "refId")));
  }
}
