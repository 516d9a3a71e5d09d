/** The short-link node: create, get, update, delete and list short links
    through the short-link client. */
module ShortLinkNode {
  import opened Json
  import opened Host
  import opened Effects
  import Paging

  /** The optional keys create and update may add. */
  const LinkKeys: set<string> := {"name", "customLandingId", "tag", "refId", "templateId", "isEnableMonetization", "pageInfo"}

  /** The labels: the name, custom landing page, tag, reference and template,
      each added when truthy. `extra` holds the additional fields. */
  function Labels(params: map<string, Value>, name: Value, landing: Value, extra: map<string, Value>): map<string, Value>
  {
    var p1 := Put(params, IfTruthy("name", name));
    var p2 := Put(p1, IfTruthy("customLandingId", landing));
    var p3 := Put(p2, IfTruthy("tag", Field(extra, "tag")));
    var p4 := Put(p3, IfTruthy("refId", Field(extra, "refId")));
    Put(p4, IfTruthy("templateId", Field(extra, "templateId")))
  }

  /** The landing-page info, added when a title or a description is given;
      the one not given becomes `''`. */
  function PageInfo(extra: map<string, Value>): Entry
  {
    var title, description := Field(extra, "pageTitle"), Field(extra, "pageDescription");
    Entry("pageInfo", Truthy(title) || Truthy(description),
          Obj(map["title" := Or(title, Str("")), "description" := Or(description, Str(""))]))
  }

  /** The optional fields shared by create and update, added to `params`:
      the labels, then the monetization flag whenever it is defined, then the
      page info. */
  function LinkFields(params: map<string, Value>, name: Value, landing: Value, extra: map<string, Value>): map<string, Value>
  {
    var labelled := Labels(params, name, landing, extra);
    Put(Put(labelled, IfDefined("isEnableMonetization", Field(extra, "isEnableMonetization"))), PageInfo(extra))
  }

  /** The create parameters: the target URL and the optional fields. */
  function CreateParams(item: Item): map<string, Value>
  {
    LinkFields(map["url" := Param(item, "url", Undefined)],
               Param(item, "name", Str("")), Param(item, "customLandingId", Str("")), Collection(item, "additionalFields"))
  }

  /** The update parameters: the short link's id and the optional fields. */
  function UpdateParams(item: Item): map<string, Value>
  {
    LinkFields(map["id" := Param(item, "shortLinkId", Undefined)],
               Param(item, "name", Str("")), Param(item, "customLandingId", Str("")), Collection(item, "additionalFields"))
  }

  /** The optional fields on their own. */
  function OptionalFields(item: Item): map<string, Value>
  {
    LinkFields(map[], Param(item, "name", Str("")), Param(item, "customLandingId", Str("")), Collection(item, "additionalFields"))
  }

  /** Reference definition of what an item does for `operation`. */
  function Plan(operation: string, item: Item): Effect
  {
    var id := Param(item, "shortLinkId", Undefined);
    if operation == "create" then Single(Call("create", [Obj(CreateParams(item))]))
    else if operation == "get" then Single(Call("get", [id]))
    else if operation == "update" then Single(Call("update", [id, Obj(UpdateParams(item))]))
    else if operation == "delete" then Single(Call("delete", [id]))
    else if operation == "list" then
      var params := ListParams(item);
      if WantsAll(item) then ListAll(Obj(params), params["pageSize"])
      else ListOne(Obj(params), params["page"], params["pageSize"])
    else Nothing
  }

  /** Each label is present exactly when truthy, with its value; the
      parameters given are kept and no other key appears. */
  lemma LabelsShape(params: map<string, Value>, name: Value, landing: Value, extra: map<string, Value>)
    requires forall k :: k in LinkKeys ==> k !in params
    ensures var r := Labels(params, name, landing, extra);
      && (forall k :: k in params ==> k in r && r[k] == params[k])
      && (forall k :: k in r ==> k in params || k in {"name", "customLandingId", "tag", "refId", "templateId"})
      && ("name" in r <==> Truthy(name)) && ("name" in r ==> r["name"] == name)
      && ("customLandingId" in r <==> Truthy(landing)) && ("customLandingId" in r ==> r["customLandingId"] == landing)
      && ("tag" in r <==> Truthy(Field(extra, "tag"))) && ("tag" in r ==> r["tag"] == extra["tag"])
      && ("refId" in r <==> Truthy(Field(extra, "refId"))) && ("refId" in r ==> r["refId"] == extra["refId"])
      && ("templateId" in r <==> Truthy(Field(extra, "templateId"))) && ("templateId" in r ==> r["templateId"] == extra["templateId"])
  {
    var p1 := Put(params, IfTruthy("name", name));
    PutSlot(params, IfTruthy("name", name));
    var p2 := Put(p1, IfTruthy("customLandingId", landing));
    PutSlot(p1, IfTruthy("customLandingId", landing));
    var p3 := Put(p2, IfTruthy("tag", Field(extra, "tag")));
    PutSlot(p2, IfTruthy("tag", Field(extra, "tag")));
    var p4 := Put(p3, IfTruthy("refId", Field(extra, "refId")));
    PutSlot(p3, IfTruthy("refId", Field(extra, "refId")));
    PutSlot(p4, IfTruthy("templateId", Field(extra, "templateId")));
  }

  /** The labels add no key but the five label keys. */
  lemma LabelsDomain(params: map<string, Value>, name: Value, landing: Value, extra: map<string, Value>)
    ensures Labels(params, name, landing, extra).Keys <= params.Keys + {"name", "customLandingId", "tag", "refId", "templateId"}
  {
    var p1 := Put(params, IfTruthy("name", name));
    var p2 := Put(p1, IfTruthy("customLandingId", landing));
    var p3 := Put(p2, IfTruthy("tag", Field(extra, "tag")));
    var p4 := Put(p3, IfTruthy("refId", Field(extra, "refId")));
    assert p4.Keys <= params.Keys + {"name", "customLandingId", "tag", "refId"};
  }

  /** The labels keep every parameter given that is not a label key. */
  lemma LabelsKeep(params: map<string, Value>, name: Value, landing: Value, extra: map<string, Value>)
    ensures var r := Labels(params, name, landing, extra);
      forall k :: k in params && k !in {"name", "customLandingId", "tag", "refId", "templateId"} ==> k in r && r[k] == params[k]
  {
  }

  /** The optional fields keep the parameters given and the labels, and add
      nothing beyond the optional keys. */
  lemma LinkFieldsKeep(params: map<string, Value>, name: Value, landing: Value, extra: map<string, Value>)
    requires forall k :: k in LinkKeys ==> k !in params
    ensures var r, labelled := LinkFields(params, name, landing, extra), Labels(params, name, landing, extra);
      && (forall k :: k in labelled ==> k in r && r[k] == labelled[k])
      && (forall k :: k in params ==> k in r && r[k] == params[k])
      && (forall k :: k in r ==> k in params || k in LinkKeys)
  {
    var labelled := Labels(params, name, landing, extra);
    LabelsDomain(params, name, landing, extra);
    LabelsKeep(params, name, landing, extra);
    var flagged := Put(labelled, IfDefined("isEnableMonetization", Field(extra, "isEnableMonetization")));
    PutSlot(labelled, IfDefined("isEnableMonetization", Field(extra, "isEnableMonetization")));
    PutSlot(flagged, PageInfo(extra));
  }

  /** The monetization flag is sent whenever it is defined, `false` included;
      the page info is sent exactly when a title or a description is given,
      the missing one as `''`. */
  lemma LinkFieldsExtras(params: map<string, Value>, name: Value, landing: Value, extra: map<string, Value>)
    requires forall k :: k in LinkKeys ==> k !in params
    ensures var r := LinkFields(params, name, landing, extra);
      && ("isEnableMonetization" in r <==> Field(extra, "isEnableMonetization") != Undefined)
      && ("isEnableMonetization" in r ==> r["isEnableMonetization"] == extra["isEnableMonetization"])
      && ("pageInfo" in r <==> Truthy(Field(extra, "pageTitle")) || Truthy(Field(extra, "pageDescription")))
      && ("pageInfo" in r ==>
            && r["pageInfo"].Obj? && r["pageInfo"].fields.Keys == {"title", "description"}
            && r["pageInfo"].fields["title"] == (if Truthy(Field(extra, "pageTitle")) then extra["pageTitle"] else Str(""))
            && r["pageInfo"].fields["description"] == (if Truthy(Field(extra, "pageDescription")) then extra["pageDescription"] else Str("")))
  {
    var labelled := Labels(params, name, landing, extra);
    LabelsDomain(params, name, landing, extra);
    var flagged := Put(labelled, IfDefined("isEnableMonetization", Field(extra, "isEnableMonetization")));
    PutSlot(labelled, IfDefined("isEnableMonetization", Field(extra, "isEnableMonetization")));
    PutSlot(flagged, PageInfo(extra));
  }

  /** Create sends the URL and update the id, each with the same optional
      fields, which never include a URL or an id. */
  lemma CreateAndUpdate(item: Item)
    ensures CreateParams(item) == map["url" := Param(item, "url", Undefined)] + OptionalFields(item)
    ensures UpdateParams(item) == map["id" := Param(item, "shortLinkId", Undefined)] + OptionalFields(item)
    ensures "url" !in OptionalFields(item) && "id" !in OptionalFields(item)
  {
    var name, landing, extra := Param(item, "name", Str("")), Param(item, "customLandingId", Str("")), Collection(item, "additionalFields");
    FieldsOver(map["url" := Param(item, "url", Undefined)], name, landing, extra);
    FieldsOver(map["id" := Param(item, "shortLinkId", Undefined)], name, landing, extra);
    LinkFieldsKeep(map[], name, landing, extra);
  }

  /** The optional fields added to `m` are those added to an empty object, laid over `m`. */
  lemma FieldsOver(m: map<string, Value>, name: Value, landing: Value, extra: map<string, Value>)
    ensures LinkFields(m, name, landing, extra) == m + LinkFields(map[], name, landing, extra)
  {
    var e := map[];
    assert m == m + e;
    PutOver(m, e, IfTruthy("name", name));
    var q1 := Put(e, IfTruthy("name", name));
    PutOver(m, q1, IfTruthy("customLandingId", landing));
    var q2 := Put(q1, IfTruthy("customLandingId", landing));
    PutOver(m, q2, IfTruthy("tag", Field(extra, "tag")));
    var q3 := Put(q2, IfTruthy("tag", Field(extra, "tag")));
    PutOver(m, q3, IfTruthy("refId", Field(extra, "refId")));
    var q4 := Put(q3, IfTruthy("refId", Field(extra, "refId")));
    PutOver(m, q4, IfTruthy("templateId", Field(extra, "templateId")));
    var q5 := Put(q4, IfTruthy("templateId", Field(extra, "templateId")));
    PutOver(m, q5, IfDefined("isEnableMonetization", Field(extra, "isEnableMonetization")));
    var q6 := Put(q5, IfDefined("isEnableMonetization", Field(extra, "isEnableMonetization")));
    PutOver(m, q6, PageInfo(extra));
  }

  /** The listing sends the page, page size and filters as its parameters;
      a filter may override the page size, and the bounded listing asks for
      the filter's page when there is one, else page 1. */
  lemma ListShape(item: Item)
    ensures var filters := Collection(item, "filters");
      && (WantsAll(item) ==> Plan("list", item).ListAll?)
      && (!WantsAll(item) ==> Plan("list", item).ListOne?)
      && Plan("list", item).filters == Obj(ListParams(item))
      && Plan("list", item).pageSize == (if "pageSize" in filters then filters["pageSize"] else PageSize(item))
      && (!WantsAll(item) ==> Plan("list", item).page == (if "page" in filters then filters["page"] else Num(1)))
  {
  }

  /** Unknown operations make no call and emit `{}`; no operation throws before its call. */
  lemma Operations(operation: string, item: Item)
    ensures Plan(operation, item).Nothing? <==> operation !in {"create", "get", "update", "delete", "list"}
    ensures !Plan(operation, item).Throw?
  {
  }

  // ---------------------------------------------------------------------------
  // One item, as the node runs it

  /** Processes an item for `operation`, as the node's loop body does before
      its error handling. */
  method Process(client: ApiClient, operation: string, item: Item) returns (r: Reply)
    requires client.ListingsEnd()
    modifies client
    ensures Did(client, old(client.calls), Plan(operation, item), r)
  {
    if operation == "create" {
      var url := Param(item, "url", Undefined);
      var name, customLandingId := Param(item, "name", Str("")), Param(item, "customLandingId", Str(""));
      var params := Fields(map["url" := url], name, customLandingId, Collection(item, "additionalFields"));
      r := client.Invoke(Call("create", [Obj(params)]));
    } else if operation == "get" {
      r := client.Invoke(Call("get", [Param(item, "shortLinkId", Undefined)]));
    } else if operation == "update" {
      var id := Param(item, "shortLinkId", Undefined);
      var name, customLandingId := Param(item, "name", Str("")), Param(item, "customLandingId", Str(""));
      var params := Fields(map["id" := id], name, customLandingId, Collection(item, "additionalFields"));
      r := client.Invoke(Call("update", [id, Obj(params)]));
    } else if operation == "delete" {
      r := client.Invoke(Call("delete", [Param(item, "shortLinkId", Undefined)]));
    } else if operation == "list" {
      var params := map["page" := Num(1), "pageSize" := PageSize(item)] + Collection(item, "filters");
      if Truthy(Param(item, "returnAll", Bool(false))) {
        r := Paging.ReturnAll(client, Obj(params), params["pageSize"]);
      } else {
        r := Paging.FirstPage(client, Obj(params), params["page"], params["pageSize"]);
      }
    } else {
      r := Ok(Obj(map[]));
    }
  }

  /** Adds the labels one by one. */
  method Labelled(params: map<string, Value>, name: Value, customLandingId: Value, extra: map<string, Value>)
    returns (p: map<string, Value>)
    ensures p == Labels(params, name, customLandingId, extra)
  {
    p := params;
    p := Add(p, IfTruthy("name", name));
    p := Add(p, IfTruthy("customLandingId", customLandingId));
    p := Add(p, IfTruthy("tag", Field(extra, "tag")));
    p := Add(p, IfTruthy("refId", Field(extra, "refId")));
    p := Add(p, IfTruthy("templateId", Field(extra, "templateId")));
  }

  /** Adds the optional fields: the labels, then the monetization flag and the page info. */
  method Fields(params: map<string, Value>, name: Value, customLandingId: Value, extra: map<string, Value>)
    returns (p: map<string, Value>)
    ensures p == LinkFields(params, name, customLandingId, extra)
  {
    p := Labelled(params, name, customLandingId, extra);
    p := Add(p, IfDefined("isEnableMonetization", Field(extra, "isEnableMonetization")));
    p := Add(p, PageInfo(extra));
  }
}
