/** The QR-code node: create and update QR codes of seven kinds, get, delete
    and list them through the QR-code client. */
module QrCodeNode {
  import opened Json
  import opened Host
  import opened Effects

  /** The base parameters' optional keys. */
  const BaseKeys: set<string> := {"name", "tag", "refId", "templateId"}

  /** The base parameters: `params` with the name, tag, reference and
      template added, each when truthy. `extra` holds the additional fields. */
  function Base(params: map<string, Value>, name: Value, extra: map<string, Value>): map<string, Value>
  {
    var p1 := Put(params, IfTruthy("name", name));
    var p2 := Put(p1, IfTruthy("tag", Field(extra, "tag")));
    var p3 := Put(p2, IfTruthy("refId", Field(extra, "refId")));
    Put(p3, IfTruthy("templateId", Field(extra, "templateId")))
  }

  /** What a QR type adds to the base parameters: the suffix of the client
      method it calls, and the one key it sets; or an unknown type. */
  datatype Content = Typed(suffix: string, key: string, value: Value) | Unknown

  /** The `switch (qrType)` of create and update. */
  function ContentOf(item: Item): Content
  {
    var qrType := Param(item, "qrType", Undefined);
    if qrType == Str("url") then Typed("URL", "url", Param(item, "url", Undefined))
    else if qrType == Str("freeText") then Typed("FreeText", "text", Param(item, "text", Undefined))
    else if qrType == Str("email") then
      Typed("Email", "emailInfo", Obj(map["email" := Param(item, "email", Undefined),
                                          "subject" := Param(item, "emailSubject", Str("")),
                                          "body" := Param(item, "emailBody", Str(""))]))
    else if qrType == Str("wifi") then
      Typed("Wifi", "wifiInfo", Obj(map["name" := Param(item, "wifiName", Undefined),
                                        "authenticationType" := Param(item, "wifiAuthType", Undefined),
                                        "password" := Param(item, "wifiPassword", Str(""))]))
    else if qrType == Str("call") then
      Typed("Call", "callInfo", Obj(map["phoneNumber" := Param(item, "phoneNumber", Undefined)]))
    else if qrType == Str("sms") then
      Typed("SMS", "smsInfo", Obj(map["phoneNumber" := Param(item, "smsPhoneNumber", Undefined),
                                      "message" := Param(item, "smsMessage", Str(""))]))
    else if qrType == Str("geolocation") then
      Typed("Geolocation", "geolocationInfo", Obj(map["latitude" := Param(item, "latitude", Undefined),
                                                      "longitude" := Param(item, "longitude", Undefined)]))
    else Unknown
  }

  /** The call `prefix + suffix` of a known type, its arguments `leading`
      followed by `{ ...base, key: value }`; nothing for an unknown type. */
  function Request(prefix: string, leading: seq<Value>, base: map<string, Value>, content: Content): Effect
  {
    match content
    case Typed(suffix, key, value) => Single(Call(prefix + suffix, leading + [Obj(base[key := value])]))
    case Unknown => Nothing
  }

  function Name(item: Item): Value { Param(item, "name", Str("")) }

  function Extra(item: Item): map<string, Value> { Collection(item, "additionalFields") }

  /** Reference definition of what an item does for `operation`. */
  function Plan(operation: string, item: Item): Effect
  {
    var id := Param(item, "qrCodeId", Undefined);
    if operation == "create" then Request("create", [], Base(map[], Name(item), Extra(item)), ContentOf(item))
    else if operation == "get" then Single(Call("get", [id]))
    else if operation == "update" then Request("update", [id], Base(map["id" := id], Name(item), Extra(item)), ContentOf(item))
    else if operation == "delete" then Single(Call("delete", [id]))
    else if operation == "list" then FilteredList(item)
    else Nothing
  }

  /** Each optional base key is present exactly when its input is truthy, and
      then holds it; the parameters given are kept and nothing else is added. */
  lemma BaseShape(params: map<string, Value>, name: Value, extra: map<string, Value>)
    requires forall k :: k in BaseKeys ==> k !in params
    ensures var r := Base(params, name, extra);
      && (forall k :: k in params ==> k in r && r[k] == params[k])
      && (forall k :: k in r ==> k in params || k in BaseKeys)
      && ("name" in r <==> Truthy(name)) && ("name" in r ==> r["name"] == name)
      && ("tag" in r <==> Truthy(Field(extra, "tag"))) && ("tag" in r ==> r["tag"] == extra["tag"])
      && ("refId" in r <==> Truthy(Field(extra, "refId"))) && ("refId" in r ==> r["refId"] == extra["refId"])
      && ("templateId" in r <==> Truthy(Field(extra, "templateId"))) && ("templateId" in r ==> r["templateId"] == extra["templateId"])
  {
    var p1 := Put(params, IfTruthy("name", name));
    PutSlot(params, IfTruthy("name", name));
    var p2 := Put(p1, IfTruthy("tag", Field(extra, "tag")));
    PutSlot(p1, IfTruthy("tag", Field(extra, "tag")));
    var p3 := Put(p2, IfTruthy("refId", Field(extra, "refId")));
    PutSlot(p2, IfTruthy("refId", Field(extra, "refId")));
    PutSlot(p3, IfTruthy("templateId", Field(extra, "templateId")));
  }

  /** The base parameters built on `m` are those built on `{}`, laid over `m`. */
  lemma BaseOver(m: map<string, Value>, name: Value, extra: map<string, Value>)
    ensures Base(m, name, extra) == m + Base(map[], name, extra)
  {
    var e := map[];
    assert m == m + e;
    PutOver(m, e, IfTruthy("name", name));
    var q1 := Put(e, IfTruthy("name", name));
    PutOver(m, q1, IfTruthy("tag", Field(extra, "tag")));
    var q2 := Put(q1, IfTruthy("tag", Field(extra, "tag")));
    PutOver(m, q2, IfTruthy("refId", Field(extra, "refId")));
    var q3 := Put(q2, IfTruthy("refId", Field(extra, "refId")));
    PutOver(m, q3, IfTruthy("templateId", Field(extra, "templateId")));
  }

  /** The seven QR types and only they are known; url and free text set a
      flat field. */
  lemma ContentShape(item: Item)
    ensures var qrType, c := Param(item, "qrType", Undefined), ContentOf(item);
      && (c.Unknown? <==> qrType !in [Str("url"), Str("freeText"), Str("email"), Str("wifi"), Str("call"), Str("sms"), Str("geolocation")])
      && (qrType == Str("url") ==> c.key == "url" && c.value == Param(item, "url", Undefined))
      && (qrType == Str("freeText") ==> c.key == "text" && c.value == Param(item, "text", Undefined))
  {
  }

  /** Email, wifi, call, SMS and geolocation codes set a sub-object whose
      optional strings are always present and default to `''`. */
  lemma SubObjects(item: Item)
    ensures var qrType, c := Param(item, "qrType", Undefined), ContentOf(item);
      && (qrType == Str("email") ==>
            && c.key == "emailInfo" && c.value.Obj? && c.value.fields.Keys == {"email", "subject", "body"}
            && ("emailSubject" !in item.params ==> c.value.fields["subject"] == Str(""))
            && ("emailBody" !in item.params ==> c.value.fields["body"] == Str("")))
      && (qrType == Str("wifi") ==>
            && c.key == "wifiInfo" && c.value.Obj? && c.value.fields.Keys == {"name", "authenticationType", "password"}
            && c.value.fields["name"] == Param(item, "wifiName", Undefined)
            && ("wifiPassword" !in item.params ==> c.value.fields["password"] == Str("")))
      && (qrType == Str("call") ==> c.key == "callInfo" && c.value.Obj? && c.value.fields.Keys == {"phoneNumber"})
      && (qrType == Str("sms") ==>
            && c.key == "smsInfo" && c.value.Obj? && c.value.fields.Keys == {"phoneNumber", "message"}
            && c.value.fields["phoneNumber"] == Param(item, "smsPhoneNumber", Undefined)
            && ("smsMessage" !in item.params ==> c.value.fields["message"] == Str("")))
      && (qrType == Str("geolocation") ==>
            && c.key == "geolocationInfo" && c.value.Obj? && c.value.fields.Keys == {"latitude", "longitude"})
  {
  }

  /** Create and update call the method for the same QR type with the same
      parameters, except that update's also hold the id, which it passes
      first as well; an unknown type makes neither call. */
  lemma CreateAndUpdate(item: Item)
    ensures Plan("create", item).Nothing? <==> ContentOf(item).Unknown?
    ensures Plan("update", item).Nothing? <==> ContentOf(item).Unknown?
    ensures ContentOf(item).Typed? ==>
      var id, create, update := Param(item, "qrCodeId", Undefined), Plan("create", item).call, Plan("update", item).call;
      && create.name == "create" + ContentOf(item).suffix && update.name == "update" + ContentOf(item).suffix
      && |create.args| == 1 && update.args == [id, Obj(map["id" := id] + create.args[0].fields)]
      && "id" !in create.args[0].fields
  {
    var name, extra := Name(item), Extra(item);
    var m, b, c := map["id" := Param(item, "qrCodeId", Undefined)], Base(map[], name, extra), ContentOf(item);
    BaseOver(m, name, extra);
    BaseShape(map[], name, extra);
    if c.Typed? {
      assert (m + b)[c.key := c.value] == m + b[c.key := c.value];
    }
  }

  /** Unknown operations make no call and emit `{}`, and so do create and
      update for an unknown QR type; the listing is the shared filtered one. */
  lemma Operations(operation: string, item: Item)
    ensures Plan(operation, item).Nothing? <==>
      || operation !in {"create", "get", "update", "delete", "list"}
      || (operation in {"create", "update"} && ContentOf(item).Unknown?)
    ensures Plan("list", item) == FilteredList(item)
    ensures !Plan(operation, item).Throw?
  {
    FilteredListShape(item);
  }

  // ---------------------------------------------------------------------------
  // One item, as the node runs it

  /** Processes an item for `operation`, as the node's loop body does before
      its error handling. */
  method Process(client: ApiClient, operation: string, item: Item) returns (r: Reply)
    requires client.ListingsEnd()
    modifies client
    ensures Did(client, old(client.calls), Plan(operation, item), r)
  {
    r := Ok(Obj(map[]));
    if operation == "create" {
      var baseParams := Based(map[], Param(item, "name", Str("")), Collection(item, "additionalFields"));
      r := Send(client, "create", [], baseParams, item);
    } else if operation == "get" {
      r := client.Invoke(Call("get", [Param(item, "qrCodeId", Undefined)]));
    } else if operation == "update" {
      var qrCodeId := Param(item, "qrCodeId", Undefined);
      var baseParams := Based(map["id" := qrCodeId], Param(item, "name", Str("")), Collection(item, "additionalFields"));
      r := Send(client, "update", [qrCodeId], baseParams, item);
    } else if operation == "delete" {
      r := client.Invoke(Call("delete", [Param(item, "qrCodeId", Undefined)]));
    } else if operation == "list" {
      r := ListFiltered(client, item);
    }
  }

  /** Adds the optional base keys one by one. */
  method Based(params: map<string, Value>, name: Value, extra: map<string, Value>) returns (p: map<string, Value>)
    ensures p == Base(params, name, extra)
  {
    p := Add(params, IfTruthy("name", name));
    p := Add(p, IfTruthy("tag", Field(extra, "tag")));
    p := Add(p, IfTruthy("refId", Field(extra, "refId")));
    p := Add(p, IfTruthy("templateId", Field(extra, "templateId")));
  }

  /** The `switch (qrType)`: calls `prefix` + the type's method with the
      base parameters and the type's own field; an unknown type leaves the
      response `{}`. */
  method Send(client: ApiClient, prefix: string, leading: seq<Value>, baseParams: map<string, Value>, item: Item)
    returns (r: Reply)
    modifies client
    ensures Did(client, old(client.calls), Request(prefix, leading, baseParams, ContentOf(item)), r)
  {
    var qrType := Param(item, "qrType", Undefined);
    if qrType == Str("url") {
      var url := Param(item, "url", Undefined);
      r := client.Invoke(Call(prefix + "URL", leading + [Obj(baseParams["url" := url])]));
    } else if qrType == Str("freeText") {
      var text := Param(item, "text", Undefined);
      r := client.Invoke(Call(prefix + "FreeText", leading + [Obj(baseParams["text" := text])]));
    } else if qrType == Str("email") {
      var email, subject, body := Param(item, "email", Undefined), Param(item, "emailSubject", Str("")), Param(item, "emailBody", Str(""));
      var emailInfo := Obj(map["email" := email, "subject" := subject, "body" := body]);
      r := client.Invoke(Call(prefix + "Email", leading + [Obj(baseParams["emailInfo" := emailInfo])]));
    } else if qrType == Str("wifi") {
      var wifiName, authenticationType := Param(item, "wifiName", Undefined), Param(item, "wifiAuthType", Undefined);
      var password := Param(item, "wifiPassword", Str(""));
      var wifiInfo := Obj(map["name" := wifiName, "authenticationType" := authenticationType, "password" := password]);
      r := client.Invoke(Call(prefix + "Wifi", leading + [Obj(baseParams["wifiInfo" := wifiInfo])]));
    } else if qrType == Str("call") {
      var callInfo := Obj(map["phoneNumber" := Param(item, "phoneNumber", Undefined)]);
      r := client.Invoke(Call(prefix + "Call", leading + [Obj(baseParams["callInfo" := callInfo])]));
    } else if qrType == Str("sms") {
      var phoneNumber, message := Param(item, "smsPhoneNumber", Undefined), Param(item, "smsMessage", Str(""));
      var smsInfo := Obj(map["phoneNumber" := phoneNumber, "message" := message]);
      r := client.Invoke(Call(prefix + "SMS", leading + [Obj(baseParams["smsInfo" := smsInfo])]));
    } else if qrType == Str("geolocation") {
      var latitude, longitude := Param(item, "latitude", Undefined), Param(item, "longitude", Undefined);
      var geolocationInfo := Obj(map["latitude" := latitude, "longitude" := longitude]);
      r := client.Invoke(Call(prefix + "Geolocation", leading + [Obj(baseParams["geolocationInfo" := geolocationInfo])]));
    } else {
      r := Ok(Obj(map[]));
    }
  }
}
