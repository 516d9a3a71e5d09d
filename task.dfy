/** The social-publisher task node: publishing a short video through the
    task client, task status, the task listing and the default settings. */
module TaskNode {
  import opened Json
  import opened Host
  import opened Social
  import opened Effects

  /** The keys under which the publish parameters carry each platform's settings. */
  const TaskKeys: PlatformKeys := PlatformKeys("youtubeSettings", "tiktokSettings", "facebookSettings", "instagramSettings")

  /** The video: a `video.mp4` file of the named binary property, or the video URL. */
  function Video(item: Item, i: nat): Value
  {
    if Param(item, "videoSource", Undefined) == Str("binary") then
      File(BufferOf(i, Param(item, "videoBinaryProperty", Undefined)), Str("video.mp4"), "video/mp4")
    else Param(item, "videoUrl", Undefined)
  }

  /** Adds the thumbnail: a `thumbnail.jpg` file when the source is binary and
      the item carries the named property, the thumbnail URL (set or not) when
      the source is a URL, nothing otherwise. */
  function WithThumbnail(params: map<string, Value>, item: Item, i: nat): map<string, Value>
  {
    var source := Param(item, "thumbnailSource", Str("none"));
    var property := Param(item, "thumbnailBinaryProperty", Undefined);
    if source == Str("binary") then
      if HasBinary(item, property) then params["thumbnail" := File(BufferOf(i, property), Str("thumbnail.jpg"), "image/jpeg")]
      else params
    else if source == Str("url") then params["thumbnail" := Param(item, "thumbnailUrl", Undefined)]
    else params
  }

  /** The scheduled publish time: the date of `scheduleDate` when scheduled for later, else `now`. */
  function Schedule(item: Item): Value
  {
    if Param(item, "scheduledPublishTime", Undefined) == Str("later") then Date(Param(item, "scheduleDate", Undefined))
    else Str("now")
  }

  /** The publish parameters before the per-platform settings. */
  function BaseParams(item: Item, i: nat): map<string, Value>
  {
    var params := map["workspaceId" := Param(item, "workspaceId", Undefined),
                      "platforms" := Param(item, "platforms", Undefined),
                      "video" := Video(item, i)];
    WithThumbnail(params, item, i)["scheduledPublishTime" := Schedule(item)]
  }

  /** The publish parameters, or the error `platforms.includes` throws. */
  function PublishParams(item: Item, i: nat): Outcome<map<string, Value>>
  {
    WithPlatforms(BaseParams(item, i), Param(item, "platforms", Undefined), item, TaskKeys)
  }

  /** Reference definition of what item `i` does for `operation`. */
  function Plan(operation: string, item: Item, i: nat): Effect
  {
    if operation == "publishVideo" then
      match PublishParams(item, i)
      case Fail(m) => Throw(m)
      case Ok(params) => Single(Call("publishShortVideo", [Obj(params)]))
    else if operation == "getTaskStatus" then Single(Call("getStatus", [Param(item, "taskId", Undefined)]))
    else if operation == "listTasks" then
      UnfilteredList(item)
    else if operation == "getDefaultSettings" then Single(Call("getDefaultSettings", []))
    else Nothing
  }

  /** The fixed part of the publish parameters: always the workspace, the
      platforms, the video and the schedule; the video is the URL parameter
      unless the source is binary; the thumbnail is there exactly when the
      source is binary and the item carries the property, or the source is a URL. */
  lemma BaseParamsShape(item: Item, i: nat)
    ensures var b, source := BaseParams(item, i), Param(item, "thumbnailSource", Str("none"));
      var property := Param(item, "thumbnailBinaryProperty", Undefined);
      && b.Keys == {"workspaceId", "platforms", "video", "scheduledPublishTime"}
                   + (if (source == Str("binary") && HasBinary(item, property)) || source == Str("url") then {"thumbnail"} else {})
      && b["workspaceId"] == Param(item, "workspaceId", Undefined)
      && b["platforms"] == Param(item, "platforms", Undefined)
      && (Param(item, "videoSource", Undefined) != Str("binary") ==> b["video"] == Param(item, "videoUrl", Undefined))
      && (Param(item, "videoSource", Undefined) == Str("binary") ==> b["video"].File? && b["video"].mimeType == "video/mp4")
      && (source == Str("url") ==> b["thumbnail"] == Param(item, "thumbnailUrl", Undefined))
      && (source == Str("binary") && HasBinary(item, property) ==>
            b["thumbnail"] == File(BufferOf(i, property), Str("thumbnail.jpg"), "image/jpeg"))
      && (Param(item, "scheduledPublishTime", Undefined) != Str("later") ==> b["scheduledPublishTime"] == Str("now"))
  {
  }

  /** Publishing throws before any call exactly when `platforms` is neither a
      string nor an array; otherwise the parameters are the fixed part plus
      the settings of each selected platform whose settings are not empty. */
  lemma PublishParamsShape(item: Item, i: nat)
    ensures var platforms := Param(item, "platforms", Undefined);
      && (PublishParams(item, i).Fail? <==> !(platforms.Str? || platforms.Arr?))
      && (platforms.Str? || platforms.Arr? ==>
            var base, r := BaseParams(item, i), PublishParams(item, i).value;
            && (forall k :: k in base ==> k in r && r[k] == base[k])
            && Slot(r, "youtubeSettings", Selected(platforms, "youtube"), YoutubeSettings(Collection(item, "youtubeSettings")))
            && Slot(r, "tiktokSettings", Selected(platforms, "tiktok"), Collection(item, "tiktokSettings"))
            && Slot(r, "facebookSettings", Selected(platforms, "facebook"), Collection(item, "facebookSettings"))
            && Slot(r, "instagramSettings", Selected(platforms, "instagram"), Collection(item, "instagramSettings"))
            && (forall k :: k in r ==> k in base || k in {"youtubeSettings", "tiktokSettings", "facebookSettings", "instagramSettings"}))
  {
    var platforms := Param(item, "platforms", Undefined);
    var base := BaseParams(item, i);
    assert base.Keys <= {"workspaceId", "platforms", "video", "thumbnail", "scheduledPublishTime"};
    assert Distinct(TaskKeys);
    PlatformKeysPresent(base, platforms, item, TaskKeys);
  }

  /** The task listing never filters: the workspace chosen for it makes no
      difference, and the page size is 100 for "return all", else the limit. */
  lemma ListIgnoresWorkspace(item: Item, i: nat, workspace: Value)
    ensures var other := Item(item.params["listWorkspaceId" := workspace], item.binary);
      Plan("listTasks", other, i) == Plan("listTasks", item, i)
    ensures WantsAll(item) ==> Plan("listTasks", item, i) == ListAll(Obj(map[]), Num(100))
    ensures !WantsAll(item) ==> Plan("listTasks", item, i) == ListOne(Obj(map[]), Num(1), Param(item, "limit", Num(50)))
  {
    var other := Item(item.params["listWorkspaceId" := workspace], item.binary);
    assert Param(other, "returnAll", Bool(false)) == Param(item, "returnAll", Bool(false));
    assert Param(other, "limit", Num(50)) == Param(item, "limit", Num(50));
  }

  /** Every operation other than the four offered makes no call and emits `{}`;
      each offered one other than the listing calls its client method once,
      unless publishing throws first. */
  lemma Operations(operation: string, item: Item, i: nat)
    ensures Plan(operation, item, i).Nothing? <==>
      operation !in {"publishVideo", "getTaskStatus", "listTasks", "getDefaultSettings"}
    ensures operation == "publishVideo" ==>
      (Plan(operation, item, i).Throw? <==> PublishParams(item, i).Fail?)
      && (Plan(operation, item, i).Single? ==> Plan(operation, item, i).call.name == "publishShortVideo")
    ensures operation == "getTaskStatus" ==> Plan(operation, item, i) == Single(Call("getStatus", [Param(item, "taskId", Undefined)]))
  {
  }

  // ---------------------------------------------------------------------------
  // One item, as the node runs it

  /** Processes item `i` for `operation`, as the node's loop body does before
      its error handling. */
  method Process(client: ApiClient, operation: string, item: Item, i: nat) returns (r: Reply)
    requires client.ListingsEnd()
    modifies client
    ensures Did(client, old(client.calls), Plan(operation, item, i), r)
  {
    if operation == "publishVideo" {
      var params := Publishing(item, i);
      if params.Fail? {
        r := Fail(params.message);
        return;
      }
      r := client.Invoke(Call("publishShortVideo", [Obj(params.value)]));
    } else if operation == "getTaskStatus" {
      r := client.Invoke(Call("getStatus", [Param(item, "taskId", Undefined)]));
    } else if operation == "listTasks" {
      r := ListUnfiltered(client, item);
    } else if operation == "getDefaultSettings" {
      r := client.Invoke(Call("getDefaultSettings", []));
    } else {
      r := Ok(Obj(map[]));
    }
  }

  /** Builds the publish parameters key by key. */
  method Publishing(item: Item, i: nat) returns (params: Outcome<map<string, Value>>)
    ensures params == PublishParams(item, i)
  {
    var platforms := Param(item, "platforms", Undefined);
    var p := Basics(item, i);
    var youtube := Includes(platforms, "youtube", "platforms");
    if youtube.Fail? {
      params := Fail(youtube.message);
      return;
    }
    p := AttachTo(p, youtube.value, "youtubeSettings", YoutubeSettings(Collection(item, "youtubeSettings")));
    p := AttachTo(p, Includes(platforms, "tiktok", "platforms").value, "tiktokSettings", Collection(item, "tiktokSettings"));
    p := AttachTo(p, Includes(platforms, "facebook", "platforms").value, "facebookSettings", Collection(item, "facebookSettings"));
    p := AttachTo(p, Includes(platforms, "instagram", "platforms").value, "instagramSettings", Collection(item, "instagramSettings"));
    params := Ok(p);
  }

  /** The workspace, platforms, video, thumbnail and schedule, key by key. */
  method Basics(item: Item, i: nat) returns (p: map<string, Value>)
    ensures p == BaseParams(item, i)
  {
    var thumbnailSource := Param(item, "thumbnailSource", Str("none"));
    p := map["workspaceId" := Param(item, "workspaceId", Undefined), "platforms" := Param(item, "platforms", Undefined)];
    if Param(item, "videoSource", Undefined) == Str("binary") {
      var property := Param(item, "videoBinaryProperty", Undefined);
      p := p["video" := File(BufferOf(i, property), Str("video.mp4"), "video/mp4")];
    } else {
      p := p["video" := Param(item, "videoUrl", Undefined)];
    }
    if thumbnailSource == Str("binary") {
      var property := Param(item, "thumbnailBinaryProperty", Undefined);
      if HasBinary(item, property) {
        p := p["thumbnail" := File(BufferOf(i, property), Str("thumbnail.jpg"), "image/jpeg")];
      }
    } else if thumbnailSource == Str("url") {
      p := p["thumbnail" := Param(item, "thumbnailUrl", Undefined)];
    }
    if Param(item, "scheduledPublishTime", Undefined) == Str("later") {
      p := p["scheduledPublishTime" := Date(Param(item, "scheduleDate", Undefined))];
    } else {
      p := p["scheduledPublishTime" := Str("now")];
    }
  }
}
