/** The Social Publisher Post node: publishes a short video to a workspace or to
    one account, from an input item's binary data (uploaded to pre-signed URLs
    first) or from a video URL, and queries post status, lists posts and reads
    the default settings, all through `makeApiRequest`. */
module PostNode {
  import opened Json
  import opened Host
  import opened Gateway
  import opened Social

  /** The endpoint prefix the node is written against. */
  const Prefix: string := "/api/social-publisher-post"

  /** What the node's prefix reads as where the endpoint table lacks an entry
      for posts: the text of `undefined`. */
  const WrittenPrefix: string := "undefined"

  /** The keys of the per-platform configuration blocks in a post body. */
  const PostKeys: PlatformKeys := PlatformKeys("youtubeConfig", "tiktokConfig", "facebookPageConfig", "instagramConfig")

  // ---------------------------------------------------------------------------
  // The video's source

  /** The source a video URL is published as, from the host names it mentions:
      Facebook first, then TikTok, then YouTube, else a plain video URL.
      `includes` throws on a URL that is neither a string nor an array. */
  function Sniff(url: Value): Outcome<string>
  {
    match Includes(url, "facebook.com", "videoURL")
    case Fail(m) => Fail(m)
    case Ok(facebook) =>
      if facebook || Includes(url, "fb.watch", "videoURL").value then Ok("facebook-video")
      else if Includes(url, "tiktok.com", "videoURL").value then Ok("tiktok-video")
      else if Includes(url, "youtube.com", "videoURL").value || Includes(url, "youtu.be", "videoURL").value then Ok("youtube-video")
      else Ok("video-url")
  }

  /** The source of a video URL string, by the markers it contains. */
  lemma SniffPrecedence(url: string)
    ensures var source := Sniff(Str(url));
      && source.Ok?
      && (source.value == "facebook-video" <==> Contains(url, "facebook.com") || Contains(url, "fb.watch"))
      && (source.value == "tiktok-video" <==>
            !Contains(url, "facebook.com") && !Contains(url, "fb.watch") && Contains(url, "tiktok.com"))
      && (source.value == "youtube-video" <==>
            !Contains(url, "facebook.com") && !Contains(url, "fb.watch") && !Contains(url, "tiktok.com")
            && (Contains(url, "youtube.com") || Contains(url, "youtu.be")))
      && (source.value == "video-url" <==>
            !Contains(url, "facebook.com") && !Contains(url, "fb.watch") && !Contains(url, "tiktok.com")
            && !Contains(url, "youtube.com") && !Contains(url, "youtu.be"))
  {
  }

  /** A URL is never sniffed as an upload, and sniffing fails exactly when the
      URL is neither a string nor an array. */
  lemma SniffNeverUpload(url: Value)
    ensures Sniff(url).Fail? <==> !(url.Str? || url.Arr?)
    ensures Sniff(url).Ok? ==> Sniff(url).value in {"facebook-video", "tiktok-video", "youtube-video", "video-url"}
  {
  }

  /** A URL without the letters `f`, `k` and `b` names none of the known
      hosts. */
  lemma SniffPlain(url: string)
    requires 'f' !in url && 'k' !in url && 'b' !in url
    ensures Sniff(Str(url)) == Ok("video-url")
  {
    MissingCharacter(url, "facebook.com", 0);
    MissingCharacter(url, "fb.watch", 0);
    MissingCharacter(url, "tiktok.com", 2);
    MissingCharacter(url, "youtube.com", 5);
    MissingCharacter(url, "youtu.be", 6);
    SniffPrecedence(url);
  }

  /** A Facebook watch link is published as a Facebook video. */
  lemma SniffFacebookLink()
    ensures Sniff(Str("https://www.facebook.com/watch?v=987654321")) == Ok("facebook-video")
  {
    var a, b, c := "https://www.", "facebook.com", "/watch?v=987654321";
    assert "https://www.facebook.com/watch?v=987654321" == a + b + c;
    assert (a + b + c)[12..24] == b;
    assert OccursAt(a + b + c, "facebook.com", 12);
    SniffPrecedence(a + b + c);
  }

  /** A URL without the letter `f` that names TikTok is a TikTok video. */
  lemma SniffTiktok(url: string, i: nat)
    requires 'f' !in url && OccursAt(url, "tiktok.com", i)
    ensures Sniff(Str(url)) == Ok("tiktok-video")
  {
    MissingCharacter(url, "facebook.com", 0);
    MissingCharacter(url, "fb.watch", 0);
    SniffPrecedence(url);
  }

  /** A TikTok link is published as a TikTok video. */
  lemma SniffTiktokLink()
    ensures Sniff(Str("https://www." + "tiktok.com" + "/@creator/video/111222333")) == Ok("tiktok-video")
  {
    var a, b, c := "https://www.", "tiktok.com", "/@creator/video/111222333";
    var url := a + b + c;
    assert 'f' !in a && 'f' !in b && 'f' !in c;
    assert url[12..22] == b;
    SniffTiktok(url, 12);
  }

  // ---------------------------------------------------------------------------
  // Pre-signed upload URLs

  /** `url.split('?')[0]`: the URL without its query. */
  function StripQuery(url: string): (r: string)
  {
    Split(url, '?')[0]
  }

  /** The stripped URL is the part of the URL before its first `?`, and the
      whole URL when it has none. */
  lemma StripQueryPrefix(url: string)
    ensures var r := StripQuery(url);
      && |r| <= |url| && r == url[..|r|] && '?' !in r
      && (|r| < |url| ==> url[|r|] == '?')
      && ('?' !in url ==> r == url)
  {
    SplitFirst(url, '?');
    SplitPiecesFree(url, '?');
  }

  /** Stripping twice strips no more than once. */
  lemma StripQueryIdempotent(url: string)
    ensures StripQuery(StripQuery(url)) == StripQuery(url)
  {
    StripQueryPrefix(url);
    StripQueryPrefix(StripQuery(url));
  }

  /** `response.<slot>.uploadFileURL`, read from the answer to the upload-URL
      request; the model requires it to be a string before uploading to it. */
  function UploadUrl(response: Value, slot: string): (r: Outcome<string>)
  {
    match Get(response, slot)
    case Fail(m) => Fail(m)
    case Ok(urls) =>
      match Get(urls, "uploadFileURL")
      case Fail(m) => Fail(m)
      case Ok(Str(url)) => Ok(url)
      case Ok(Undefined) => Fail("Cannot read properties of undefined (reading 'split')")
      case Ok(Null) => Fail("Cannot read properties of null (reading 'split')")
      case Ok(_) => Fail("uploadUrlsResponse." + slot + ".uploadFileURL.split is not a function")
  }

  /** The upload URL is found exactly when the answer holds a string at that
      place. */
  lemma UploadUrlFound(response: Value, slot: string)
    ensures UploadUrl(response, slot).Ok? <==>
      response.Obj? && slot in response.fields && response.fields[slot].Obj?
      && "uploadFileURL" in response.fields[slot].fields && response.fields[slot].fields["uploadFileURL"].Str?
    ensures UploadUrl(response, slot).Ok? ==>
      UploadUrl(response, slot).value == response.fields[slot].fields["uploadFileURL"].s
  {
  }

  // ---------------------------------------------------------------------------
  // The post body and its endpoint

  /** The video and thumbnail a post publishes and where the video comes from. */
  datatype Media = Media(videoURL: Value, source: string, thumbURL: Value)

  /** The scheduled publish time: the ISO text of the schedule date when the
      post is scheduled for later, else `now`. */
  function Schedule(item: Item): (v: Value)
    ensures Param(item, "scheduledPublishTime", Undefined) == Str("later") ==>
      v == IsoString(Date(Param(item, "scheduleDate", Undefined)))
    ensures Param(item, "scheduledPublishTime", Undefined) != Str("later") ==> v == Str("now")
  {
    if Param(item, "scheduledPublishTime", Undefined) == Str("later") then
      IsoString(Date(Param(item, "scheduleDate", Undefined)))
    else Str("now")
  }

  /** The body of the create request, before the per-platform blocks. */
  function BaseBody(workspaceId: Value, accountId: Value, media: Media, platforms: Value, item: Item): map<string, Value>
  {
    var base := map["workspaceId" := workspaceId, "accountId" := accountId, "videoURL" := media.videoURL,
                    "source" := Str(media.source), "platforms" := platforms];
    PutIfTruthy(base, "thumbURL", media.thumbURL)["scheduledPublishTime" := Schedule(item)]
  }

  /** The body of the create request. */
  function PostBody(workspaceId: Value, accountId: Value, media: Media, platforms: Value, item: Item): Outcome<map<string, Value>>
  {
    WithPlatforms(BaseBody(workspaceId, accountId, media, platforms, item), platforms, item, PostKeys)
  }

  /** The fixed part of the body: the target, the video, its source, the
      platforms, the schedule, and the thumbnail exactly when one was found. */
  lemma BaseBodyShape(workspaceId: Value, accountId: Value, media: Media, platforms: Value, item: Item)
    ensures var b := BaseBody(workspaceId, accountId, media, platforms, item);
      && b.Keys == {"workspaceId", "accountId", "videoURL", "source", "platforms", "scheduledPublishTime"}
                   + (if Truthy(media.thumbURL) then {"thumbURL"} else {})
      && b["workspaceId"] == workspaceId && b["accountId"] == accountId
      && b["videoURL"] == media.videoURL && b["source"] == Str(media.source)
      && b["platforms"] == platforms && b["scheduledPublishTime"] == Schedule(item)
      && (Truthy(media.thumbURL) ==> b["thumbURL"] == media.thumbURL)
  {
  }

  /** The post body cannot be built exactly when `platforms` is neither a
      string nor an array. */
  lemma PostBodyFails(workspaceId: Value, accountId: Value, media: Media, platforms: Value, item: Item)
    ensures PostBody(workspaceId, accountId, media, platforms, item).Fail? <==> !(platforms.Str? || platforms.Arr?)
  {
  }

  /** The post body is the fixed part plus the configuration blocks of the
      selected platforms that have settings. */
  lemma PostBodyShape(workspaceId: Value, accountId: Value, media: Media, platforms: Value, item: Item)
    requires platforms.Str? || platforms.Arr?
    ensures var base, r := BaseBody(workspaceId, accountId, media, platforms, item),
                          PostBody(workspaceId, accountId, media, platforms, item).value;
      && (forall k :: k in base ==> k in r && r[k] == base[k])
      && Slot(r, "youtubeConfig", Selected(platforms, "youtube"), YoutubeSettings(Collection(item, "youtubeSettings")))
      && Slot(r, "tiktokConfig", Selected(platforms, "tiktok"), Collection(item, "tiktokSettings"))
      && Slot(r, "facebookPageConfig", Selected(platforms, "facebook"), Collection(item, "facebookSettings"))
      && Slot(r, "instagramConfig", Selected(platforms, "instagram"), Collection(item, "instagramSettings"))
      && (forall k :: k in r ==> k in base || k in {"youtubeConfig", "tiktokConfig", "facebookPageConfig", "instagramConfig"})
  {
    var base := BaseBody(workspaceId, accountId, media, platforms, item);
    BaseBodyShape(workspaceId, accountId, media, platforms, item);
    assert Distinct(PostKeys);
    PlatformKeysPresent(base, platforms, item, PostKeys);
  }

  /** The create endpoint: workspace- or account-scoped by the operation, by
      file for an uploaded video and by URL otherwise. */
  function Endpoint(prefix: string, operation: string, source: string): string
  {
    prefix + (if operation == "publishVideo" then
                if source == "video-upload" then "/short-video/workspace/by-file" else "/short-video/workspace/by-url"
              else
                if source == "video-upload" then "/short-video/account/by-file" else "/short-video/account/by-url")
  }

  // ---------------------------------------------------------------------------
  // One item, as a reference definition on values

  /** The requests sent and the media found, or the error, while fetching the
      video (and thumbnail) of a publish operation. */
  datatype Staged = Staged(sent: seq<HttpRequest>, media: Outcome<Media>)

  /** The request for the pair of pre-signed upload URLs. */
  function UploadUrlsOptions(prefix: string): ApiOptions
  {
    ApiOptions(POST, prefix + "/generate-upload-urls",
               Obj(map["videoFileType" := Str("mp4"), "thumbFileType" := Str("jpg")]), Undefined)
  }

  /** The thumbnail of an uploaded video, once the video itself is uploaded. */
  function ThumbnailStage(server: (nat, HttpRequest) -> HttpReply, sent: seq<HttpRequest>, item: Item, i: nat,
                          urls: Value, videoURL: Value): Staged
  {
    var thumbnailSource := Param(item, "thumbnailSource", Str("none"));
    if thumbnailSource == Str("binary") then
      var property := Param(item, "thumbnailBinaryProperty", Undefined);
      if HasBinary(item, property) then
        match UploadUrl(urls, "thumb")
        case Fail(m) => Staged(sent, Fail(m))
        case Ok(thumbUpload) =>
          var t := UploadCall(server, sent, thumbUpload, BufferOf(i, property));
          if t.reply.Fail? then Staged(t.sent, Fail(t.reply.message))
          else Staged(t.sent, Ok(Media(videoURL, "video-upload", Str(StripQuery(thumbUpload)))))
      else Staged(sent, Ok(Media(videoURL, "video-upload", Undefined)))
    else if thumbnailSource == Str("url") then
      Staged(sent, Ok(Media(videoURL, "video-upload", Param(item, "thumbnailUrl", Undefined))))
    else Staged(sent, Ok(Media(videoURL, "video-upload", Undefined)))
  }

  /** Fetching the media of a publish operation. */
  function MediaStage(server: (nat, HttpRequest) -> HttpReply, environment: string, sent: seq<HttpRequest>,
                      apiKey: string, prefix: string, item: Item, i: nat): Staged
  {
    if Param(item, "videoSource", Undefined) == Str("binary") then
      var video := BufferOf(i, Param(item, "videoBinaryProperty", Undefined));
      var t1 := ApiCall(server, environment, sent, apiKey, UploadUrlsOptions(prefix));
      match t1.reply
      case Fail(m) => Staged(t1.sent, Fail(m))
      case Ok(urls) =>
        match UploadUrl(urls, "video")
        case Fail(m) => Staged(t1.sent, Fail(m))
        case Ok(videoUpload) =>
          var t2 := UploadCall(server, t1.sent, videoUpload, video);
          if t2.reply.Fail? then Staged(t2.sent, Fail(t2.reply.message))
          else ThumbnailStage(server, t2.sent, item, i, urls, Str(StripQuery(videoUpload)))
    else
      var videoURL := Param(item, "videoUrl", Undefined);
      match Sniff(videoURL)
      case Fail(m) => Staged(sent, Fail(m))
      case Ok(source) =>
        var thumbURL := if Param(item, "thumbnailSource", Str("none")) == Str("url") then Param(item, "thumbnailUrl", Undefined) else Undefined;
        Staged(sent, Ok(Media(videoURL, source, thumbURL)))
  }

  /** `publishVideo` and `publishVideoToAccount`. */
  function Publish(server: (nat, HttpRequest) -> HttpReply, environment: string, sent: seq<HttpRequest>,
                   apiKey: string, prefix: string, operation: string, item: Item, i: nat): Traffic
  {
    var workspaceId := if operation == "publishVideo" then Param(item, "workspaceId", Undefined) else Undefined;
    var accountId := if operation == "publishVideoToAccount" then Param(item, "accountId", Undefined) else Undefined;
    var platforms := Param(item, "platforms", Undefined);
    var staged := MediaStage(server, environment, sent, apiKey, prefix, item, i);
    match staged.media
    case Fail(m) => Traffic(staged.sent, Fail(m))
    case Ok(media) =>
      match PostBody(workspaceId, accountId, media, platforms, item)
      case Fail(m) => Traffic(staged.sent, Fail(m))
      case Ok(body) =>
        ApiCall(server, environment, staged.sent, apiKey, ApiOptions(POST, Endpoint(prefix, operation, media.source), Obj(body), Undefined))
  }

  /** The options of the single request of `getPostStatus`, `listPosts` and
      `getDefaultSettings`. */
  function QueryOptions(prefix: string, operation: string, item: Item): ApiOptions
  {
    if operation == "getPostStatus" then
      ApiOptions(GET, prefix + "/" + Text(Param(item, "postId", Undefined)) + "/status", Undefined, Undefined)
    else if operation == "listPosts" && Truthy(Param(item, "returnAll", Bool(false))) then
      PaginatedOptions(prefix, Obj(map["workspaceId" := Param(item, "listWorkspaceId", Undefined)]), map[])
    else if operation == "listPosts" then
      ApiOptions(GET, prefix, Undefined,
                 Obj(map["workspaceId" := Param(item, "listWorkspaceId", Undefined), "page" := Num(1),
                         "pageSize" := Param(item, "limit", Num(50))]))
    else
      ApiOptions(GET, prefix + "/default-settings", Undefined, Undefined)
  }

  /** Reference definition of one item: the requests the node sends for it and
      the data it resolves, or the error it throws. An operation the node does
      not know sends nothing and resolves `{}`. */
  function Trace(server: (nat, HttpRequest) -> HttpReply, environment: string, sent: seq<HttpRequest>,
                 apiKey: string, prefix: string, operation: string, item: Item, i: nat): Traffic
  {
    if operation == "publishVideo" || operation == "publishVideoToAccount" then
      Publish(server, environment, sent, apiKey, prefix, operation, item, i)
    else if operation in {"getPostStatus", "listPosts", "getDefaultSettings"} then
      var t := ApiCall(server, environment, sent, apiKey, QueryOptions(prefix, operation, item));
      if operation == "listPosts" && !Truthy(Param(item, "returnAll", Bool(false))) && t.reply.Ok? then
        Traffic(t.sent, Get(t.reply.value, "items"))
      else t
    else Traffic(sent, Ok(Obj(map[])))
  }

  // ---------------------------------------------------------------------------
  // What one item sends

  /** The item asks for its thumbnail to be uploaded from its own binary data,
      and carries that binary property. */
  predicate ThumbnailUpload(item: Item)
  {
    Param(item, "thumbnailSource", Str("none")) == Str("binary")
    && HasBinary(item, Param(item, "thumbnailBinaryProperty", Undefined))
  }

  /** The thumbnail of an uploaded video: uploaded when the item asks for it
      and has the binary data, the given URL when the source is `url`, and
      none otherwise. */
  lemma ThumbnailRules(server: (nat, HttpRequest) -> HttpReply, sent: seq<HttpRequest>, item: Item, i: nat,
                       urls: Value, videoURL: Value)
    ensures var s := ThumbnailStage(server, sent, item, i, urls, videoURL);
      && s.sent[..|sent|] == sent
      && (ThumbnailUpload(item) ==> |s.sent| <= |sent| + 1)
      && (!ThumbnailUpload(item) ==> s.sent == sent && s.media.Ok?)
      && (ThumbnailUpload(item) && s.media.Ok? ==>
            && |s.sent| == |sent| + 1
            && UploadUrl(urls, "thumb").Ok?
            && s.sent[|sent|] == UploadRequest(UploadUrl(urls, "thumb").value,
                                               BufferOf(i, Param(item, "thumbnailBinaryProperty", Undefined)))
            && s.media.value.thumbURL == Str(StripQuery(UploadUrl(urls, "thumb").value))
            && '?' !in s.media.value.thumbURL.s)
      && (s.media.Ok? ==> s.media.value.videoURL == videoURL && s.media.value.source == "video-upload")
      && (!ThumbnailUpload(item) ==>
            s.media.value.thumbURL ==
              if Param(item, "thumbnailSource", Str("none")) == Str("url") then Param(item, "thumbnailUrl", Undefined)
              else Undefined)
  {
    var s := ThumbnailStage(server, sent, item, i, urls, videoURL);
    if ThumbnailUpload(item) && s.media.Ok? {
      var thumbUpload := UploadUrl(urls, "thumb").value;
      StripQueryPrefix(thumbUpload);
    }
  }

  /** A video from binary data: the upload-URL request goes first; when the
      media is ready the item's buffer was PUT to the video's upload URL from
      that reply, followed by the thumbnail's PUT to the thumbnail's upload URL
      when one is uploaded, and each resulting URL is its upload URL without
      the query. */
  lemma BinaryMedia(server: (nat, HttpRequest) -> HttpReply, environment: string, sent: seq<HttpRequest>,
                    apiKey: string, prefix: string, item: Item, i: nat)
    requires Param(item, "videoSource", Undefined) == Str("binary")
    ensures var s := MediaStage(server, environment, sent, apiKey, prefix, item, i);
      && |sent| < |s.sent| <= |sent| + 3 && s.sent[..|sent|] == sent
      && s.sent[|sent|] == RequestFor(BaseUrl(environment), apiKey, UploadUrlsOptions(prefix))
      && (s.media.Ok? ==>
            && |s.sent| == |sent| + (if ThumbnailUpload(item) then 3 else 2)
            && s.sent[|sent| + 1].verb == PUT
            && s.sent[|sent| + 1].body == BufferOf(i, Param(item, "videoBinaryProperty", Undefined))
            && s.media.value.source == "video-upload"
            && s.media.value.videoURL.Str? && '?' !in s.media.value.videoURL.s)
      && var t1 := ApiCall(server, environment, sent, apiKey, UploadUrlsOptions(prefix));
         s.media.Ok? ==>
           && t1.reply.Ok? && UploadUrl(t1.reply.value, "video").Ok?
           && s.sent[|sent| + 1] == UploadRequest(UploadUrl(t1.reply.value, "video").value,
                                                  BufferOf(i, Param(item, "videoBinaryProperty", Undefined)))
           && s.media.value.videoURL == Str(StripQuery(UploadUrl(t1.reply.value, "video").value))
           && (ThumbnailUpload(item) ==>
                 && UploadUrl(t1.reply.value, "thumb").Ok?
                 && s.sent[|sent| + 2] == UploadRequest(UploadUrl(t1.reply.value, "thumb").value,
                                                        BufferOf(i, Param(item, "thumbnailBinaryProperty", Undefined)))
                 && s.media.value.thumbURL == Str(StripQuery(UploadUrl(t1.reply.value, "thumb").value)))
  {
    var s := MediaStage(server, environment, sent, apiKey, prefix, item, i);
    var t1 := ApiCall(server, environment, sent, apiKey, UploadUrlsOptions(prefix));
    if t1.reply.Ok? && UploadUrl(t1.reply.value, "video").Ok? {
      var videoUpload := UploadUrl(t1.reply.value, "video").value;
      var t2 := UploadCall(server, t1.sent, videoUpload, BufferOf(i, Param(item, "videoBinaryProperty", Undefined)));
      if t2.reply.Ok? {
        StripQueryPrefix(videoUpload);
        ThumbnailRules(server, t2.sent, item, i, t1.reply.value, Str(StripQuery(videoUpload)));
        assert s.sent[..|t2.sent|] == t2.sent;
      }
    }
  }

  /** A video given by URL: nothing is sent while preparing it; it is ready
      exactly when the URL can be searched, with the source its host names, and
      only a thumbnail URL can go with it. */
  lemma UrlMedia(server: (nat, HttpRequest) -> HttpReply, environment: string, sent: seq<HttpRequest>,
                 apiKey: string, prefix: string, item: Item, i: nat)
    requires Param(item, "videoSource", Undefined) != Str("binary")
    ensures var s, url := MediaStage(server, environment, sent, apiKey, prefix, item, i), Param(item, "videoUrl", Undefined);
      && s.sent == sent
      && (s.media.Ok? <==> url.Str? || url.Arr?)
      && (s.media.Ok? ==>
            && s.media.value.videoURL == url
            && s.media.value.source == Sniff(url).value && s.media.value.source != "video-upload"
            && s.media.value.thumbURL ==
                 if Param(item, "thumbnailSource", Str("none")) == Str("url") then Param(item, "thumbnailUrl", Undefined)
                 else Undefined)
  {
    SniffNeverUpload(Param(item, "videoUrl", Undefined));
  }

  /** A publish operation sends, after the requests preparing its media, one
      create request: a POST of the post body to the endpoint of its target and
      source; when the media or the body cannot be prepared, nothing more is
      sent and the item fails. */
  lemma PublishCreates(server: (nat, HttpRequest) -> HttpReply, environment: string, sent: seq<HttpRequest>,
                       apiKey: string, prefix: string, operation: string, item: Item, i: nat)
    requires operation == "publishVideo" || operation == "publishVideoToAccount"
    ensures var s, t := MediaStage(server, environment, sent, apiKey, prefix, item, i),
                        Trace(server, environment, sent, apiKey, prefix, operation, item, i);
      && (s.media.Fail? ==> t == Traffic(s.sent, Fail(s.media.message)))
      && (s.media.Ok? ==>
            var platforms := Param(item, "platforms", Undefined);
            && (!(platforms.Str? || platforms.Arr?) ==> t.sent == s.sent && t.reply.Fail?)
            && ((platforms.Str? || platforms.Arr?) ==>
                  && |t.sent| == |s.sent| + 1 && t.sent[..|s.sent|] == s.sent
                  && t.sent[|s.sent|].verb == POST
                  && t.sent[|s.sent|].url == BaseUrl(environment) + Endpoint(prefix, operation, s.media.value.source)
                  && t.sent[|s.sent|].body.Obj?
                  && "source" in t.sent[|s.sent|].body.fields
                  && t.sent[|s.sent|].body.fields["source"] == Str(s.media.value.source)
                  && t.reply == ApiOutcome(server(|s.sent|, t.sent[|s.sent|]))))
  {
    var s := MediaStage(server, environment, sent, apiKey, prefix, item, i);
    var platforms := Param(item, "platforms", Undefined);
    if s.media.Ok? {
      var workspaceId := if operation == "publishVideo" then Param(item, "workspaceId", Undefined) else Undefined;
      var accountId := if operation == "publishVideoToAccount" then Param(item, "accountId", Undefined) else Undefined;
      PostBodyFails(workspaceId, accountId, s.media.value, platforms, item);
      if platforms.Str? || platforms.Arr? {
        PostBodyShape(workspaceId, accountId, s.media.value, platforms, item);
        BaseBodyShape(workspaceId, accountId, s.media.value, platforms, item);
        var options := ApiOptions(POST, Endpoint(prefix, operation, s.media.value.source),
                                  Obj(PostBody(workspaceId, accountId, s.media.value, platforms, item).value), Undefined);
        PostCarriesCreatedFrom(BaseUrl(environment), apiKey, options);
      }
    }
  }

  /** The create endpoint is scoped to the workspace for `publishVideo` and to
      the account otherwise, and takes the file route exactly for an uploaded
      video. */
  lemma EndpointRoutes(prefix: string, operation: string, source: string)
    ensures var e := Endpoint(prefix, operation, source);
      && |prefix| <= |e| && e[..|prefix|] == prefix
      && (operation == "publishVideo" ==> e[|prefix|..|prefix| + 23] == "/short-video/workspace/")
      && (operation != "publishVideo" ==> e[|prefix|..|prefix| + 21] == "/short-video/account/")
      && (source == "video-upload" <==> e[|e| - 8..] == "/by-file")
      && (source != "video-upload" <==> e[|e| - 7..] == "/by-url")
  {
    var e := Endpoint(prefix, operation, source);
    var tail := e[|prefix|..];
    assert e == prefix + tail && e[..|prefix|] == prefix;
    assert e[|e| - 8..] == tail[|tail| - 8..] && e[|e| - 7..] == tail[|tail| - 7..];
    assert e[|prefix|..|prefix| + 23] == tail[..23] && e[|prefix|..|prefix| + 21] == tail[..21];
  }

  /** `getPostStatus`, `listPosts` and `getDefaultSettings` send exactly one
      GET under the prefix; a bounded listing resolves the `items` of its
      answer, a full one the whole answer. */
  lemma QueriesSendOne(server: (nat, HttpRequest) -> HttpReply, environment: string, sent: seq<HttpRequest>,
                       apiKey: string, prefix: string, operation: string, item: Item, i: nat)
    requires operation in {"getPostStatus", "listPosts", "getDefaultSettings"}
    ensures var t, request := Trace(server, environment, sent, apiKey, prefix, operation, item, i),
                              RequestFor(BaseUrl(environment), apiKey, QueryOptions(prefix, operation, item));
      && t.sent == sent + [request]
      && request.verb == GET && request.body == Undefined
      && request.url[..|BaseUrl(environment) + prefix|] == BaseUrl(environment) + prefix
      && (operation == "listPosts" && !Truthy(Param(item, "returnAll", Bool(false))) ==>
            && request.qs == Obj(map["workspaceId" := Param(item, "listWorkspaceId", Undefined), "page" := Num(1),
                                     "pageSize" := Param(item, "limit", Num(50))])
            && (ApiOutcome(server(|sent|, request)).Ok? ==>
                  t.reply == Get(ApiOutcome(server(|sent|, request)).value, "items")))
      && (!(operation == "listPosts" && !Truthy(Param(item, "returnAll", Bool(false)))) ==>
            t.reply == ApiOutcome(server(|sent|, request)))
  {
    var options := QueryOptions(prefix, operation, item);
    RequestShape(BaseUrl(environment), apiKey, options);
    var request := RequestFor(BaseUrl(environment), apiKey, options);
    assert options.endpoint[..|prefix|] == prefix;
    assert request.url == BaseUrl(environment) + options.endpoint;
    assert request.url[..|BaseUrl(environment) + prefix|] == BaseUrl(environment) + prefix;
  }

  /** An operation the node does not know sends nothing and resolves `{}`. */
  lemma UnknownOperationQuiet(server: (nat, HttpRequest) -> HttpReply, environment: string, sent: seq<HttpRequest>,
                              apiKey: string, prefix: string, operation: string, item: Item, i: nat)
    requires operation !in {"publishVideo", "publishVideoToAccount", "getPostStatus", "listPosts", "getDefaultSettings"}
    ensures Trace(server, environment, sent, apiKey, prefix, operation, item, i) == Traffic(sent, Ok(Obj(map[])))
  {
  }

  /** As written, the endpoint table has no entry for posts, so the first
      request of a binary publish goes to a URL without the posts path. */
  lemma WrittenPrefixMissesPath(server: (nat, HttpRequest) -> HttpReply, apiKey: string, operation: string, item: Item, i: nat)
    requires operation == "publishVideo" || operation == "publishVideoToAccount"
    requires Param(item, "videoSource", Undefined) == Str("binary")
    ensures var t := Trace(server, "", [], apiKey, WrittenPrefix, operation, item, i);
      && |t.sent| >= 1
      && t.sent[0].url == "https://api.posty5.com" + "undefined" + "/generate-upload-urls"
      && !Contains(t.sent[0].url, Prefix)
  {
    BinaryMedia(server, "", [], apiKey, WrittenPrefix, item, i);
    PublishCreates(server, "", [], apiKey, WrittenPrefix, operation, item, i);
    WrittenUrlLetters();
    MissingCharacter("https://api.posty5.com" + "undefined" + "/generate-upload-urls", Prefix, 14);
  }

  lemma WrittenUrlLetters()
    ensures 'b' !in "https://api.posty5.com" + "undefined" + "/generate-upload-urls" && Prefix[14] == 'b'
  {
  }

  /** With the intended prefix, the upload-URL request of a binary publish
      goes under the posts path. */
  lemma IntendedUploadUrlsPath(server: (nat, HttpRequest) -> HttpReply, environment: string, sent: seq<HttpRequest>,
                               apiKey: string, operation: string, item: Item, i: nat)
    requires operation == "publishVideo" || operation == "publishVideoToAccount"
    requires Param(item, "videoSource", Undefined) == Str("binary")
    ensures var t := Trace(server, environment, sent, apiKey, Prefix, operation, item, i);
      |t.sent| > |sent| && t.sent[|sent|].url == BaseUrl(environment) + "/api/social-publisher-post" + "/generate-upload-urls"
  {
    BinaryMedia(server, environment, sent, apiKey, Prefix, item, i);
    PublishCreates(server, environment, sent, apiKey, Prefix, operation, item, i);
    var s := MediaStage(server, environment, sent, apiKey, Prefix, item, i);
    var t := Trace(server, environment, sent, apiKey, Prefix, operation, item, i);
    assert t.sent[..|s.sent|] == s.sent;
    assert t.sent[|sent|] == s.sent[|sent|];
  }

  /** With the intended prefix, the create request of a publish goes under the
      posts path. */
  lemma IntendedCreatePath(server: (nat, HttpRequest) -> HttpReply, environment: string, sent: seq<HttpRequest>,
                           apiKey: string, operation: string, item: Item, i: nat)
    requires operation == "publishVideo" || operation == "publishVideoToAccount"
    ensures var s, t := MediaStage(server, environment, sent, apiKey, Prefix, item, i),
                        Trace(server, environment, sent, apiKey, Prefix, operation, item, i);
      var base := BaseUrl(environment) + "/api/social-publisher-post";
      |t.sent| > |s.sent| ==> t.sent[|s.sent|].url[..|base|] == base
  {
    var s := MediaStage(server, environment, sent, apiKey, Prefix, item, i);
    var t := Trace(server, environment, sent, apiKey, Prefix, operation, item, i);
    var base := BaseUrl(environment) + Prefix;
    PublishCreates(server, environment, sent, apiKey, Prefix, operation, item, i);
    if |t.sent| > |s.sent| {
      var e := Endpoint(Prefix, operation, s.media.value.source);
      EndpointRoutes(Prefix, operation, s.media.value.source);
      assert t.sent[|s.sent|].url == BaseUrl(environment) + e;
      PrefixOfConcat(BaseUrl(environment), e, Prefix);
    }
  }

  // ---------------------------------------------------------------------------
  // One item, as the node runs it

  /** Processes item `i` for `operation` against the helper, as the node's
      loop body does, before the error handling of the loop. */
  method Process(http: HttpHelper, apiKey: string, operation: string, item: Item, i: nat) returns (r: Reply)
    modifies http
    ensures var t := Trace(http.server, http.environment, old(http.sent), apiKey, Prefix, operation, item, i);
      http.sent == t.sent && r == t.reply
  {
    if operation == "publishVideo" || operation == "publishVideoToAccount" {
      r := PublishVideo(http, apiKey, operation, item, i);
    } else if operation == "getPostStatus" {
      var postId := Param(item, "postId", Undefined);
      r := MakeApiRequest(http, apiKey, ApiOptions(GET, Prefix + "/" + Text(postId) + "/status", Undefined, Undefined));
    } else if operation == "listPosts" {
      var workspaceId := Param(item, "listWorkspaceId", Undefined);
      var returnAll := Param(item, "returnAll", Bool(false));
      if Truthy(returnAll) {
        r := MakePaginatedRequest(http, apiKey, Prefix, Obj(map["workspaceId" := workspaceId]), map[]);
      } else {
        var limit := Param(item, "limit", Num(50));
        var result := MakeApiRequest(http, apiKey, ApiOptions(GET, Prefix, Undefined,
                                     Obj(map["workspaceId" := workspaceId, "page" := Num(1), "pageSize" := limit])));
        if result.Ok? {
          r := Get(result.value, "items");
        } else {
          r := result;
        }
      }
    } else if operation == "getDefaultSettings" {
      r := MakeApiRequest(http, apiKey, ApiOptions(GET, Prefix + "/default-settings", Undefined, Undefined));
    } else {
      r := Ok(Obj(map[]));
    }
  }

  /** The publish branch: media first, then the create request. */
  method PublishVideo(http: HttpHelper, apiKey: string, operation: string, item: Item, i: nat) returns (r: Reply)
    requires operation == "publishVideo" || operation == "publishVideoToAccount"
    modifies http
    ensures var t := Publish(http.server, http.environment, old(http.sent), apiKey, Prefix, operation, item, i);
      http.sent == t.sent && r == t.reply
  {
    var workspaceId := if operation == "publishVideo" then Param(item, "workspaceId", Undefined) else Undefined;
    var accountId := if operation == "publishVideoToAccount" then Param(item, "accountId", Undefined) else Undefined;
    var platforms := Param(item, "platforms", Undefined);
    var media := FetchMedia(http, apiKey, item, i);
    if media.Fail? {
      r := Fail(media.message);
      return;
    }
    var body := PostBody(workspaceId, accountId, media.value, platforms, item);
    if body.Fail? {
      r := Fail(body.message);
      return;
    }
    r := MakeApiRequest(http, apiKey, ApiOptions(POST, Endpoint(Prefix, operation, media.value.source), Obj(body.value), Undefined));
  }

  /** The video (and thumbnail) of a publish operation: uploaded from the
      item's binary data, or taken from the video URL. */
  method FetchMedia(http: HttpHelper, apiKey: string, item: Item, i: nat) returns (media: Outcome<Media>)
    modifies http
    ensures var s := MediaStage(http.server, http.environment, old(http.sent), apiKey, Prefix, item, i);
      http.sent == s.sent && media == s.media
  {
    var thumbnailSource := Param(item, "thumbnailSource", Str("none"));
    if Param(item, "videoSource", Undefined) == Str("binary") {
      var video := BufferOf(i, Param(item, "videoBinaryProperty", Undefined));
      var urls := MakeApiRequest(http, apiKey, UploadUrlsOptions(Prefix));
      if urls.Fail? {
        media := Fail(urls.message);
        return;
      }
      var videoUpload := UploadUrl(urls.value, "video");
      if videoUpload.Fail? {
        media := Fail(videoUpload.message);
        return;
      }
      var uploaded := UploadFile(http, videoUpload.value, video);
      if uploaded.Fail? {
        media := Fail(uploaded.message);
        return;
      }
      media := FetchThumbnail(http, item, i, urls.value, Str(StripQuery(videoUpload.value)));
    } else {
      var videoURL := Param(item, "videoUrl", Undefined);
      var source := Sniff(videoURL);
      if source.Fail? {
        media := Fail(source.message);
        return;
      }
      var thumbURL := Undefined;
      if thumbnailSource == Str("url") {
        thumbURL := Param(item, "thumbnailUrl", Undefined);
      }
      media := Ok(Media(videoURL, source.value, thumbURL));
    }
  }

  /** The thumbnail of an uploaded video. */
  method FetchThumbnail(http: HttpHelper, item: Item, i: nat, urls: Value, videoURL: Value) returns (media: Outcome<Media>)
    modifies http
    ensures var s := ThumbnailStage(http.server, old(http.sent), item, i, urls, videoURL);
      http.sent == s.sent && media == s.media
  {
    var thumbnailSource := Param(item, "thumbnailSource", Str("none"));
    var thumbURL := Undefined;
    if thumbnailSource == Str("binary") {
      var property := Param(item, "thumbnailBinaryProperty", Undefined);
      if HasBinary(item, property) {
        var thumbUpload := UploadUrl(urls, "thumb");
        if thumbUpload.Fail? {
          media := Fail(thumbUpload.message);
          return;
        }
        var uploaded := UploadFile(http, thumbUpload.value, BufferOf(i, property));
        if uploaded.Fail? {
          media := Fail(uploaded.message);
          return;
        }
        thumbURL := Str(StripQuery(thumbUpload.value));
      }
    } else if thumbnailSource == Str("url") {
      thumbURL := Param(item, "thumbnailUrl", Undefined);
    }
    media := Ok(Media(videoURL, "video-upload", thumbURL));
  }
}
