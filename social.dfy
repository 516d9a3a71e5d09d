/** The pieces the two social-publisher nodes share: `includes` on the value a
    parameter resolved to, the YouTube tag list, and the per-platform settings
    attached when their platform is selected. */
module Social {
  import opened Json
  import opened Host

  /** `v.includes(x)`: substring search on a string, element search on an
      array; reading `includes` of `undefined` or `null` throws, and any other
      value has no such method. `expression` is the source text of `v`, which
      the error message names. */
  function Includes(v: Value, x: string, expression: string): (r: Outcome<bool>)
    ensures v.Str? ==> r == Ok(Contains(v.s, x))
    ensures v.Arr? ==> r == Ok(Str(x) in v.elems)
    ensures r.Fail? <==> !(v.Str? || v.Arr?)
  {
    match v
    case Str(s) => Ok(Contains(s, x))
    case Arr(elems) => Ok(Str(x) in elems)
    case Undefined => Fail("Cannot read properties of undefined (reading 'includes')")
    case Null => Fail("Cannot read properties of null (reading 'includes')")
    case _ => Fail(expression + ".includes is not a function")
  }

  /** `tags.split(',').map(t => t.trim())`. */
  function TagList(tags: string): (list: seq<Value>)
  {
    var pieces := Split(tags, ',');
    seq(|pieces|, k requires 0 <= k < |pieces| => Str(Trim(pieces[k])))
  }

  /** The tag list has one tag per comma-separated piece, in order: each is
      that piece without its surrounding white space, holds no comma, and
      trimming it again changes nothing. */
  lemma TagListPieces(tags: string)
    ensures var pieces := Split(tags, ',');
      && |TagList(tags)| == |pieces| == Count(tags, ',') + 1
      && Join(pieces, ',') == tags
      && forall k :: 0 <= k < |pieces| ==>
           && TagList(tags)[k] == Str(Trim(pieces[k]))
           && ',' !in Trim(pieces[k])
           && Trim(Trim(pieces[k])) == Trim(pieces[k])
  {
    var pieces := Split(tags, ',');
    SplitCount(tags, ',');
    JoinSplit(tags, ',');
    SplitPiecesFree(tags, ',');
    forall k | 0 <= k < |pieces|
      ensures ',' !in Trim(pieces[k]) && Trim(Trim(pieces[k])) == Trim(pieces[k])
    {
      TrimmedPiece(pieces[k], ',');
    }
  }

  /** Trimming keeps a piece free of the separator and is then final. */
  lemma TrimmedPiece(piece: string, sep: char)
    requires sep !in piece
    ensures sep !in Trim(piece) && Trim(Trim(piece)) == Trim(piece)
  {
    TrimIdempotent(piece);
    TrimInfix(piece);
  }

  /** The YouTube settings as sent: a non-empty tag string is replaced by its
      tag list; everything else is kept as it is. */
  function YoutubeSettings(settings: map<string, Value>): (r: map<string, Value>)
    ensures r.Keys == settings.Keys
    ensures forall k :: k in settings && k != "tags" ==> r[k] == settings[k]
    ensures "tags" in settings && settings["tags"].Str? && settings["tags"].s != "" ==>
      r["tags"] == Arr(TagList(settings["tags"].s))
    ensures "tags" in settings && !(settings["tags"].Str? && settings["tags"].s != "") ==>
      r["tags"] == settings["tags"]
  {
    if "tags" in settings && Truthy(settings["tags"]) && settings["tags"].Str? then
      settings["tags" := Arr(TagList(settings["tags"].s))]
    else settings
  }

  /** The keys under which a node attaches the settings of each platform. */
  datatype PlatformKeys = PlatformKeys(youtube: string, tiktok: string, facebook: string, instagram: string)

  /** The four keys are pairwise different. */
  predicate Distinct(keys: PlatformKeys)
  {
    && keys.youtube != keys.tiktok && keys.youtube != keys.facebook && keys.youtube != keys.instagram
    && keys.tiktok != keys.facebook && keys.tiktok != keys.instagram && keys.facebook != keys.instagram
  }

  /** Adds the settings collection `name` under `key` when the platform is
      selected and the collection is not empty. */
  function Attach(params: map<string, Value>, selected: bool, key: string, settings: map<string, Value>): (r: map<string, Value>)
    ensures selected && |settings| > 0 ==> r == params[key := Obj(settings)]
    ensures !(selected && |settings| > 0) ==> r == params
  {
    if selected && |settings| > 0 then params[key := Obj(settings)] else params
  }

  /** Attaches a platform's settings in place when it is selected and its
      settings are not empty. */
  method AttachTo(params: map<string, Value>, selected: bool, key: string, settings: map<string, Value>)
    returns (r: map<string, Value>)
    ensures r == Attach(params, selected, key, settings)
  {
    r := params;
    if selected {
      if |settings| > 0 {
        r := r[key := Obj(settings)];
      }
    }
  }

  /** The per-platform blocks: for each of YouTube, TikTok, Facebook and
      Instagram, in that order, `platforms.includes(name)` decides whether the
      node reads the platform's settings collection, which is attached when
      not empty; YouTube tags go through `YoutubeSettings`. When `platforms`
      is neither a string nor an array the first `includes` throws. */
  function WithPlatforms(params: map<string, Value>, platforms: Value, item: Item, keys: PlatformKeys): Outcome<map<string, Value>>
  {
    match Includes(platforms, "youtube", "platforms")
    case Fail(m) => Fail(m)
    case Ok(youtube) =>
      var p1 := Attach(params, youtube, keys.youtube, YoutubeSettings(Collection(item, "youtubeSettings")));
      var p2 := Attach(p1, Includes(platforms, "tiktok", "platforms").value, keys.tiktok, Collection(item, "tiktokSettings"));
      var p3 := Attach(p2, Includes(platforms, "facebook", "platforms").value, keys.facebook, Collection(item, "facebookSettings"));
      Ok(Attach(p3, Includes(platforms, "instagram", "platforms").value, keys.instagram, Collection(item, "instagramSettings")))
  }

  /** `platforms.includes(name)` for a string or an array. */
  predicate Selected(platforms: Value, name: string)
    requires platforms.Str? || platforms.Arr?
  {
    Includes(platforms, name, "platforms").value
  }

  /** In `r`, the settings of a platform sit under `key` exactly when the
      platform is selected and its settings are not empty. */
  predicate Slot(r: map<string, Value>, key: string, selected: bool, settings: map<string, Value>)
  {
    (key in r <==> selected && |settings| > 0) && (key in r ==> r[key] == Obj(settings))
  }

  /** A platform's key is present exactly when the platform is selected and
      its settings collection is not empty; its value is that collection, with
      YouTube tags split. The other keys are those the parameters had. */
  lemma PlatformKeysPresent(params: map<string, Value>, platforms: Value, item: Item, keys: PlatformKeys)
    requires keys.youtube !in params && keys.tiktok !in params && keys.facebook !in params && keys.instagram !in params
    requires Distinct(keys)
    ensures WithPlatforms(params, platforms, item, keys).Fail? <==> !(platforms.Str? || platforms.Arr?)
    ensures platforms.Str? || platforms.Arr? ==>
      var r := WithPlatforms(params, platforms, item, keys).value;
      && Slot(r, keys.youtube, Selected(platforms, "youtube"), YoutubeSettings(Collection(item, "youtubeSettings")))
      && Slot(r, keys.tiktok, Selected(platforms, "tiktok"), Collection(item, "tiktokSettings"))
      && Slot(r, keys.facebook, Selected(platforms, "facebook"), Collection(item, "facebookSettings"))
      && Slot(r, keys.instagram, Selected(platforms, "instagram"), Collection(item, "instagramSettings"))
      && (forall k :: k in params ==> k in r && r[k] == params[k])
      && (forall k :: k in r ==> k in params || k in {keys.youtube, keys.tiktok, keys.facebook, keys.instagram})
  {
    if platforms.Str? || platforms.Arr? {
      AttachFour(params, keys,
        Selected(platforms, "youtube"), YoutubeSettings(Collection(item, "youtubeSettings")),
        Selected(platforms, "tiktok"), Collection(item, "tiktokSettings"),
        Selected(platforms, "facebook"), Collection(item, "facebookSettings"),
        Selected(platforms, "instagram"), Collection(item, "instagramSettings"));
    }
  }

  /** Four attachments under four distinct fresh keys each land in their own slot. */
  lemma AttachFour(params: map<string, Value>, keys: PlatformKeys,
                   on1: bool, s1: map<string, Value>, on2: bool, s2: map<string, Value>,
                   on3: bool, s3: map<string, Value>, on4: bool, s4: map<string, Value>)
    requires keys.youtube !in params && keys.tiktok !in params && keys.facebook !in params && keys.instagram !in params
    requires Distinct(keys)
    ensures var r := Attach(Attach(Attach(Attach(params, on1, keys.youtube, s1), on2, keys.tiktok, s2), on3, keys.facebook, s3), on4, keys.instagram, s4);
      && Slot(r, keys.youtube, on1, s1) && Slot(r, keys.tiktok, on2, s2)
      && Slot(r, keys.facebook, on3, s3) && Slot(r, keys.instagram, on4, s4)
      && (forall k :: k in params ==> k in r && r[k] == params[k])
      && (forall k :: k in r ==> k in params || k in {keys.youtube, keys.tiktok, keys.facebook, keys.instagram})
  {
    var extra := {keys.youtube, keys.tiktok, keys.facebook, keys.instagram};
    var p1 := Attach(params, on1, keys.youtube, s1);
    AttachKeeps(params, on1, keys.youtube, s1, extra);
    var p2 := Attach(p1, on2, keys.tiktok, s2);
    AttachKeeps(p1, on2, keys.tiktok, s2, extra);
    var p3 := Attach(p2, on3, keys.facebook, s3);
    AttachKeeps(p2, on3, keys.facebook, s3, extra);
    var r := Attach(p3, on4, keys.instagram, s4);
    AttachKeeps(p3, on4, keys.instagram, s4, extra);
  }

  /** Attaching under `key` keeps every other entry and adds no key outside `extra`. */
  lemma AttachKeeps(params: map<string, Value>, selected: bool, key: string, settings: map<string, Value>, extra: set<string>)
    requires key in extra
    requires key !in params
    ensures var r := Attach(params, selected, key, settings);
      && (forall k :: k in params && k != key ==> k in r && r[k] == params[k])
      && (forall k :: k in r ==> k in params || k in extra)
      && Slot(r, key, selected, settings)
  {
  }
}
