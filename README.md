# Posty5 workflow nodes, modelled in Dafny

This project models the Posty5 plug-in nodes for the n8n workflow runtime. Each node turns the parameters of an
input item into requests to the Posty5 REST API. It then emits the response as output items.

The model covers:

- the request gateway (`utils/api.helpers.ts`). It builds the request record, injects `createdFrom: "n8n"` into
  POST bodies, unwraps the `{ result }` envelope, prefixes error messages, and builds the pre-signed upload `PUT`;
- the Social Publisher Post node. It sniffs the video's source from its URL and strips the query from upload
  URLs. It builds the post body with its per-platform configuration blocks and picks the endpoint. It issues the
  fixed sequence of requests for a binary upload and handles the status, list and settings queries;
- the parameter builders of the library-backed nodes: social task, short link, QR code, HTML hosting, form
  submission, workspace and HTML variables. They follow "include only when truthy" rules, with a few exceptions:
  a monetization flag kept when `false`, `pageInfo` synthesis, QR sub-objects whose strings default to `''`,
  and the conditional logo;
- the two loops every node repeats, each written once:
  - the "return all" pagination loop (`Paging.ReturnAll`);
  - the per-item loop with continue-on-failure (`Workflow.Execute`, specified by `ItemLoop.Run`).

Structure:

- `Json` holds JavaScript values, truthiness, and the string operations the nodes use (`includes`, `split`,
  `trim`).
- `Host` holds input items, `getNodeParameter`, and the library client. The client is a class that logs every
  call and answers from an oracle.
- `Gateway` holds the HTTP helper. It is a class that logs every request and answers from an oracle.
- Each node is specified twice:
  - by a pure reference function: `Plan` for the library-backed nodes, `Trace` for the Post node;
  - by an imperative `Process` method whose `ensures` ties the client's new call log and the item's response
    to that function.
- The reference functions carry the lemmas that state what the source promises.

The runtime's environment variable `POSTY5_BASE_URL` is the `environment` field of the HTTP helper. The remote
service is represented by the oracles of `HttpHelper` and `ApiClient`.

## Model

| member | source | states |
|---|---|---|
| Json.Get | nodes/Posty5SocialPublisherPost/Posty5SocialPublisherPost.node.ts:506-507 | reading a property throws exactly on `undefined`/`null`; on an object it yields the field or `undefined` |
| Json.Text | nodes/Posty5SocialPublisherPost/Posty5SocialPublisherPost.node.ts:625 | a template literal renders a string as itself and `undefined`/`null` as their names |
| Json.Field | nodes/Posty5ShortLink/Posty5ShortLink.node.ts:273-275 | `additionalFields.x` is the field when present, else `undefined` |
| Json.Or | nodes/Posty5ShortLink/Posty5ShortLink.node.ts:281-282 | `a \|\| b` is `a` when truthy, else `b` |
| Json.PutIfTruthy | nodes/Posty5SocialPublisherPost/Posty5SocialPublisherPost.node.ts:560-562 | the key is set exactly when the value is truthy; every other key is untouched and none is added |
| Json.Add | nodes/Posty5ShortLink/Posty5ShortLink.node.ts:271-278 | one in-place conditional assignment equals the reference `Put` |
| Json.PutSlot | nodes/Posty5ShortLink/Posty5ShortLink.node.ts:271-278 | a conditional assignment sets its key iff its condition holds and keeps all other keys and values |
| Json.PutOver | nodes/Posty5ShortLink/Posty5ShortLink.node.ts:270 | assigning on an object laid over `m` equals assigning first, then laying it over `m` |
| Json.MissingCharacter | nodes/Posty5SocialPublisherPost/Posty5SocialPublisherPost.node.ts:536-544 | `includes` is false when the pattern holds a character the string lacks |
| Json.JoinSplit | nodes/Posty5SocialPublisherPost/Posty5SocialPublisherPost.node.ts:578-579 | `split(',')` loses nothing: joining the pieces back gives the original string |
| Json.SplitPiecesFree | nodes/Posty5SocialPublisherPost/Posty5SocialPublisherPost.node.ts:578-579 | no piece of a split contains the separator |
| Json.SplitFirst | nodes/Posty5SocialPublisherPost/Posty5SocialPublisherPost.node.ts:507 | the first piece is the prefix before the first separator, which follows it when there is one |
| Json.SplitCount | nodes/Posty5SocialPublisherPost/Posty5SocialPublisherPost.node.ts:578-579 | there is exactly one more piece than separators |
| Json.TrimStart | nodes/Posty5SocialPublisherPost/Posty5SocialPublisherPost.node.ts:580 | the result is a suffix starting at a non-space, and everything before it is white space |
| Json.TrimEnd | nodes/Posty5SocialPublisherPost/Posty5SocialPublisherPost.node.ts:580 | the result is a prefix ending at a non-space, and everything after it is white space |
| Json.TrimInfix | nodes/Posty5SocialPublisherPost/Posty5SocialPublisherPost.node.ts:580 | `trim()` yields the infix of `s` with exactly white space around it |
| Json.TrimIdempotent | nodes/Posty5SocialPublisherPost/Posty5SocialPublisherPost.node.ts:580 | trimming twice equals trimming once |
| Host.Param | __tests__/setup.ts:24-27 | `getNodeParameter` yields the set value, and the fallback when the parameter is absent or set to `undefined` |
| Host.PageSize | nodes/Posty5ShortLink/Posty5ShortLink.node.ts:322 | page size is 100 for "return all", else the `limit` parameter, 50 when it is not set |
| Host.ListParams | nodes/Posty5ShortLink/Posty5ShortLink.node.ts:320-324 | `{page: 1, pageSize, ...filters}`: every filter is kept and overrides `page`/`pageSize`; no other key |
| Host.ApiClient.Invoke | nodes/Posty5ShortLink/Posty5ShortLink.node.ts:286 | a client call is appended to the log and resolves to the oracle's reply at that position |
| Host.ApiClient.List | nodes/Posty5ShortLink/Posty5ShortLink.node.ts:332 | `client.list(filters, {page, pageSize})` is logged and answered by the page oracle |
| Gateway.BaseUrl | utils/api.helpers.ts:28 | the base URL is the environment variable when set, else `https://api.posty5.com` |
| Gateway.PostCarriesCreatedFrom | utils/api.helpers.ts:40-47 | every POST body is an object with `createdFrom = "n8n"`, also without a caller body and over a caller's `createdFrom`; other caller fields are kept, and no others are added |
| Gateway.OtherBodiesUnchanged | utils/api.helpers.ts:40-47 | a non-POST request carries a body iff the caller's is truthy, and then carries it unchanged |
| Gateway.RequestShape | utils/api.helpers.ts:28-38 | URL = base URL ++ endpoint; `X-API-Key` and JSON content type always sent; `qs` iff truthy, unchanged |
| Gateway.Unwrap | utils/api.helpers.ts:56-65 | an object with a `result` key yields that result; any other response yields itself |
| Gateway.ErrorDetail | utils/api.helpers.ts:68 | server body message, else the error message, else `Unknown error` |
| Gateway.ApiOutcomes | utils/api.helpers.ts:53-70 | a reply is unwrapped; a failure is rethrown as `Posty5 API Error: ` followed by the detail |
| Gateway.MakeApiRequest | utils/api.helpers.ts:23-71 | sends exactly the reference request once and resolves to the reference outcome of the reply |
| Gateway.PaginatedQuery | utils/api.helpers.ts:82-97 | one GET without body; `qs` holds every filter and every pagination key; pagination wins on collision; no other key |
| Gateway.MakePaginatedRequest | utils/api.helpers.ts:82-97 | exactly one request, with no loop over pages |
| Gateway.UploadShape | utils/api.helpers.ts:110-118 | the upload is a PUT of the raw buffer to the given URL, as an octet stream, without the API key, with the full response |
| Gateway.UploadOutcome | utils/api.helpers.ts:120-126 | the full response is returned unchanged; a failure becomes `File Upload Error: ` followed by the detail |
| Gateway.UploadFile | utils/api.helpers.ts:105-127 | sends exactly the upload request once and resolves to its outcome |
| Paging.ReturnAll | nodes/Posty5SocialPublisherTask/Posty5SocialPublisherTask.node.ts:554-566 | the loop requests pages 1..n in order, pages 1..n-1 came back full and page n did not, and the result is the reference listing `Paginate` of those replies |
| Paging.FirstPage | nodes/Posty5ShortLink/Posty5ShortLink.node.ts:339-345 | the bounded listing is a single list call emitting that page's items |
| Paging.PaginateStops | nodes/Posty5ShortLink/Posty5ShortLink.node.ts:326-338 | a listing that stops at the first short page yields the concatenation of all pages in order, or the failure of the last request |
| Paging.FailureFailsListing | nodes/Posty5ShortLink/Posty5ShortLink.node.ts:331-333 | a failing page request fails the whole listing with its error |
| Paging.FlattenFullLength | nodes/Posty5ShortLink/Posty5ShortLink.node.ts:333-334 | full pages contribute `pageSize` items each |
| Paging.RequestCount | nodes/Posty5ShortLink/Posty5ShortLink.node.ts:331-336 | with `total` items the loop issues `total / size + 1` requests; the last page is empty iff `size` divides `total` |
| Paging.NextPage | nodes/Posty5ShortLink/Posty5ShortLink.node.ts:332-335 | a full page extends the accumulated items and keeps the loop going; any other reply ends the listing |
| Effects.CallsAdded | nodes/Posty5QrCode/Posty5QrCode.node.ts:612-641 | an item's effect adds exactly its own call, or list calls starting at page 1, or nothing, keeping the earlier calls |
| Effects.UnfilteredListShape | nodes/Posty5SocialPublisherWorkspace/Posty5SocialPublisherWorkspace.node.ts:215-240 | the unfiltered listing sends `{}` as filters; returnAll lists all pages of 100; otherwise one page-1 call of `limit` (50) |
| Effects.FilteredListShape | nodes/Posty5FormSubmission/Posty5FormSubmission.node.ts:184-214 | the filters go to the client unchanged in both forms; page size is the `pageSize` filter, else 100 or `limit`; the bounded call asks for page 1 |
| Effects.ListUnfiltered | nodes/Posty5SocialPublisherWorkspace/Posty5SocialPublisherWorkspace.node.ts:215-240 | carries out the unfiltered listing as `UnfilteredList` says |
| Effects.ListFiltered | nodes/Posty5FormSubmission/Posty5FormSubmission.node.ts:184-214 | carries out the filtered listing as `FilteredList` says |
| ItemLoop.ContributionShape | nodes/Posty5ShortLink/Posty5ShortLink.node.ts:348-359 | an array response gives one output per element, in order; any other value gives one output; a failure gives one `{error}` output; all are paired with the item |
| ItemLoop.RunShape | nodes/Posty5ShortLink/Posty5ShortLink.node.ts:348-362 | output count = sum of per-item contributions, in item order |
| ItemLoop.ContinueCompletes | nodes/Posty5QrCode/Posty5QrCode.node.ts:649-658 | with continue-on-failure the run always completes, and every item contributes |
| ItemLoop.OnePerItem | nodes/Posty5ShortLink/Posty5ShortLink.node.ts:348-359 | without array responses, output k is paired with item k |
| ItemLoop.AbortOnFailure | nodes/Posty5ShortLink/Posty5ShortLink.node.ts:353-362 | without continue-on-failure the run fails iff some item fails, and then with the first failure's error |
| ItemLoop.CompletesWithoutFailure | nodes/Posty5ShortLink/Posty5ShortLink.node.ts:353-362 | without continue-on-failure the run completes iff no item fails |
| ItemLoop.FailsAtFirst | nodes/Posty5ShortLink/Posty5ShortLink.node.ts:361 | the error rethrown is that of the first failing item |
| ItemLoop.RunConcat | nodes/Posty5ShortLink/Posty5ShortLink.node.ts:348-352 | a completed run emits the contributions of the items concatenated front to back |
| Workflow.Execute | nodes/Posty5QrCode/Posty5QrCode.node.ts:451-662 | every item processed is one step of its node's reference; output = `Run` of the responses; processing stops only after a failing item without continue-on-failure |
| Workflow.ProcessItem | nodes/Posty5QrCode/Posty5QrCode.node.ts:464-648 | an item's body is its node's reference step |
| Social.Includes | nodes/Posty5SocialPublisherPost/Posty5SocialPublisherPost.node.ts:573 | `includes` searches strings by substring and arrays by element, and throws iff the value is neither |
| Social.TagListPieces | nodes/Posty5SocialPublisherPost/Posty5SocialPublisherPost.node.ts:577-581 | one tag per comma-separated piece, in order, each trimmed, comma-free and trim-stable |
| Social.YoutubeSettings | nodes/Posty5SocialPublisherPost/Posty5SocialPublisherPost.node.ts:576-581 | a non-empty tag string becomes the trimmed split list; every other key and non-string tags are copied unchanged |
| Social.Attach | nodes/Posty5SocialPublisherPost/Posty5SocialPublisherPost.node.ts:585-590 | a platform's settings are attached iff it is selected and the collection is non-empty |
| Social.AttachTo | nodes/Posty5SocialPublisherTask/Posty5SocialPublisherTask.node.ts:519-524 | the in-place attachment equals `Attach` |
| Social.PlatformKeysPresent | nodes/Posty5SocialPublisherPost/Posty5SocialPublisherPost.node.ts:573-604 | each platform key is present iff selected and non-empty, holding its settings; other keys are kept; building throws iff `platforms` is neither string nor array |
| Social.AttachFour | nodes/Posty5SocialPublisherTask/Posty5SocialPublisherTask.node.ts:507-538 | four attachments under distinct fresh keys each land in their own slot and keep the rest |
| Social.AttachKeeps | nodes/Posty5SocialPublisherTask/Posty5SocialPublisherTask.node.ts:519-524 | an attachment keeps every other key and adds only its own |
| PostNode.SniffPrecedence | nodes/Posty5SocialPublisherPost/Posty5SocialPublisherPost.node.ts:536-544 | facebook.com/fb.watch, then tiktok.com, then youtube.com/youtu.be, else video-url, each as an iff |
| PostNode.SniffNeverUpload | nodes/Posty5SocialPublisherPost/Posty5SocialPublisherPost.node.ts:536-544 | a URL is never sniffed as an upload; sniffing throws iff the URL is neither string nor array |
| PostNode.SniffPlain | nodes/Posty5SocialPublisherPost/Posty5SocialPublisherPost.node.ts:542-543 | a URL without `f`, `k`, `b` is a plain video URL |
| PostNode.SniffFacebookLink | __tests__/Posty5SocialPublisherPost.node.account.test.ts:346-517 | a facebook.com watch link is a Facebook video |
| PostNode.SniffTiktok | nodes/Posty5SocialPublisherPost/Posty5SocialPublisherPost.node.ts:538-539 | a URL naming tiktok.com and no `f` is a TikTok video |
| PostNode.SniffTiktokLink | __tests__/Posty5SocialPublisherPost.node.account.test.ts:346-517 | a tiktok.com link is a TikTok video |
| PostNode.StripQueryPrefix | nodes/Posty5SocialPublisherPost/Posty5SocialPublisherPost.node.ts:507 | the stripped URL is the prefix before the first `?`, or the whole URL without one |
| PostNode.StripQueryIdempotent | nodes/Posty5SocialPublisherPost/Posty5SocialPublisherPost.node.ts:526 | stripping twice equals stripping once |
| PostNode.UploadUrlFound | nodes/Posty5SocialPublisherPost/Posty5SocialPublisherPost.node.ts:506-507 | the upload URL is found iff the answer holds a string at `<slot>.uploadFileURL`, and is that string |
| PostNode.Schedule | nodes/Posty5SocialPublisherPost/Posty5SocialPublisherPost.node.ts:565-570 | `now` unless the option is `later`, then the ISO text of the schedule date |
| PostNode.BaseBodyShape | nodes/Posty5SocialPublisherPost/Posty5SocialPublisherPost.node.ts:552-570 | exact key set of the fixed body; `thumbURL` present iff truthy |
| PostNode.PostBodyFails | nodes/Posty5SocialPublisherPost/Posty5SocialPublisherPost.node.ts:573 | the body cannot be built iff `platforms` is neither string nor array |
| PostNode.PostBodyShape | nodes/Posty5SocialPublisherPost/Posty5SocialPublisherPost.node.ts:552-604 | the fixed body plus exactly the config blocks of the selected platforms with non-empty settings |
| PostNode.ThumbnailRules | nodes/Posty5SocialPublisherPost/Posty5SocialPublisherPost.node.ts:510-530 | a binary thumbnail is uploaded only when requested and present, by one PUT of its buffer to the reply's `thumb.uploadFileURL`, and `thumbURL` is that URL up to its first `?`; the `url` source takes the given URL; otherwise there is no thumbnail |
| PostNode.BinaryMedia | nodes/Posty5SocialPublisherPost/Posty5SocialPublisherPost.node.ts:491-530 | the upload-URL POST goes first; when ready, the video buffer was PUT to the reply's `video.uploadFileURL`, then the thumbnail buffer to `thumb.uploadFileURL` if uploaded; source `video-upload`; `videoURL` and `thumbURL` are those upload URLs up to their first `?` |
| PostNode.UrlMedia | nodes/Posty5SocialPublisherPost/Posty5SocialPublisherPost.node.ts:531-549 | a URL video sends nothing while preparing; source is the sniffed one, never an upload; only a thumbnail URL can go with it |
| PostNode.PublishCreates | nodes/Posty5SocialPublisherPost/Posty5SocialPublisherPost.node.ts:472-620 | after the media, exactly one POST of the body to the endpoint of target and source; nothing more when the media or body fails |
| PostNode.EndpointRoutes | nodes/Posty5SocialPublisherPost/Posty5SocialPublisherPost.node.ts:607-614 | `/short-video/workspace/` iff publishVideo; `/by-file` iff source is `video-upload`, else `/by-url` |
| PostNode.QueriesSendOne | nodes/Posty5SocialPublisherPost/Posty5SocialPublisherPost.node.ts:621-652 | status, list and settings each send one GET under the prefix; a bounded list sends `{workspaceId, page: 1, pageSize: limit}` and emits `result.items` |
| PostNode.UnknownOperationQuiet | nodes/Posty5SocialPublisherPost/Posty5SocialPublisherPost.node.ts:470-652 | an unknown operation sends nothing and emits `{}` |
| PostNode.WrittenPrefixMissesPath | nodes/Posty5SocialPublisherPost/Posty5SocialPublisherPost.node.ts:498 | as written, with no `POSTY5_BASE_URL` set, the first request of a binary publish goes to `https://api.posty5.comundefined/generate-upload-urls` (the base URL and the endpoint are joined with nothing between them), which does not contain the posts path |
| PostNode.IntendedUploadUrlsPath | nodes/Posty5SocialPublisherPost/Posty5SocialPublisherPost.node.ts:496-503 | with the intended prefix, the upload-URL request goes to `/api/social-publisher-post/generate-upload-urls` |
| PostNode.IntendedCreatePath | nodes/Posty5SocialPublisherPost/Posty5SocialPublisherPost.node.ts:607-620 | with the intended prefix, the create request goes under `/api/social-publisher-post` |
| PostNode.Process | nodes/Posty5SocialPublisherPost/Posty5SocialPublisherPost.node.ts:470-652 | the requests sent and the response are exactly the reference `Trace` |
| PostNode.PublishVideo | nodes/Posty5SocialPublisherPost/Posty5SocialPublisherPost.node.ts:472-620 | the publish branch is exactly the reference `Publish` |
| PostNode.FetchMedia | nodes/Posty5SocialPublisherPost/Posty5SocialPublisherPost.node.ts:486-549 | media preparation is exactly the reference `MediaStage` |
| PostNode.FetchThumbnail | nodes/Posty5SocialPublisherPost/Posty5SocialPublisherPost.node.ts:510-530 | thumbnail handling is exactly the reference `ThumbnailStage` |
| TaskNode.BaseParamsShape | nodes/Posty5SocialPublisherTask/Posty5SocialPublisherTask.node.ts:464-504 | workspaceId, platforms, video and schedule are always present; video is the URL unless binary; thumbnail present iff (binary and the property exists) or source is url; schedule `now` unless later |
| TaskNode.PublishParamsShape | nodes/Posty5SocialPublisherTask/Posty5SocialPublisherTask.node.ts:506-538 | settings keys present iff selected and non-empty; fixed part kept; throws iff `platforms` is neither string nor array |
| TaskNode.ListIgnoresWorkspace | nodes/Posty5SocialPublisherTask/Posty5SocialPublisherTask.node.ts:544-570 | `listWorkspaceId` changes nothing; empty filters; 100 per page for returnAll, else one page-1 call of `limit` |
| TaskNode.Operations | nodes/Posty5SocialPublisherTask/Posty5SocialPublisherTask.node.ts:457-573 | unknown operations make no call; publish throws iff building fails, else calls `publishShortVideo`; status calls `getStatus(taskId)` |
| TaskNode.Process | nodes/Posty5SocialPublisherTask/Posty5SocialPublisherTask.node.ts:455-573 | the client's calls and the response are exactly the reference `Plan` |
| TaskNode.Publishing | nodes/Posty5SocialPublisherTask/Posty5SocialPublisherTask.node.ts:464-538 | the key-by-key build equals `PublishParams` |
| TaskNode.Basics | nodes/Posty5SocialPublisherTask/Posty5SocialPublisherTask.node.ts:464-504 | the key-by-key build equals `BaseParams` |
| ShortLinkNode.LabelsShape | nodes/Posty5ShortLink/Posty5ShortLink.node.ts:270-275 | name, customLandingId, tag, refId, templateId each present iff truthy, with their values; nothing else added |
| ShortLinkNode.LabelsDomain | nodes/Posty5ShortLink/Posty5ShortLink.node.ts:271-275 | the labels add only the five label keys |
| ShortLinkNode.LinkFieldsKeep | nodes/Posty5ShortLink/Posty5ShortLink.node.ts:270-284 | the optional fields keep `url`/`id` and the labels and add only the optional keys |
| ShortLinkNode.LinkFieldsExtras | nodes/Posty5ShortLink/Posty5ShortLink.node.ts:276-284 | `isEnableMonetization` present iff defined, `false` included; `pageInfo` present iff title or description is truthy, the missing one `''` |
| ShortLinkNode.CreateAndUpdate | nodes/Posty5ShortLink/Posty5ShortLink.node.ts:264-312 | create = `{url}` + optional fields; update = `{id}` + the same optional fields, never a `url` |
| ShortLinkNode.FieldsOver | nodes/Posty5ShortLink/Posty5ShortLink.node.ts:270-284 | the optional fields on any start object equal those on `{}` laid over it |
| ShortLinkNode.ListShape | nodes/Posty5ShortLink/Posty5ShortLink.node.ts:317-345 | the listing sends `{page: 1, pageSize, ...filters}`; filters may override the page size and the bounded call's page |
| ShortLinkNode.Operations | nodes/Posty5ShortLink/Posty5ShortLink.node.ts:264-346 | unknown operations make no call and emit `{}`; nothing throws before its call |
| ShortLinkNode.Process | nodes/Posty5ShortLink/Posty5ShortLink.node.ts:262-346 | the client's calls and the response are exactly the reference `Plan` |
| ShortLinkNode.Labelled | nodes/Posty5ShortLink/Posty5ShortLink.node.ts:271-275 | the in-place build equals `Labels` |
| ShortLinkNode.Fields | nodes/Posty5ShortLink/Posty5ShortLink.node.ts:271-284 | the in-place build equals `LinkFields` |
| QrCodeNode.BaseShape | nodes/Posty5QrCode/Posty5QrCode.node.ts:472-476 | name, tag, refId, templateId each present iff truthy; nothing else added |
| QrCodeNode.BaseOver | nodes/Posty5QrCode/Posty5QrCode.node.ts:545-549 | update's base on `{id}` equals create's base laid over `{id}` |
| QrCodeNode.ContentShape | nodes/Posty5QrCode/Posty5QrCode.node.ts:478-488 | exactly seven types are known; url and freeText set flat `url`/`text` |
| QrCodeNode.SubObjects | nodes/Posty5QrCode/Posty5QrCode.node.ts:489-533 | exact key sets of the email, wifi, call, sms and geolocation sub-objects; optional strings default to `''` |
| QrCodeNode.CreateAndUpdate | nodes/Posty5QrCode/Posty5QrCode.node.ts:467-608 | create and update call the same type's method with the same parameters; update adds `id` and passes it first; an unknown type makes neither call |
| QrCodeNode.Operations | nodes/Posty5QrCode/Posty5QrCode.node.ts:465-641 | no call (response `{}`) iff the operation is unknown or the type is unknown; the listing is the filtered one |
| QrCodeNode.Process | nodes/Posty5QrCode/Posty5QrCode.node.ts:465-641 | the client's calls and the response are exactly the reference `Plan` |
| QrCodeNode.Based | nodes/Posty5QrCode/Posty5QrCode.node.ts:472-476 | the in-place build equals `Base` |
| QrCodeNode.Send | nodes/Posty5QrCode/Posty5QrCode.node.ts:478-535 | the switch makes exactly the call `Request` describes |
| HtmlHostingNode.OptionalShape | nodes/Posty5HtmlHosting/Posty5HtmlHosting.node.ts:317-320 | customLandingId, tag, refId each present iff truthy; nothing else added |
| HtmlHostingNode.OptionalOver | nodes/Posty5HtmlHosting/Posty5HtmlHosting.node.ts:329-332 | the optional keys on fixed keys equal those on `{}` laid over them |
| HtmlHostingNode.Variants | nodes/Posty5HtmlHosting/Posty5HtmlHosting.node.ts:304-365 | all four variants send the name and the same optional keys; both GitHub variants add `githubFileUrl`; only updateFromGithub puts `id` into params; updateFromFile passes the id first |
| HtmlHostingNode.FileVariants | nodes/Posty5HtmlHosting/Posty5HtmlHosting.node.ts:311-315 | the file variants upload the `htmlFile` binary as an HTML file named `fileName` |
| HtmlHostingNode.ByIdOperations | nodes/Posty5HtmlHosting/Posty5HtmlHosting.node.ts:366-374 | get, delete and clearCache make exactly one call with the id |
| HtmlHostingNode.Operations | nodes/Posty5HtmlHosting/Posty5HtmlHosting.node.ts:84-89 | the offered `getFormIds` and every unknown operation make no call and emit `{}`; the listing is the filtered one |
| HtmlHostingNode.Process | nodes/Posty5HtmlHosting/Posty5HtmlHosting.node.ts:302-399 | the client's calls and the response are exactly the reference `Plan` |
| HtmlHostingNode.Optioned | nodes/Posty5HtmlHosting/Posty5HtmlHosting.node.ts:317-320 | the in-place build equals `VariantParams` |
| FormSubmissionNode.ByIdOperations | nodes/Posty5FormSubmission/Posty5FormSubmission.node.ts:175-183 | get, getAdjacent and delete each make one call keyed by the submission id |
| FormSubmissionNode.Operations | nodes/Posty5FormSubmission/Posty5FormSubmission.node.ts:36-59 | something is done iff the operation is offered; the filters go unchanged to the listing |
| FormSubmissionNode.Process | nodes/Posty5FormSubmission/Posty5FormSubmission.node.ts:173-214 | the client's calls and the response are exactly the reference `Plan` |
| WorkspaceNode.ParamsShape | nodes/Posty5SocialPublisherWorkspace/Posty5SocialPublisherWorkspace.node.ts:178-179 | `{name}` plus `description` iff truthy |
| WorkspaceNode.LogoRule | nodes/Posty5SocialPublisherWorkspace/Posty5SocialPublisherWorkspace.node.ts:182-187 | a logo file is attached iff the property name is non-empty and the item carries it |
| WorkspaceNode.CreateAndUpdate | nodes/Posty5SocialPublisherWorkspace/Posty5SocialPublisherWorkspace.node.ts:194-210 | update sends create's arguments with the workspace id first and on its own |
| WorkspaceNode.Operations | nodes/Posty5SocialPublisherWorkspace/Posty5SocialPublisherWorkspace.node.ts:215-240 | the listing never filters; unknown operations make no call |
| WorkspaceNode.Process | nodes/Posty5SocialPublisherWorkspace/Posty5SocialPublisherWorkspace.node.ts:171-240 | the client's calls and the response are exactly the reference `Plan` |
| WorkspaceNode.Describe | nodes/Posty5SocialPublisherWorkspace/Posty5SocialPublisherWorkspace.node.ts:178-179 | the in-place build equals `Params` |
| WorkspaceNode.LogoFile | nodes/Posty5SocialPublisherWorkspace/Posty5SocialPublisherWorkspace.node.ts:181-187 | the `let logoFile` assignment equals `Logo` |
| VariablesNode.Bodies | nodes/Posty5HtmlHostingVariables/Posty5HtmlHostingVariables.node.ts:198-213 | create sends exactly `{name, key, value}`, unchecked; update sends the same body with the id first |
| VariablesNode.Operations | nodes/Posty5HtmlHostingVariables/Posty5HtmlHostingVariables.node.ts:204-246 | get and delete make one call with the id; the listing is the filtered one; unknown operations make no call |
| VariablesNode.Process | nodes/Posty5HtmlHostingVariables/Posty5HtmlHostingVariables.node.ts:196-246 | the client's calls and the response are exactly the reference `Plan` |

## Left out

- Date parsing: `new Date(...)` and `toISOString()` are opaque values, `Date` and `IsoString`. The `RangeError` that `toISOString()` throws on an unparsable date (nodes/Posty5SocialPublisherPost/Posty5SocialPublisherPost.node.ts:567) is not modelled, because which strings outside the ISO format parse is up to the JavaScript engine, so the model does not decide validity.
- Floating point: numbers are integers. Latitude and longitude are passed through as given.
- Json.Spread: spreading a string or an array (`{ ...'ab' }`) yields index keys in JavaScript; the model yields `{}`. Every node reads an object at these points.
- Host.Collection: collection parameters are assumed to be objects. Two departures follow when they are not. A `null` collection makes the source throw a TypeError at its first field read (`additionalFields.tag` in nodes/Posty5QrCode/Posty5QrCode.node.ts:474, nodes/Posty5ShortLink/Posty5ShortLink.node.ts:273 and nodes/Posty5HtmlHosting/Posty5HtmlHosting.node.ts:319) or at `Object.keys(youtubeSettings)` (nodes/Posty5SocialPublisherPost/Posty5SocialPublisherPost.node.ts:575); the model reads it as `{}` and throws nothing. A non-empty string as a platform's settings has non-empty `Object.keys`, so the source attaches that string; the model reads it as `{}` and attaches nothing.
- Key order and serialisation: maps are unordered. Keys whose value is `undefined` are kept in the model, although JSON serialisation drops them.
- PostNode.UploadUrl: when `uploadFileURL` is not a string, the source still uploads to it and only then throws at `.split`. The model throws before the PUT.
- Host.BufferOf: `getBinaryDataBuffer` is total here. Its failure on a missing binary property is not modelled. This matters where the source reads a buffer without first checking that the property exists: `PostNode.MediaStage` for the video, `HtmlHostingNode.HtmlFile` for createFromFile and updateFromFile, and `TaskNode.Video` (and so `TaskNode.Basics`) for a binary video.
- TaskNode.PublishParams: the source rewrites `tags` in place on the settings object it also attaches, so the change is visible through every alias of that object. The model builds the parameters as values, so aliasing is not captured.
- Host.ApiClient.List: a page reply is a sequence of items. A reply whose `items` is missing or is not an array is not modelled; the source would fail or concatenate differently there.
- Paging.ReturnAll: requires `ListingsEnd`, meaning every listing eventually returns a short page or fails. The source has no bound and would loop forever against a service that always returns full pages.
- Gateway.HttpReply: error messages are strings. A non-string `message` on an error is not modelled.
- The `@posty5/*` client libraries are not modelled: their wire formats, paths and their own `createdFrom`. Each client method is a named call recorded with its arguments and answered by an oracle.
- Credentials and async: credential retrieval and async/await are left out. The API key is a parameter, and calls are strictly sequential. The real HTTP transport is the helper's oracle. The `POSTY5_BASE_URL` environment variable is the helper's `environment`.
- Operations that only the tests mention are not modelled, because the node code has no branch for them. They are `publishVideoToAccount` for the task node, `changeStatus` for form submissions and `getForNewPost` for workspaces. For the task node they fall into the "unknown operation" case.
- The node `description` blocks (UI parameter schemas) are not modelled; they are declarative data.
- Declaration-only files are not part of this model: `types/*.ts`, `credentials/Posty5Api.credentials.ts`, `jest.config.js` and `__mocks__/`. From `utils/constants.ts` only the base URL is used.
- Workflow.Execute: the operation is read once from item 0 and passed in as a parameter. `constructExecutionMetaData` is modelled as the identity plus the `pairedItem` tag.

## Findings

| source | as written | input that shows it | evidently intended | confidence | as-written member | corrected member |
|---|---|---|---|---|---|---|
| nodes/Posty5SocialPublisherPost/Posty5SocialPublisherPost.node.ts:498 | every endpoint uses `API_ENDPOINTS.SOCIAL_PUBLISHER_POST`, which `utils/constants.ts` does not define, so the prefix renders as `undefined` | a binary `publishVideo` with no `POSTY5_BASE_URL`: the first request goes to `https://api.posty5.com` + `undefined` + `/generate-upload-urls` | the prefix `/api/social-publisher-post`, which the node's tests expect | not executed | PostNode.WrittenPrefixMissesPath | PostNode.IntendedUploadUrlsPath, PostNode.IntendedCreatePath |
