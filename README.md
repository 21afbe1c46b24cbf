# bilidown task dispatch, modelled in Dafny

This project models the task-dispatch logic of the bilidown download service's router,
`server/router/task.go`. It covers five pieces:

- **Link classification.** `extractBvidFromURL` tries four unanchored patterns in
  order: video, short link, season, episode. A short link is resolved through the
  redirect lookup and classified again.
- **Season-title heuristic of `createTask`.** The caller's season name wins. Otherwise
  the first `[...]` group of the first item's title is used, unless it looks like a
  number, a quality label, a duration or an upper-case tag.
- **Batch loop of `createTask`.** Each item is checked, its season folder is created,
  its record is stored as waiting with a sanitized title, and it is started. The first
  failing item ends the request. Items before it stay stored and started.
- **Decisions of `downloadVideoByURL`.** These cover the empty URL, the missing
  session, the season or episode lookup, the first episode, the default format of 80,
  the season sub-folder, and the stored and started task.
- **`deleteTask` and `getTaskStatus`.** Deleting a task that is already gone succeeds.
  A missing file is not an error. The status reply carries `download_url` only for a
  finished task and `error` only for a failed one.

Modules:

- `Common`: `Option`, `Result`, and `Outcome`, which is what a collaborator returns:
  a value or a failure cause.
- `Text`: RE2 character classes, greedy runs, decimal spelling and reading, and
  `strconv.Atoi` on digit strings.
- `Links`: `extractBvidFromURL`.
- `SeasonTitle`: the bracket heuristic.
- `Tasks`: the task record, item validation, and the status reply's data object.
- `UrlSubmit`: what `downloadVideoByURL` decides before it touches the disk or the
  database.
- `Store`: the `TaskStore` class and the pure specification of the batch loop.

The `TaskStore` class holds the state the handlers change:
- the database (`db`: the task table and the next id);
- the files and directories on disk;
- the list of ids handed to the download worker.

The handlers are methods that change these fields. The batch loop `RunBatch` is proved
against a pure specification, with two parts:
- `AdmitWorld` gives the state after one item;
- `BatchFrom` gives the rest of the loop.

Lemmas about that specification (`BatchFromReplies`, `BatchFromStore`) give
`CreateBatch` its contract:
- the replies written are those of each item's pass;
- the items before the first stop are stored under consecutive ids and started in
  order;
- at most the season folder is created.

The service's collaborators whose code is not part of this model are parameters:
- `Util`: `CheckBvidFormat`, `IsValidURL`, `IsValidFormatCode`, `FilterFileName`,
  `filepath.Join` and `Task.FilePath`, as uninterpreted functions;
- `Remote`: the session, the redirect lookup, the video, season and play-info lookups,
  and the stream-URL helpers;
- `Faults`: which directory creations, inserts, removals and database reads or deletes
  fail, and with what message;
- the download folder that `util.GetCurrentFolder` reads, as an `Outcome`.

Only the first bracket group of a title is examined. In `[1080P][MySeries] Ep01` the
candidate is `1080P`, which is excluded, so the season title is empty
(`SeasonTitle.QualityLabelFirst`).

What placing a resolved link does to the store is written once, as the predicate
`Placed` over the state before and after; `Place` and `SubmitUrl` both ensure it.

## Model

| member | source | states |
|---|---|---|
| Text.RunEnd | server/router/task.go:462-465 | the greedy `\w+` / `\d+` run: every character up to the end is in the class and the next one is not |
| Text.RunEndUnique | server/router/task.go:462-465 | any run that stops at a character outside the class is the greedy run |
| Text.DecimalRoundTrip | server/router/task.go:440 | reading back the decimal spelling of a number gives the number |
| Text.Atoi | server/router/task.go:274-279 | a digit string's value when it fits in a 64-bit int, and exactly the largest 64-bit int when it does not |
| Links.FindFrom | server/router/task.go:469-470 | the leftmost start of a match of one pattern: a match there, none before it, none at all when absent |
| Links.CaptureAt | server/router/task.go:470-480 | the capture group is the URL's own text right after the lead: the pattern's fixed opening followed by a non-empty run of its class, greedy (the next character, if any, is outside the class) |
| Links.Capture | server/router/task.go:470-471 | a pattern yields a capture exactly when it matches somewhere in the URL, and the capture is that of its leftmost match |
| Links.FirstMatchFrom | server/router/task.go:468-482 | the first pattern in list order that matches anywhere; none of the earlier ones matches |
| Links.ExtractWith | server/router/task.go:456-485 | a successful classification is never the short-link type |
| Links.Extract | server/router/task.go:456-485 | classification with the router's four patterns, in the order video, short, season, episode: a success is never a short link, a video id is `BV` followed by word characters, a season or episode id is digits |
| Links.NoPatternUnrecognized | server/router/task.go:468-484 | a URL matched by no pattern is refused with the unrecognized-link error |
| Links.FirstNonShortDecides | server/router/task.go:468-480 | when the first matching pattern is not the short link, the result is its capture and link type, whatever the redirect lookup |
| Links.ShortLookupFailure | server/router/task.go:473-477 | a short link whose redirect lookup fails passes that failure on |
| Links.ShortFollowsRedirect | server/router/task.go:473-478 | a short link is classified as its redirect target |
| Links.ExtractHopsMonotone | server/router/task.go:478 | the hop bound only matters when it runs out; a larger one gives the same answer |
| Links.ExtractCaptureShape | server/router/task.go:462-480 | a successful result is the capture of a pattern of that link type |
| Links.RouterPatternsWellShaped | server/router/task.go:462-465 | the video pattern captures `BV` plus word characters; the season and episode patterns capture digits |
| Links.CaptureHasIdShape | server/router/task.go:462-465 | a capture of a well-shaped pattern has the identifier shape of its link type |
| Links.ExtractWithShape | server/router/task.go:462-480 | over well-shaped patterns, a video id is `BV` followed by word characters and a season or episode id is digits |
| SeasonTitle.IndexOf | server/router/task.go:60 | the first position of a character at or after a start, or its absence |
| SeasonTitle.FindBracket | server/router/task.go:60 | the leftmost start of a `\[([^\]]+)\]` match |
| SeasonTitle.FirstBracket | server/router/task.go:60-62 | the group of the leftmost bracket match: non-empty, free of `]`, found in the title just before a `]`; none exactly when no bracket matches |
| SeasonTitle.InferSeasonTitle | server/router/task.go:52-72 | the caller's season name wins; otherwise the first bracket group names the season exactly when it survives the four exclusions |
| SeasonTitle.DurationReadings | server/router/task.go:66 | the leading-digits reading of `^\d+分\d+秒$` agrees with the pattern stated directly |
| SeasonTitle.LeadingBracket | server/router/task.go:60-62 | a bracket group opening the title is the candidate |
| SeasonTitle.LeadingGroupDecides | server/router/task.go:60-69 | a title opening with a bracket group is decided by that group alone |
| SeasonTitle.QualityLabelExcluded | server/router/task.go:65 | a quality label such as `1080P` is not a season name |
| SeasonTitle.AcronymExcluded | server/router/task.go:67 | an upper-case tag such as `NA` is not a season name |
| SeasonTitle.DurationExcluded | server/router/task.go:66 | a duration such as `12分30秒` is not a season name |
| SeasonTitle.SeriesNameAccepted | server/router/task.go:64-68 | the plain name `MySeries` passes all four exclusions |
| SeasonTitle.QualityLabelFirst | server/router/task.go:60-70 | a title opening with `[1080P]` has no season title, whatever follows |
| Tasks.StatusName | server/router/task.go:439-446 | every status has a non-empty stored name |
| Tasks.StatusNamesDistinct | server/router/task.go:439-446 | the stored name determines the status |
| Tasks.FirstFailing | server/router/task.go:75-97 | the message of the earliest failing check; none exactly when all pass |
| Tasks.Validate | server/router/task.go:75-97 | an item passes exactly when its bvid, cover, audio, video and format checks all pass |
| Tasks.ValidateIsFirstFailing | server/router/task.go:75-97 | the reported message is that of the first failing check in the order bvid, cover, audio, video, format |
| Tasks.ParamReplies | server/router/task.go:79-81 | one parameter failure is written, without stopping, exactly when the bvid passes and the cover, title or owner is empty |
| Tasks.BatchSeasonTitle | server/router/task.go:52-72 | an empty batch has no season title; a caller-given season name on the first item is used unchanged; otherwise the bracket heuristic runs on the first item's title |
| Tasks.BatchSeasonTitleFirstOnly | server/router/task.go:52-72 | only the first item decides the season title |
| Tasks.StatusData | server/router/task.go:432-446 | `task_id`, `status` and `title` are always present; `download_url` exactly when done, `error` exactly when failed |
| Tasks.DownloadUrlNamesTask | server/router/task.go:439-441 | the download link of a finished task reads back as that task's id |
| UrlSubmit.EffectiveFormat | server/router/task.go:333-337 | the requested format when it is non-zero and valid, else 80 |
| UrlSubmit.EffectiveFormatIdempotent | server/router/task.go:333-337 | choosing the format twice changes nothing |
| UrlSubmit.SeriesQuery | server/router/task.go:272-279 | a season link sets only ssid and an episode link only epid, to the id's value |
| UrlSubmit.ResolveMedia | server/router/task.go:272-329 | season or episode link: a failed season lookup, an empty season and a failed play-info lookup for episode 0 are each refused with their message, otherwise episode 0 and its play info under the season's title; video link: a failed video lookup is refused, a video without pages aborts, a failed play-info lookup for page 0 is refused, otherwise the video and its play info with no season title |
| UrlSubmit.Resolve | server/router/task.go:243-343 | the empty URL, then the missing session, then an unrecognized link (with the extraction message) are refused; a planned task's series flag follows the link type, its format is the effective one, and series tasks get the owner `番剧` |
| UrlSubmit.SeriesLinkUsesFirstEpisode | server/router/task.go:272-343 | for a season or episode link the one id is set, an empty season is refused, a failed play-info or stream lookup is refused with its message, and otherwise the plan is episode 0's bvid, cid, title, cover and duration with the effective format and both stream URLs, under the season title |
| UrlSubmit.VideoLinkUsesFirstPage | server/router/task.go:316-343 | for a video link a failed video lookup, play-info lookup or stream lookup is refused with its message, a video without pages aborts, and otherwise the plan is page 0 of the video with the effective format and both stream URLs, with no season title |
| Store.Passes | server/router/task.go:74-124 | each item's pass; only the first item may need its season folder created |
| Store.WithTask | server/router/task.go:119 | storing under the next id keeps ids consistent and never overwrites a record |
| Store.Added | server/router/task.go:114-124 | storing `n` items advances the next id by `n` |
| Store.AdmitWorld | server/router/task.go:75-124 | one loop round stores and starts the item exactly when its outcome is none, and creates at most the season folder |
| Store.BatchFromReplies | server/router/task.go:74-126 | the loop writes the replies of the items' passes and stores as many items as lead without a stop |
| Store.BatchFromStore | server/router/task.go:74-126 | the loop stores the leading items under consecutive ids from the old next id, starts them in order and creates at most the season folder |
| Store.AddedFacts | server/router/task.go:114-124 | storing `n` items adds exactly the ids from the old next id on, each the item's waiting record with sanitized title in the batch's folder, and keeps every old record |
| Store.BatchSucceedsIffAllStored | server/router/task.go:74-126 | every reply but the last is a parameter failure; the last is the creation reply exactly when every item is stored |
| Store.BatchFirstStop | server/router/task.go:75-122 | the first item that stops the batch decides the request's last reply |
| Store.BatchStoresLeadingItems | server/router/task.go:74-124 | the items stored are exactly those before the first that stops |
| Store.MissingFieldsStillStored | server/router/task.go:79-81 | an item with an empty cover, title or owner writes a parameter failure and is still stored: the batch ends with the creation reply |
| Store.TaskStore.MakeDirAll | server/router/task.go:104-110 | an existing directory is success; otherwise the directory is created, or the failure is reported and nothing changes |
| Store.TaskStore.Insert | server/router/task.go:119-123 | the record is stored under the next id, which was unused, or the database refusal is reported and nothing changes |
| Store.TaskStore.Admit | server/router/task.go:75-124 | one round writes the item's pass and leaves the state `AdmitWorld` gives |
| Store.TaskStore.RunBatch | server/router/task.go:74-126 | the loop leaves the state, replies and ids of the batch specification |
| Store.TaskStore.CreateBatch | server/router/task.go:44-126 | a folder lookup failure changes nothing; otherwise the replies are the passes' replies, the leading items are stored under consecutive ids, sanitized and waiting in the batch's folder, and started in order; at most the season folder is created, and it exists once any item is stored |
| Store.TaskStore.Delete | server/router/task.go:190-222 | a missing record is success and changes nothing; a missing file is not an error; another removal error stops before the record is deleted; otherwise file and record are removed |
| Store.TaskStore.DeleteTwice | server/router/task.go:200-204 | deleting twice is the same as deleting once, and both requests succeed |
| Store.TaskStore.StatusReply | server/router/task.go:425-452 | success exactly when the record exists, with the status data; otherwise the `任务不存在` failure |
| Store.TaskStore.Place | server/router/task.go:345-405 | at most the season folder is created, only for a series plan, and it exists unless its creation failed; folder lookup failure, season folder failure and insert failure each change nothing stored; otherwise the task is stored under the next id, started, and its id and sanitized title are returned |
| Store.TaskStore.SubmitUrl | server/router/task.go:243-405 | the handler aborts exactly when the link resolves to a video without pages; a refusal is replied unchanged and creates no folder; a resolved plan is placed as `Place` states, folders included |

## Left out

- HTTP plumbing is not modelled: the method checks, JSON decoding of the request bodies, and parsing of the `id` and `task_id` form values. Each handler starts after decoding, and replies are `Reply` values instead of written envelopes.
- `getActiveTask`, `getTaskList`, `showFile` and the handlers of `server/router/video.go` are not part of this model.
- The database is a map from id to record plus a next-id counter. The SQL of `task.Create`, `task.GetTask` and `task.DeleteTask` is not visible.
- Database failures are named by the record or the request. An insert fault is keyed by the task value, and a lookup or delete fault applies to the whole request.
- A record holds only the fields the router reads or writes. The other database columns, such as creation time, are left out.
- Task status is an enumeration, so a stored status string outside the four names cannot be represented.
- The download worker is left out. `go _task.Start()` is recorded as appending the id to `started`, and the shared `GlobalTaskList` is not modelled.
- Requests are modelled one at a time. Concurrency between handlers and download goroutines is not modelled.
- Strings are sequences of code points. Go's regexp decodes UTF-8 and matches rune by rune, so it finds the same matches; the byte offsets it reports are not used by the router.
- Links.ExtractWith: the `hops` bound is an addition of this model. The source follows redirects without a bound, and `RedirectLimit` only appears when the bound runs out (`Links.ExtractHopsMonotone`).
- A video whose page list is empty makes the source index `Pages[0]` out of range and abort. This is modelled as the `IndexOutOfRange` refusal, with no reply. The recovery by the HTTP server is not modelled.
- Store.TaskStore.SubmitUrl: the reply's `task_id` is the id the insert assigned. Setting `_task.ID` inside `task.Create` is taken to work that way.
- Text.Atoi: the clamp is to the largest 64-bit `int`. Go's `int` is 32 bits on 32-bit targets, where `strconv.Atoi` clamps at 2147483647 instead.
