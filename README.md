# video-downloader server model

This project models `server.js` of a small video-download API built on
Express and `youtube-dl-exec`. It covers four parts:

- **Request checks and derived values.**
  - The `okURL` scheme check.
  - The extractor's argument object built from the `fmt` and `audio` query values.
  - The default file name, the content type, and the `Content-Disposition` header with its double quotes removed.
- **Reading the extractor's stderr, one chunk at a time.**
  - A `Destination: <path>` line renames the download to the path's base name.
  - A percentage such as `42.5%` becomes one progress event.
  - Percentages are kept as whole tenths, so no floating point appears.
- **The format listing of `GET /api/formats`.** It keeps the formats that carry both a video and an audio track.
- **The job lifecycle**, as a state machine (`Jobs`) and as a class (`ServerModel.Server`) whose handlers update its fields in place. It covers:
  - the `jobs` registry, one emitter per admitted download, and the progress (server-sent events) responses attached to it;
  - the download queue with at most two unsettled downloads;
  - the stderr and close handlers of each running download.

  Every handler of the class is proved to perform exactly one step of the state machine. Every step is proved to preserve the machine's invariant (`Jobs.Valid`).

The invariant states:

- every registered id names an emitter;
- an emitter's listeners are exactly the connected responses attached to it, each once;
- the queue is first in, first out, with at most two unsettled downloads, and nothing waits while a slot is free;
- every started download has the arguments and headers its query values call for;
- a response receives `done` at most once, as its last event, and only after its download's process closed.

The close handler at server.js:134 calls `jobs.delete(id)`, but no `id` is in scope in `doDownload`. The model therefore has two close handlers:

- `Jobs.OnClose`: as written, the handler throws after `done`.
- `Jobs.OnCloseIntended`: the entry is deleted and the promise resolves.

`Jobs.Step` and `Jobs.StepIntended` are the two machines. The consequences are listed under Findings.

The response headers are set (server.js:122-126) before any stderr chunk can be handled. They therefore always carry the default file name (`video.mp4` or `audio.mp3`), whatever destination the extractor announces later. The invariant and `JobsProperties.HeadersIgnoreDestination` state this.

Inputs from outside the model become parameters:

- the generated job id (`uuidv4`) is the `freshId` of a download request;
- what the extractor reports is a `Formats.Probe` value, or a stderr chunk given as a string;
- a process's `close` and `error` are events of the machine.

## Model

| member | source | states |
|---|---|---|
| Request.OkUrlIsSchemePrefix | server.js:34 | the URL check holds exactly when the text starts with "http://" or "https://", letters in any case |
| Request.OkUrl | server.js:34 | `okURL`: the text starts with `http`, an optional `s`, then `://`, letters in any case (its meaning is the lemma above) |
| Request.AbsentUrlRejected | server.js:34 | a missing `url` query value (seen by the regular expression as the text "undefined") fails the check |
| Request.FormatSelector | server.js:107 | a selector containing `+` is kept unchanged; otherwise it becomes `fmt` followed by "+bestaudio/best"; the result always contains `+` |
| Request.ExtractorArgs | server.js:94-108 | the base keys `output`, `no-playlist` and `progress` are always present with their values; audio adds exactly the three audio keys; otherwise a non-empty `fmt` adds exactly `format` with its selector; otherwise the object is the base one |
| Request.BuildArgs | server.js:94-108 | building the object key by key, as `Object.assign` and `args.format =` do, yields `ExtractorArgs` |
| Request.AudioIgnoresFormat | server.js:100-106 | with `audio === '1'`, the `fmt` value has no effect and no `format` key is set |
| Request.DefaultFilename | server.js:111 | the name is "audio.mp3" exactly when `audio` is "1", and "video.mp4" exactly when it is not |
| Request.ContentType | server.js:124-125 | the type is "audio/mpeg" exactly when `audio` is "1", and "application/octet-stream" exactly when it is not |
| Request.FilenameMatchesContentType | server.js:111-125 | the default name ends in ".mp3" exactly when the content type is "audio/mpeg" |
| Request.StripQuotes | server.js:123 | the result has no double quote and is no longer than the input |
| Request.StripQuotesDeletesOnlyQuotes | server.js:123 | the result is a subsequence of the input, with every character other than `"` kept as often as it occurs |
| Request.StripQuotesKeepsQuoteFree | server.js:123 | a name without double quotes is kept unchanged |
| Request.StripQuotesIdempotent | server.js:123 | stripping twice is stripping once |
| Request.StripQuotesAppend | server.js:123 | stripping a concatenation is concatenating the stripped parts |
| Request.DispositionName | server.js:123 | a name read back from a disposition value has no double quote |
| Request.Disposition | server.js:123 | the header value `attachment; filename="…"` around the quote-stripped name (read back by `DispositionRoundTrip`) |
| Request.DispositionRoundTrip | server.js:123 | reading the name back out of the header gives the stored name without its double quotes |
| Request.ResponseHeaders | server.js:122-126 | the disposition header carries the quote-stripped name and the content type follows `audio` |
| Numbers.NatText | server.js:69 | an integer's text is non-empty, all digits, and has no leading zero |
| Numbers.NatTextRoundTrip | server.js:69 | reading back the printed integer gives the integer |
| Numbers.DigitsValueBound | server.js:118 | k digits denote a number below 10^k |
| Numbers.DecimalTenths | server.js:119 | a number is read only from text that starts with a digit |
| Numbers.TenthsText | server.js:69 | a printed count of tenths starts with a digit and has only digits and a point |
| Numbers.TenthsTextRoundTrip | server.js:119 | `parseFloat` of what `JSON.stringify` prints for a percentage gives the same percentage |
| Numbers.ShortDecimalBound | server.js:118 | one to three digits, a point and one digit make at most 999.9 |
| Stderr.PercentAtUnique | server.js:118 | at a given position the pattern fits with at most one digit count, so greedy backtracking does not change the capture |
| Stderr.PercentMatchAtIsPattern | server.js:118 | the engine's match at a position exists exactly when the pattern fits there, and it captures that fit's value |
| Stderr.PercentMatchAt | server.js:118 | the engine's attempt at one position: three, then two, then one digit before the point, the first that fits giving the capture in tenths |
| Stderr.CaptureIsParsed | server.js:118-119 | `parseFloat` of the captured text is the capture counted in tenths, and it is at most 999.9 |
| Stderr.FindPercentFrom | server.js:118 | the search result is the first position at or after i where the pattern matches; none means no later position matches |
| Stderr.FindPercent | server.js:118-119 | a chunk reports a value exactly when the pattern occurs in it, and the value is at most 999.9 |
| Stderr.FindPercentIsLeftmost | server.js:118-119 | the value reported is the capture at the leftmost place where the pattern fits |
| Stderr.LineRest | server.js:115 | the greedy `.+` takes a prefix with no line terminator, stopping only at one or at the end |
| Stderr.FindDestinationFrom | server.js:115 | the search result is the first position at or after i where the tag is followed by a character of the same line |
| Stderr.FindDestination | server.js:115 | a destination is found exactly when "Destination: " is followed by a character of the same line; it is non-empty and has no line terminator |
| Stderr.FindDestinationOfLine | server.js:115 | a chunk announcing a name on its own line, with no earlier announcement, yields exactly that name |
| Stderr.LineRestOf | server.js:115 | the greedy `.+` stops exactly at the end of the line |
| Stderr.TrimTrailingSlashes | server.js:116 | the result is the input without its trailing slashes |
| Stderr.AfterLastSlash | server.js:116 | the result is the longest suffix without a slash |
| Stderr.Basename | server.js:116 | a base name contains no slash |
| Stderr.AfterLastSlashOfName | server.js:116 | a name without slashes is its own last component |
| Stderr.BasenameOfPath | server.js:116 | the base name of "dir/name", with any number of trailing slashes, is "name" |
| Stderr.TrimDropsSlashes | server.js:116 | trailing slashes added to a path not ending in one are removed again |
| Stderr.AfterLastSlashAppend | server.js:116 | after a directory ending in a slash, a slash-free name is the last component |
| Stderr.NextFilename | server.js:115-116 | a chunk without a destination keeps the file name; one with a destination gives a name without slashes |
| Sse.Json | server.js:69 | an event's JSON text has no newline |
| Sse.Frame | server.js:69 | the message `send` writes: `data:`, the event's JSON, a blank line (decoded back by `FrameRoundTrip`) |
| Sse.FrameRoundTrip | server.js:69 | a client reading a `data:<json>` message back gets the event that was sent |
| Sse.FrameEndsOnlyAtBlankLine | server.js:69 | a message contains no newline before its closing blank line, so a stream splits back into its messages |
| Formats.DimText | server.js:46 | a printed width or height is non-empty and contains no "x" |
| Formats.Resolution | server.js:46 | a non-empty `resolution` is used as it is; otherwise the text is the width, "x", then the height |
| Formats.Combined | server.js:43 | a format is kept when neither codec is the text "none"; an absent codec counts as present |
| Formats.ToEntry | server.js:44-50 | the entry copies `format_id`, `fps` and `ext` and takes `Resolution` as `res` |
| Formats.ListFormats | server.js:42-50 | the listing is no longer than the input and every entry has a non-empty `res` |
| Formats.ListFormatsAppend | server.js:42-50 | the listing of a concatenation is the concatenation of the listings |
| Formats.ListFormatsSingle | server.js:43-50 | a single format is listed, as its entry, exactly when both codecs are other than "none" |
| Formats.ListFormatsMembers | server.js:42-50 | an entry is listed exactly when some format with both tracks produces it |
| Formats.ListFormatsAllCombined | server.js:42-50 | when every format has both tracks, each is listed in its original order |
| Formats.FormatsReply | server.js:37-56 | the reply is 400 exactly when the URL fails the check; for an accepted URL, a document with a formats array is answered with its title and `ListFormats` of its formats, and a failed call or a missing array is answered with 500 "gagal ambil format" |
| Formats.ReplyListsCombined | server.js:42-51 | for an accepted URL, an entry is in the reply exactly when some combined format of the document produces it |
| Formats.BadUrlNeverProbes | server.js:39 | a rejected URL gets 400 "url tak valid", whatever the extractor would have answered |
| Jobs.InitValid | server.js:30-31 | the empty registry and the idle queue satisfy the invariant |
| Jobs.Emit | server.js:119 | every attached listener, and no other response, gets the event appended; nothing else changes |
| Jobs.Without | server.js:73 | `off` removes exactly that listener and keeps the others distinct |
| Jobs.Init | server.js:30-31 | the empty `jobs` map, no responses, and an idle queue with nothing unsettled or waiting |
| Jobs.Start | server.js:92-126 | the queue starts task t: it becomes unsettled and gets a run with its extractor arguments, the default file name and the headers built from that name |
| Jobs.Enqueue | server.js:87 | `queue.add`: the task starts at once when fewer than two are unsettled, otherwise it joins the end of the backlog |
| Jobs.Settle | server.js:30 | a settled promise frees its slot, and the oldest waiting task, if any, starts |
| Jobs.Registered | server.js:82-84 | `jobs.set` under the given id if truthy, else the generated one, of a fresh emitter with no listeners, and the task recorded |
| Jobs.Admit | server.js:78-89 | a URL failing `okURL` changes nothing; otherwise the download is registered and handed to the queue |
| Jobs.AdmitReply | server.js:80 | 400 "url tak valid" when `okURL` fails, otherwise the download goes ahead |
| Jobs.Subscribe | server.js:59-71 | an unknown id changes nothing; a known one gets a new connected response with no events, listening on its emitter |
| Jobs.SubscribeReply | server.js:61 | 404 for an unknown id, otherwise an event stream |
| Jobs.Unsubscribe | server.js:72-74 | the client's close marks its response disconnected and removes its listener |
| Jobs.Renamed | server.js:115-116 | the run's `filename` becomes `NextFilename` of the chunk; nothing else changes |
| Jobs.OnStderr | server.js:113-120 | for a running download, the rename, then one progress event to its listeners when the chunk carries a percentage |
| Jobs.Closed | server.js:132-133 | `done` goes to the download's listeners and the run is marked closed |
| Jobs.OnClose | server.js:132-136 | as written: `done` goes to the attached responses, the run is marked closed and the throw is recorded; the registry, the unsettled set and the backlog stay unchanged |
| Jobs.OnCloseIntended | server.js:132-136 | as intended: `done` goes out, the run is marked closed, the id's entry is deleted and the promise settles, freeing its slot |
| Jobs.OnError | server.js:131 | `reject`: an unsettled download's promise settles, freeing its slot; otherwise nothing changes |
| Jobs.Step | server.js:59-136 | one event of the server as written: a request, a client close, a stderr chunk, or a process's `close` or `error` |
| Jobs.StepIntended | server.js:59-136 | the same machine with the close handler repaired |
| JobsInvariant.AdmitValid | server.js:78-89 | a download request preserves the invariant |
| JobsInvariant.SubscribeValid | server.js:59-71 | a progress request preserves the invariant |
| JobsInvariant.UnsubscribeValid | server.js:72-74 | a client going away preserves the invariant |
| JobsInvariant.ReceiverIsAttached | server.js:70 | a response listening to an emitter is connected and attached to that emitter |
| JobsInvariant.RenamedValid | server.js:115-116 | renaming a running download preserves the invariant |
| JobsInvariant.OnStderrValid | server.js:113-120 | a stderr chunk preserves the invariant |
| JobsInvariant.ClosedValid | server.js:133 | `done` followed by marking the run closed preserves the invariant |
| JobsInvariant.OnCloseValid | server.js:132-136 | the close handler as written preserves the invariant |
| JobsInvariant.OnCloseIntendedValid | server.js:132-136 | the repaired close handler preserves the invariant |
| JobsInvariant.SettleValid | server.js:30 | settling a download and starting the oldest waiting one preserves the invariant |
| JobsInvariant.OnErrorValid | server.js:131 | a process `error` preserves the invariant |
| JobsInvariant.StepValid | server.js:59-136 | every event preserves the invariant |
| JobsInvariant.StepIntendedValid | server.js:59-136 | every event of the repaired machine preserves the invariant |
| JobsInvariant.Replay | server.js:59-136 | any sequence of events from a valid state ends in a valid state |
| JobsInvariant.ReplayIntended | server.js:59-136 | the same for the repaired machine |
| JobsProperties.AdmitRejectsBadUrl | server.js:80 | a download request gets 400 exactly when the URL fails the check, and exactly then the state is unchanged |
| JobsProperties.AdmitRegisters | server.js:82-84 | the given id when truthy, else the generated one, maps to a new emitter with no listeners, used by no other id; other entries and all responses are unchanged |
| JobsProperties.AdmitStartsOrQueues | server.js:87 | a download starts exactly when fewer than two are unsettled, with its arguments, default name and headers; otherwise it waits at the end of the queue |
| JobsProperties.SubscribeAbsent | server.js:60-61 | a progress request gets 404 exactly when the id is not registered, and exactly then nothing changes |
| JobsProperties.SubscribeAttaches | server.js:70 | a progress request for a known id attaches one new, empty, connected response to that emitter, once |
| JobsProperties.StepDelivery | server.js:69-74 | under any event, a response keeps its emitter; a disconnected one never changes; otherwise it gains at most one event, only while connected, and only from its own download's stderr or close |
| JobsProperties.StepIntendedDelivery | server.js:69-74 | the same holds for the repaired machine |
| JobsProperties.EmitDelivery | server.js:70 | an emit changes a response only when it is attached to that emitter, by one event |
| JobsProperties.OnStderrDelivery | server.js:119 | a stderr chunk delivers at most one event, to the download's own responses |
| JobsProperties.OnCloseDelivery | server.js:133 | the close handler delivers at most one event, to the download's own responses |
| JobsProperties.OnCloseIntendedDelivery | server.js:133 | the repaired close handler delivers in the same way |
| JobsProperties.DisconnectedStaysQuiet | server.js:72-74 | after its client goes away, a response receives nothing more, over any sequence of events |
| JobsProperties.EventsOnlyGrow | server.js:69-70 | what a response has received stays a prefix of what it has received later |
| JobsProperties.ProgressDelivered | server.js:118-119 | a chunk with a percentage sends exactly one progress event with that value to each connected response of the download |
| JobsProperties.NoPercentNoEvent | server.js:118-119 | a chunk without a percentage sends nothing to anybody |
| JobsProperties.HeadersIgnoreDestination | server.js:111-126 | a chunk renames the download but leaves its headers, which keep the default file name |
| JobsProperties.CloseAsWritten | server.js:132-136 | as written, `done` reaches each attached response, then the handler throws: the entry stays registered, the slot stays taken, nothing waiting starts |
| JobsProperties.CloseIntended | server.js:132-136 | as intended, `done` goes out in the same way, the entry is deleted and the oldest waiting download takes the freed slot |
| JobsProperties.OnErrorKeepsOthers | server.js:131 | a process `error` settles only its own download |
| JobsProperties.ClosedKeepsSlot | server.js:134-135 | as written, a closed download keeps its slot under every event except its own process's `error` |
| JobsProperties.StuckStep | server.js:134-135 | with both slots held by closed downloads, no event but an `error` frees a slot or starts a download |
| JobsProperties.QueueStuck | server.js:134-135 | the same over any sequence of events without an `error` |
| JobsProperties.StuckScenario | server.js:134 | three downloads, then the first two processes close: as written, the third never starts |
| JobsProperties.IntendedScenario | server.js:134-135 | the same events with the repaired handler start the third download |
| ServerModel.Server.constructor | server.js:30-31 | the server starts with an empty registry and an idle queue, in the valid state |
| ServerModel.Server.Emit | server.js:70 | the loop over the listeners appends the event to exactly the attached responses (`Jobs.Emit`) |
| ServerModel.Server.StartTask | server.js:92-126 | starting a task records its arguments, default name and headers (`Jobs.Start`) |
| ServerModel.Server.Settle | server.js:30 | settling frees the slot and starts the oldest waiting task (`Jobs.Settle`) |
| ServerModel.Server.Register | server.js:82-84 | `jobs.set` under the given or generated id with a fresh emitter (`Jobs.Registered`) |
| ServerModel.Server.HandleDownload | server.js:78-89 | the reply is 400 or accepted as `Jobs.AdmitReply`, and the new state is `Jobs.Admit` of the old, valid again |
| ServerModel.Server.HandleProgress | server.js:59-71 | the reply is 404 or an event stream, and the new state is `Jobs.Subscribe` of the old, valid again |
| ServerModel.Server.OnClientClose | server.js:72-74 | the new state is `Jobs.Unsubscribe` of the old, valid again |
| ServerModel.Server.Rename | server.js:115-116 | the download's `filename` becomes `Stderr.NextFilename` of the chunk |
| ServerModel.Server.OnStderrData | server.js:113-120 | the new state is `Jobs.OnStderr` of the old, valid again |
| ServerModel.Server.OnProcessClose | server.js:132-136 | as written: `thrown` holds exactly when a running download closes; the new state is `Jobs.OnClose` of the old |
| ServerModel.Server.OnProcessCloseIntended | server.js:132-136 | as intended: the new state is `Jobs.OnCloseIntended` of the old |
| ServerModel.Server.OnProcessError | server.js:131 | the new state is `Jobs.OnError` of the old, valid again |

## Left out

- Express routing, CORS, the rate limiter and `app.listen` are framework set-up. Only what the three handlers compute and reply is modelled.
- The extractor subprocess, `proc.stdout.pipe(res)` and `proc.stderr.pipe(process.stderr)` are I/O with a foreign process. Their observable inputs are parameters:
  - stderr chunks;
  - `close` and `error` events;
  - the metadata document of `/api/formats`.
- The download response body is what the pipe writes, so it is not modelled. Only the headers set on it are.
- The internals of `p-queue` cannot be seen. The queue is kept as its contract: at most two unsettled downloads, started in arrival order, with a slot freed when the download's promise settles. The `.catch` logging of a rejected task is left out.
- Concurrency and timing: events are processed one at a time, in any order the inputs give.
- `uuidv4` is a foreign call. The generated id is the `freshId` parameter of a download request.
- The `size` field of a format (server.js:49) is a floating-point division followed by `toFixed(1)`, so it is not modelled. The `fps` value is copied as an opaque real.
- The `title` field is copied. The `console.error` logging is left out.
- A query value that Express parses as an array (a repeated key) is not modelled. Query values are absent or one string.
- The metadata call (server.js:41) is taken to resolve to the extractor's parsed JSON document. The library export imported at server.js:11 (`raw`) is not part of this model. If it resolves to something without a `formats` array, the route always answers 500, which is the `Probed(_, None)` case of `Formats.FormatsReply`.
- Chunk boundaries are taken as the extractor delivers them. Each chunk is matched on its own, as in the source, so a `Destination:` line or a percentage split across two chunks may match in neither part, or in one part with a truncated name or value ("Destination: dir/ab" then "c.mp4" renames the download to "ab"; "[download] 1" then "23.4% of" reports 23.4).
- Text is a sequence of characters. UTF-8 decoding by `toString()` is not modelled.
- `path.basename` follows its POSIX form. The Windows form (backslash separators) is not modelled.
- `Jobs.OnClose` records the `ReferenceError` the close handler throws in `uncaught`, and the machine keeps running. Node's default reaction to an uncaught exception, which ends the process, is not modelled. See Findings.
- The progress response is never ended by the server after `done` (server.js:69-74), and nothing removes its listener until the client goes away. The model keeps it attached in the same way.
- The optional static front end (server.js:141) and `docs/app.js` are not part of this model.

## Findings

| source | as written | input that shows it | evidently intended | confidence | as-written member | corrected member |
|---|---|---|---|---|---|---|
| server.js:134 | the close handler calls `jobs.delete(id)`, but `doDownload` has no `id` in scope, so the call throws a `ReferenceError` right after `done` is emitted. The entry is never deleted and `resolve()` at server.js:135 is never reached, so the download's queue slot is never freed. | three `GET /api/download` requests with a valid URL and no `id`, then the first two extractor processes close: both slots stay held by finished downloads and the third download never starts. Under Node's defaults the first throw, which no `uncaughtException` handler catches, ends the whole server, so the stuck queue is observable only when the exception is caught and the process keeps running; in either case the delete and `resolve()` are never reached | delete the job's entry and resolve the promise, so that the oldest waiting download starts | high, not executed | JobsProperties.StuckScenario | JobsProperties.IntendedScenario |
