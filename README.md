# Ext.ux.upload in Dafny

A model of the core of the Ext JS upload extension. The extension binds host
components as upload *triggers* or *drop zones*. It then routes the events of
its two transfer backends (swfupload and html5) into one log panel and one
`fileupload` event. The model has four modules.

- `Common` (common.dfy) holds the shared values: files, status lines, components and an `Option` type. It also has the first-match search that `Ext.each` performs, and the decimal rendering JavaScript applies when a number is concatenated to a string. That rendering comes with its inverse `ParseNat` and injectivity lemmas.
- `UploadLog` (upload_log.dfy) models `Ext.ux.upload.LogPanel`. It holds the queue of `{id, p}` items; each progress bar `p` is folded into the queue entry as its `isUploading` flag, value and rendered type. It also holds the status bar with its "k/n" counter. The pure functions `Added`, `Updated`, `CountUploading` and `CounterOf` specify what the class's methods do to the queue. The lemmas over them show four things:
  - ids stay unique;
  - the queue only grows;
  - a cleared `isUploading` flag is never set again, over any history of operations;
  - the counter text names its numbers unambiguously.
- `Upload` (upload.dfy) models `Ext.ux.upload.Uploader`:
  - configuration merging with `Ext.apply`/`Ext.applyIf`;
  - the role table used by `init`;
  - the registry of connectors;
  - the URL fan-out of `setUploadUrl`;
  - the lazily created log panel;
  - the `on*` handlers that translate connector events.
- `LegacyUpload` (legacy_upload.dfy) models the earlier single-file `Ext.ux.Uploader` with its `uploadLogPanel`:
  - the smaller role table;
  - the "N file(s) to upload" messages;
  - the dialog-complete rule;
  - the html5 drop path, which gives each file an `Ext.id()` and posts it with four headers;
  - the non-deduplicating progress list;
  - the sizing of the swfupload button once the movie is loaded.

Stateful JavaScript objects are Dafny classes. The uploader, the log panels and
the legacy SWFUpload object each have `modifies` frames on their methods. Effects
on objects outside the model are recorded as traces in `seq` fields:
- fired events (`fired`);
- `swf.setUploadURL` calls (`swfCalls`);
- the calls on a legacy SWFUpload object (`calls`).

JavaScript values that matter are modelled explicitly:
- `Value.Undefined` is what `Ext.applyIf` overwrites.
- An empty string stands for a missing `type`/`msg`, both falsy in JavaScript.
- A bar update on an id that is not queued raises a `TypeError`, because `getProgress` returned `false`. It is modelled as `ok == false` with no state change.

Progress is a `real`; only the comparison with 1 matters.

Three facts about the code shape the handler contracts:
- The `fileupload` event is documented as firing "when a file has been uploaded" (js/Ext.ux.upload.Uploader.js:80-84). With the log panel enabled, `onUploadComplete` first updates the file's bar, and that update raises for a file the panel does not know. So the event is fired only for a queued file (`Upload.Uploader.OnUploadComplete`). The legacy `uploadLoad` behaves the same way.
- `setUploadUrl` catches nothing: it sets each connector's url, then calls `swf.setUploadURL` where there is an `swf`.
- `init` raises nothing for a component of another xtype: it attaches no listener and registers no connector.

## Model

| member | source | states |
|---|---|---|
| Common.FirstIndex | js/Ext.ux.upload.LogPanel.js:162-167 | the `Ext.each` search finds the first position holding the id, None exactly when no position does |
| Common.FirstIndexAppend | js/Ext.ux.upload.LogPanel.js:114-117 | appending to the list never moves an existing first occurrence; a new id is found at the end |
| Common.NatToString | js/Ext.ux.upload.LogPanel.js:139 | a number concatenated to a string renders as at least one digit, with no leading zero |
| Common.ParseNatToString | js/Ext.ux.upload.LogPanel.js:139 | the decimal rendering is inverted by reading the digits back |
| Common.NatToStringInjective | js/Ext.ux.upload.LogPanel.js:139 | two numbers render the same text iff they are equal |
| Common.LeadingDigitsOf | js/Ext.ux.upload.LogPanel.js:139 | a rendered number followed by a non-digit has exactly its own digits as the leading digit run |
| Common.NumberThenText | js/Ext.ux.upload.LogPanel.js:139 | a rendered number followed by text that starts with a non-digit determines both the number and the text |
| UploadLog.Ids | js/Ext.ux.upload.LogPanel.js:114-117 | the id column of the queue, position by position |
| UploadLog.IndexOf | js/Ext.ux.upload.LogPanel.js:162-167 | `getProgress`'s position: the first item with the id, None iff no item has it |
| UploadLog.ResolveKind | js/Ext.ux.upload.LogPanel.js:125-129 | the bar type is the given type when there is one, else "success" at progress 1, else "loading" |
| UploadLog.Updated | js/Ext.ux.upload.LogPanel.js:121-134 | a successful update keeps the queue length |
| UploadLog.CountUploading | js/Ext.ux.upload.LogPanel.js:154-160 | the number of uploading bars is never more than the queue length |
| UploadLog.CountsPartition | js/Ext.ux.upload.LogPanel.js:135-143 | uploading plus finished bars make up the whole queue, so `length - count` counts the finished ones |
| UploadLog.CountUploadingZero | js/Ext.ux.upload.LogPanel.js:135-141 | the uploading count is 0 iff every bar's flag is cleared |
| UploadLog.CounterOf | js/Ext.ux.upload.LogPanel.js:135-144 | the total is the queue length; the counter is "loading" iff some bar uploads, and then shows finished+1, which lies in 1..n; otherwise it is "info" with n/n |
| UploadLog.FractionDetermines | js/Ext.ux.upload.LogPanel.js:139-143 | the "k/n)" text determines both k and n |
| UploadLog.CounterTextDetermines | js/Ext.ux.upload.LogPanel.js:136-144 | two status texts with the same label are equal only for the same k and n |
| UploadLog.EvolvesTransitive | js/Ext.ux.upload.LogPanel.js:106-128 | the queue's evolution relation (grows, keeps ids, flags only clear) composes |
| UploadLog.AddedProperties | js/Ext.ux.upload.LogPanel.js:106-119 | for a known id `addProgress` leaves the queue unchanged; for a new id it appends exactly one uploading entry with that id and keeps the earlier entries; ids stay unique and the file is found afterwards |
| UploadLog.AddedIdempotent | js/Ext.ux.upload.LogPanel.js:106-107 | a second `addProgress` for the same id changes nothing |
| UploadLog.UpdatedProperties | js/Ext.ux.upload.LogPanel.js:121-134 | only the file's entry changes; it gets the progress, the message and the resolved type; its flag is cleared at progress 1 or on error and kept otherwise; ids stay unique |
| UploadLog.RunEvolves | js/Ext.ux.upload.LogPanel.js:98-145 | over any history of add, update and clean operations, ids stay unique, the queue only grows and no cleared flag is set again |
| UploadLog.LogPanel.constructor | js/Ext.ux.upload.LogPanel.js:69-96 | a new panel has an empty queue, no bars shown, no status and a hidden frame |
| UploadLog.LogPanel.GetProgress | js/Ext.ux.upload.LogPanel.js:162-167 | returns the entry at the first index with the id, None (`false`) iff there is none |
| UploadLog.LogPanel.GetUploadingCount | js/Ext.ux.upload.LogPanel.js:154-160 | the loop counts exactly the uploading entries, at most the queue length |
| UploadLog.LogPanel.AddProgress | js/Ext.ux.upload.LogPanel.js:106-119 | the queue becomes `Added(queue, file)` and a bar is shown only for a new id; the panel invariant (unique ids, shown bars are queued) holds |
| UploadLog.LogPanel.UpdateProgress | js/Ext.ux.upload.LogPanel.js:121-145 | for a queued file the queue becomes `Updated(...)` and the status is the counter line of the new queue; for an unknown id it raises and nothing changes |
| UploadLog.LogPanel.SetStatus | js/Ext.ux.upload.LogPanel.js:147-152 | the status bar shows the given text with the given type |
| UploadLog.LogPanel.CleanLogPanel | js/Ext.ux.upload.LogPanel.js:98-100 | removes every shown bar but leaves the queue, so ids and counts are unaffected |
| UploadLog.LogPanel.Show | js/Ext.ux.upload.Uploader.js:313 | the frame hosting the panel becomes visible |
| Upload.Classify | js/Ext.ux.upload.Uploader.js:145-175 | "button"/"menuitem" are triggers; the five drop-zone xtypes are drop zones unless they are triggers; anything else is ignored |
| Upload.Apply | js/Ext.ux.upload.Uploader.js:56-62 | `Ext.apply` copies every source key over the target, and the target keeps its other keys |
| Upload.ApplyIf | js/Ext.ux.upload.Uploader.js:65-70 | `Ext.applyIf` keeps every defined target value, and fills a source key only where the target lacks it or holds `undefined` |
| Upload.WithUrl | js/Ext.ux.upload.Uploader.js:298-301 | every connector's url becomes the new URL; the count, the order and everything else are unchanged |
| Upload.SwfCallsExact | js/Ext.ux.upload.Uploader.js:298-301 | `setUploadURL` is called exactly once for each connector holding an `swf`, with the new URL, in registry order |
| Upload.SwfCallsStep | js/Ext.ux.upload.Uploader.js:298-301 | one loop step adds the call for the current connector, if it holds an `swf` |
| Upload.Uploader.constructor | js/Ext.ux.upload.Uploader.js:49-137 | the config overrides the defaults ("", "", 5, 1024, "*.*", true); `swfParams` has the five top-level values forced in, with the caller's other keys kept; `html5Params` keeps the caller's keys and gets the four defaults only where they are missing; the registry is empty |
| Upload.Uploader.SetDropZone | js/Ext.ux.upload.Uploader.js:182-200 | exactly one html5 connector built from `html5Params` is appended after the existing ones; a flagged component sets `dialogEl` |
| Upload.Uploader.SetTrigger | js/Ext.ux.upload.Uploader.js:207-237 | exactly one swfupload connector built from `swfParams` is appended after the existing ones |
| Upload.Uploader.Render | js/Ext.ux.upload.Uploader.js:145-175 | once the component renders, a trigger or a drop zone gains exactly one connector of its backend; any other component gains none and changes nothing |
| Upload.Uploader.GetLogPanel | js/Ext.ux.upload.Uploader.js:259-288 | the panel is created at most once, framed by a dialog iff `dialogEl` is set; every later call returns the same object |
| Upload.Uploader.SetUploadUrl | js/Ext.ux.upload.Uploader.js:294-302 | `url`, `swfParams.url`, `html5Params.url` and every connector's url become the new URL; the registry keeps its length and order; `setUploadURL` calls are made exactly for the connectors with an `swf` |
| Upload.Uploader.OnBeforeUpload | js/Ext.ux.upload.Uploader.js:306-308 | re-fires `beforeupload` with the connector and the file count |
| Upload.Uploader.OnUploadStart | js/Ext.ux.upload.Uploader.js:310-317 | with the log panel enabled, the panel is shown, holds `Added(queue, file)`, shows a new bar only for a new id, and shows "en attente..."; otherwise nothing changes |
| Upload.Uploader.OnUploadProgress | js/Ext.ux.upload.Uploader.js:319-327 | with the log panel enabled, a "loading" update of the file's bar and the counter line, with the shown bars and the frame unchanged; when the update raises, queue and status are unchanged; disabled, nothing changes |
| Upload.Uploader.OnUploadComplete | js/Ext.ux.upload.Uploader.js:329-338 | with the log panel enabled, a "success" update at progress 1 and the counter line, with the shown bars and the frame unchanged; when the update raises, queue and status are unchanged and `fileupload` is not fired; otherwise it is fired |
| Upload.Uploader.OnUploadError | js/Ext.ux.upload.Uploader.js:340-353 | with the log panel enabled, the panel is shown; a given file is added (a bar is shown only for a new id), then marked "error" at progress 0 with the message, and the status is the counter line; without a file, only the status shows the message; disabled, nothing changes |
| Upload.LogFileError | js/Ext.ux.upload.Uploader.js:343-350 | `addProgress` followed by an "error" update always finds the file; the queue is the update of the added queue, a bar is shown only for a new id, and the frame is unchanged |
| Upload.ErrorFinishesFile | js/Ext.ux.upload.Uploader.js:343-350 | an error reported for a file always leaves its bar finished and typed "error", whether or not the bar existed |
| Upload.CompleteFinishesFile | js/Ext.ux.upload.Uploader.js:329-336 | completing a queued file leaves its bar finished, typed "success" at progress 1, with the counter total unchanged |
| LegacyUpload.Classify | Ext.ux.Uploader.js:27-69 | "button"/"menuitem" are triggers, "dataview"/"panel" are drop zones, and anything else is ignored |
| LegacyUpload.FilesToUpload | Ext.ux.Uploader.js:287 | the message starts with the rendered count |
| LegacyUpload.FilesToUploadPlural | Ext.ux.Uploader.js:457 | the message reads "files" iff the count is above 1, and "file" otherwise |
| LegacyUpload.FilesToUploadDetermines | Ext.ux.Uploader.js:457 | different counts give different messages |
| LegacyUpload.GenIdInjective | Ext.ux.Uploader.js:257 | two `Ext.id()` values are equal iff their seeds are |
| LegacyUpload.WithFreshIds | Ext.ux.Uploader.js:256-257 | each dropped file is kept, with the next generated id as its id |
| LegacyUpload.FreshIdsUnique | Ext.ux.Uploader.js:256-257 | the ids of one drop are pairwise different and differ from every id generated before |
| LegacyUpload.Ids | Ext.ux.Uploader.js:468-471 | the id column of the progress queue |
| LegacyUpload.IndexOf | Ext.ux.Uploader.js:481-486 | `getProgress`'s position: the first item with the id, None iff no item has it |
| LegacyUpload.NewEntries | Ext.ux.Uploader.js:256-257 | one new bar per uploaded file, in order |
| LegacyUpload.AddKeepsFirst | Ext.ux.Uploader.js:462-486 | after an `add` of an already queued id, `getProgress` still finds the first bar; a new id is found at the end; other ids are unaffected |
| LegacyUpload.Updated | Ext.ux.Uploader.js:488-494 | an update keeps the queue length |
| LegacyUpload.UpdatedProperties | Ext.ux.Uploader.js:488-494 | the file's first bar gets the progress and is "success" iff the progress is exactly 1 and "loading" iff it is not; no other bar changes |
| LegacyUpload.SwfConn.constructor | Ext.ux.Uploader.js:184-186 | a new SWFUpload object is not loaded and has received no calls; `buttonImageUrl` is a property of the foreign object that the uploader never sets (`getSwfConnector` does not pass one), so it is a free parameter |
| LegacyUpload.LogPanel.constructor | Ext.ux.Uploader.js:376-384 | a new panel has an empty queue, no status and no shown window, and is bound as configured |
| LegacyUpload.LogPanel.Show | Ext.ux.Uploader.js:442-460 | the window is shown and the status reads "N file(s) to upload" for the given count |
| LegacyUpload.LogPanel.Add | Ext.ux.Uploader.js:462-472 | always appends exactly one bar, with no de-duplication, rendered with the "error" type |
| LegacyUpload.LogPanel.Log | Ext.ux.Uploader.js:474-479 | the status bar shows the given message with the given type |
| LegacyUpload.LogPanel.GetProgress | Ext.ux.Uploader.js:481-486 | returns the first bar with the id, None (`false`) iff there is none |
| LegacyUpload.LogPanel.UpdateProgess | Ext.ux.Uploader.js:488-494 | a queued file's first bar is updated, typed "success" exactly at 1; for an unknown id it raises and nothing changes |
| LegacyUpload.Uploader.constructor | Ext.ux.Uploader.js:97-103 | the prototype url, no bound element, no panel, nothing fired; the uploading count is undefined until a dialog completes |
| LegacyUpload.Uploader.GetLogPanel | Ext.ux.Uploader.js:273-280 | the panel is created at most once, bound to the current `boundEl`; every later call returns the same object |
| LegacyUpload.Uploader.SetDropZone | Ext.ux.Uploader.js:141-145 | a component flagged `uploadLogPanelTarget` becomes the bound element |
| LegacyUpload.Uploader.StartHtml5Upload | Ext.ux.Uploader.js:254-271 | each file gets the next `Ext.id()` (the seed advances by the number of files) and a bar; the status and the window are unchanged; exactly one POST per file goes to `url`, sent asynchronously with the file as body and the headers Content-Type application/octet-stream, X-File-Name, X-File-Size and X-Requested-With XMLHttpRequest, in that order |
| LegacyUpload.Uploader.OnDrop | Ext.ux.Uploader.js:156-168 | a non-empty drop shows the panel with "N file(s) to upload" and then uploads; an empty drop changes no panel; the seed advances by the number of files, so later drops get ids different from these |
| LegacyUpload.Uploader.DialogComplete | Ext.ux.Uploader.js:283-293 | the uploading count is set to 0; when files were queued, the status reads "N file(s) to upload" with the queue and the window unchanged, and `refreshCookies(true)` is called strictly before `startUpload()`; otherwise neither call is made and no panel changes |
| LegacyUpload.Uploader.DialogOpen | Ext.ux.Uploader.js:295-309 | the panel is shown with "0 file to upload" and its queue is unchanged |
| LegacyUpload.Uploader.SwfFileUploadStart | Ext.ux.Uploader.js:311-314 | one bar is appended for the file; the status and the window are unchanged |
| LegacyUpload.Uploader.SwfFileUploadProgress | Ext.ux.Uploader.js:317-320 | the file's bar is updated with the fraction; an unknown file raises and the queue is unchanged; the status and the window are unchanged either way |
| LegacyUpload.Uploader.UploadProgress | Ext.ux.Uploader.js:321-326 | the panel is updated only when the event's length is computable, with the status and the window unchanged; otherwise nothing changes |
| LegacyUpload.Uploader.SwfFileUploadComplete | Ext.ux.Uploader.js:328-331 | `fileupload` is fired with the component and the file |
| LegacyUpload.Uploader.UploadLoad | Ext.ux.Uploader.js:332-336 | the bar is updated with no length check, with the status and the window unchanged; when the update raises, the queue is unchanged; `fileupload` is fired iff the update did not raise |
| LegacyUpload.Uploader.SwfFileQueueError | Ext.ux.Uploader.js:338-342 | the status reads "queue error", the file still gets a bar, and the window is unchanged |
| LegacyUpload.Uploader.ResizeTrigger | Ext.ux.Uploader.js:176-190 | run with the trigger as scope (the call from `swfUploaderLoaded`): nothing is pushed before the movie is loaded; once it is, the button image is pushed only on Chrome with an image URL, and then the button dimensions |
| LegacyUpload.Uploader.SwfLoaded | Ext.ux.Uploader.js:344-348 | the object is marked loaded before the resize, so the dimensions are always pushed |

## Left out

- DOM and layout are rendering detail: overlay creation with `insertHtml`/`DomHelper`, `setXY`/`setSize`, mask/unmask, `anchorTo`, and `Ext.ux.Dialog` (js/Ext.ux.upload.LogPanel.js:187-221). A frame is kept only as "dialog over `dialogEl` or window" (`inDialog`) and "visible".
- `resizeTrigger` of the split uploader (js/Ext.ux.upload.Uploader.js:243-253) only sizes the overlay and the foreign `swf` button; its effects are all DOM or foreign.
- The log panel's `afterrender` delegation of `addProgress`/`updateProgress`/`setStatus` onto its frame (js/Ext.ux.upload.LogPanel.js:86-94) is taken as done: the uploader calls the panel directly.
- `getUploader` and `relayEvents` (js/Ext.ux.upload.Uploader.js:152-162) only forward to the host component; fired events are recorded on the uploader.
- SWFUpload, XMLHttpRequest, `Html5Connector` and `SwfConnector` are foreign code not part of this model. A connector is the record it was built from, its `url` and whether it holds an `swf`. The legacy SWFUpload object is the trace of calls made on it. A legacy request is the value `PostRequest` describes.
- The legacy `setTrigger` and `getSwfConnector` (Ext.ux.Uploader.js:197-243) only create DOM and a foreign SWFUpload object from settings; `SwfConn.constructor` stands for the result.
- The legacy constructor's `applyIf` on `swfParams` (Ext.ux.Uploader.js:30-36) feeds only `getSwfConnector`.
- The legacy constructor hands `config` to `Ext.util.Observable`, which is not part of this model. `LegacyUpload.Uploader.constructor` keeps the prototype defaults.
- The legacy private handlers `swfUploaderFileUploadError` and `swfUploaderFileQueueComplete` (Ext.ux.Uploader.js:84-92) are never wired (their registrations are commented out at 238-240).
- `console.log` calls and progress-bar templates are logging and markup; the template type and caption are kept as entry fields.
- Concurrency is out: parallel uploads and asynchronous event order become sequential method calls.
- Floating point is out. Progress fractions (`uploadedSize/totalSize`, `event.loaded/event.total`) are `real` parameters; only the exact comparison with 1 is used.
- The legacy `progressQueue` is shared by every `uploadLogPanel` through the prototype (Ext.ux.Uploader.js:390). The model has one queue per panel object and has one panel per uploader.
- Aliasing of JavaScript objects is not modelled. The caller's `swfParams`/`html5Params` objects, the connector objects in `connections` and the `file` object tagged by `Ext.apply(file, {id})` are copied as values, so mutations seen through other references are not captured.
- Constructing `Ext.ux.upload.Uploader` without a config object raises a TypeError at js/Ext.ux.upload.Uploader.js:55 (`config.swfParams`). `Upload.Uploader.constructor` takes a `Config` record and covers only a config object that exists, possibly empty.
- ResizeTrigger: the legacy `init` registers `resizeTrigger` for the trigger's `resize` event with the uploader as scope (Ext.ux.Uploader.js:46-48). Run that way, it reads `this.uploadConfig` of the uploader, which is undefined, and raises. The model covers only the call from `swfUploaderLoaded`, which runs it with the trigger as scope (line 347). The raising resize path is not modelled.
- `Ext.id()`'s global seed is a field of the legacy uploader, set by its constructor, rather than a process-wide counter.
- `Upload.Uploader.SetTrigger`: whether the new connector already holds its `swf` object is decided by foreign code, so it is a parameter.
- `UploadLog.LogPanel.GetProgress`: it returns the queue entry rather than the progress-bar object; the bar is folded into the entry.
