# Receipt upload app — verified model

A Dafny model of the core of a receipt-analysis web app. A user drops receipt
images (the panel admits five) or takes a camera shot. Each image goes through a
browser-side client to three server-side proxy handlers, which forward it to
an external workflow service ("Dify"). The service is asked to read the date,
category and amount from the image. The client caches results by a content
fingerprint for five minutes. The client is fail-open: every path ends in
"success", with an empty placeholder receipt when a step fails. The upload
panel keeps a log of what each upload did. It derives a status and a
simulated progress bar from that log. A login guard sends visitors without a
session to `/login`.

The model has nine modules, one per file:

| file | module | models |
|---|---|---|
| js.dfy | `Js` | the JavaScript semantics the code relies on: values, truthiness, `\|\|`, property reads on null, `?.`, `trim`, `replace` with a string pattern, `slice`, `splice`, decimal printing |
| service.dfy | `Service` | fetch outcomes, the environment variables, the JSON parser, HTTP responses, the placeholder receipt |
| dify_client.dfy | `DifyClient` | `src/lib/dify.ts`: request helper, upload, workflow start, status check, wait, fingerprint, the cache as a class, and the analysis pipeline as a spec function plus a method |
| workflow_route.dfy | `WorkflowRoute` | `src/app/api/dify/workflow/route.ts`: POST and GET as total functions |
| status_route.dfy | `StatusRoute` | `src/app/api/dify/workflow/status/route.ts` |
| upload_route.dfy | `UploadRoute` | `src/app/api/dify/upload/route.ts` |
| file_upload.dfy | `FileUpload` | `src/components/file-upload.tsx`: the panel as a class whose methods are each tied to a pure state transition |
| processing_status.dfy | `ProcessingStatus` | `src/components/processing-status.tsx` |
| middleware.dfy | `Middleware` | `middleware.ts`: the redirect decision and the path matcher |

Conventions:
- Network calls, `process.env`, `JSON.parse`, the clock and the analysis
  outcome are parameters of the functions.
- A `Reply` is either `Unreachable` (fetch rejected) or
  `Responded(status, body)`, where the body is `None` when reading it failed.
- `JSON.parse` is an oracle `Parser = Value -> Option<Value>`; `None` means
  it threw.
- A proxy handler returns `Handled(sent, response)`. `sent` is the upstream
  request it made, or `None` if it answered before calling upstream.

The upload panel is a class, `FileUpload.UploadPanel`, whose fields are the
source's state cells. It also has fields for the interval's running flag, the
last url handed to the parent's `onImageSelect` callback, and whether the
camera dialog is open.
- `State()` packs those fields into a `PanelState` value.
- `Valid()` is the invariant `Consistent(State())`: the status is the one
  derived from the log, and the progress is the one the effects leave.
- Each method ensures `Valid()` and `State() == F(old(State()), …)`, where
  `F` is a pure transition (`WithLog`, `Uploaded`, `Dropped`, …).
- What the source promises is proved about those transitions. Examples: the
  log grows by exactly the upload's entries; a drop or a camera shot that
  finds at most five images leaves at most five; the panel is settled after
  an upload. Each event handler runs to completion before the next event
  (see "Left out").

The model follows the code in these places:
- The cache expires an entry only when it is *more* than 300000 ms old
  (`now - timestamp > CACHE_DURATION`). An entry exactly five minutes old is
  still served.
- The matcher excludes every path that contains `.svg` anywhere, not only
  paths ending in it.
- The matcher's `favicon.ico` matches any character in place of the dot.

## Model

| member | source | states |
|---|---|---|
| DifyClient.ApiRequest | src/lib/dify.ts:10-48 | data comes back exactly when the reply arrived, its body was read, is not blank, does not start with `<!DOCTYPE`/`<html` after trimming, and parses; the data is the parse result |
| DifyClient.ApiRequestIgnoresStatus | src/lib/dify.ts:14-43 | the helper never consults the HTTP status: replies differing only in status give the same result |
| DifyClient.UploadFile | src/lib/dify.ts:51-105 | a type outside the three allowed ones, or a size above 10 MiB, is rejected with that error; a failed request or a null body is an error; a returned id is truthy, only for a valid file, and is `data.id`, else `data.file_id` |
| DifyClient.UploadValidationPrecedesRequest | src/lib/dify.ts:59-68 | for a rejected file the reply is irrelevant: validation happens before any request |
| DifyClient.UploadAcceptsMaxSize | src/lib/dify.ts:65-66 | a file of exactly 10·1024·1024 bytes is treated like an empty one, so it is accepted |
| DifyClient.UploadFileIdChoice | src/lib/dify.ts:91-95 | the id is `data.id` when truthy, else `data.file_id` when truthy, else an error |
| DifyClient.StartWorkflow | src/lib/dify.ts:108-144 | a falsy file id is refused up front; success holds exactly when the request yields data with a truthy `run_id`; the run returned is that data's `run_id`, `outputs` and `status` |
| DifyClient.SelectResult | src/lib/dify.ts:202-234 | the extracted result is always truthy; a truthy `result` field is taken as is; a defined but falsy one gives the placeholder |
| DifyClient.SelectResultFromOutputs | src/lib/dify.ts:206-225 | with no `result` field: no outputs give the placeholder; a string is parsed; else the success key is parsed; else the outputs object is used; a parse failure or falsy value gives the placeholder |
| DifyClient.SelectResultIgnoresStatus | src/lib/dify.ts:195-240 | the status map is never consulted: changing the upstream `status` field does not change the result |
| DifyClient.CheckWorkflowStatus | src/lib/dify.ts:147-253 | always `completed` with a truthy result; an empty run id, a failed request or null data gives the placeholder; otherwise the result is the one extracted from the reply's data |
| DifyClient.WaitForResult | src/lib/dify.ts:286-329 | always `success`, with truthy data equal to the status check's result |
| DifyClient.HexJoin | src/lib/dify.ts:335 | two lowercase hex characters per byte |
| DifyClient.FileHash | src/lib/dify.ts:332-336 | the key has 2·min(n, 1024) characters, all lowercase hex |
| DifyClient.HexRoundTrip | src/lib/dify.ts:335 | reading the hex pairs back gives the bytes, so the encoding loses nothing |
| DifyClient.FileHashSameIffPrefixSame | src/lib/dify.ts:332-336 | two files get the same key exactly when their first 1024 bytes agree |
| DifyClient.CacheLookup | src/lib/dify.ts:264-275 | an absent key misses; an entry older than 300000 ms misses and is removed; a younger one, or one exactly that old, is returned unchanged; other keys are untouched |
| DifyClient.SaveThenLookup | src/lib/dify.ts:278-283 | a save followed by a lookup within five minutes returns the saved data; after that, the lookup misses and the key is gone |
| DifyClient.ResponseCache.constructor | src/lib/dify.ts:256-259 | the cache starts empty |
| DifyClient.ResponseCache.Check | src/lib/dify.ts:264-275 | returns the lookup's hit and leaves the lookup's remaining entries |
| DifyClient.ResponseCache.Save | src/lib/dify.ts:278-283 | the key now maps to the data stamped with the current time; every other key is unchanged |
| DifyClient.AfterLookup | src/lib/dify.ts:375-438 | always success with truthy data; a cache hit stores nothing and returns the cached data, or the placeholder when that is falsy; something is stored exactly when there was no hit and both upload and start succeeded |
| DifyClient.Analyze | src/lib/dify.ts:339-443 | every run ends in `success`; an unreadable file gives the default result and leaves the cache alone |
| DifyClient.CacheHitSkipsNetwork | src/lib/dify.ts:375-383 | on a fresh hit the network replies do not matter, and the cache is unchanged |
| DifyClient.FailedStepGivesDefault | src/lib/dify.ts:386-405 | a failed upload or start gives the default result and stores nothing |
| DifyClient.StoredOnlyAfterFullRun | src/lib/dify.ts:408-438 | after upload, start and wait, the waited result is stored under the file's key at the save time; the returned data is the waited data |
| DifyClient.RepeatServedFromCache | src/lib/dify.ts:332-383 | a second file with the same first kilobyte, analysed within five minutes, gets the same data from the cache, whatever the network does |
| DifyClient.AnalyzeReceipt | src/lib/dify.ts:339-443 | the step-by-step pipeline returns exactly `Analyze`'s result and leaves the cache exactly as `Analyze` says |
| WorkflowRoute.FalsyNames | src/app/api/dify/workflow/route.ts:14-16 | the result is empty exactly when every value is set; it contains exactly the names whose value is falsy |
| WorkflowRoute.MissingEnvVars | src/app/api/dify/workflow/route.ts:8-16 | the list is empty exactly when the key, the workflow id and the endpoint are all set; it holds only required names |
| WorkflowRoute.MissingEnvVarsExact | src/app/api/dify/workflow/route.ts:8-16 | the missing list is the unset required names, in declared order |
| WorkflowRoute.RunIdOf | src/app/api/dify/workflow/route.ts:171-173 | no run id exactly when the body is null, where reading a field throws |
| WorkflowRoute.RunIdPriority | src/app/api/dify/workflow/route.ts:171-173 | `workflow_run_id` wins, then `data.id`, then `id` |
| WorkflowRoute.OutputsOf | src/app/api/dify/workflow/route.ts:189 | the outputs are always truthy: `data.outputs` when truthy, else `{}` |
| WorkflowRoute.ResultOf | src/app/api/dify/workflow/route.ts:190-200 | null without a success output; else its parse, or the raw value when parsing fails |
| WorkflowRoute.Relay | src/app/api/dify/workflow/route.ts:107-210 | connect failure gives 500 CONNECTION_ERROR; an unreadable body gives 500 INTERNAL_SERVER_ERROR; a non-JSON body gives 500 INVALID_RESPONSE whatever the status; a non-OK reply gives DIFY_API_ERROR with the upstream status and data; an OK reply with null data gives 500 INTERNAL_SERVER_ERROR; an OK reply with a truthy run id gives 200 with that id, the outputs and the parsed result; success holds exactly when the status is 200, only for an OK reply |
| WorkflowRoute.RelayMissingRunId | src/app/api/dify/workflow/route.ts:175-186 | an OK JSON reply without any truthy run id gives 500 MISSING_RUN_ID with the reply as details |
| WorkflowRoute.RelayNullErrorReply | src/app/api/dify/workflow/route.ts:149-166 | a non-OK reply whose JSON is null is still relayed as DIFY_API_ERROR under its status, with the null as details |
| WorkflowRoute.HandlePost | src/app/api/dify/workflow/route.ts:3-223 | missing configuration answers 500 before the body is read; an unparseable body gives 400 INVALID_REQUEST; a JSON `null` body, whose `fileId` read throws, gives 500 INTERNAL_SERVER_ERROR; a falsy file id gives 400 MISSING_FILE_ID; the upstream call is made exactly when all of these pass, to the configured endpoint with the workflow payload |
| WorkflowRoute.PostNeverReportsLateConfigCodes | src/app/api/dify/workflow/route.ts:59-83 | the later workflow-id and endpoint checks can never fire |
| WorkflowRoute.WorkflowPayload | src/app/api/dify/workflow/route.ts:88-99 | the outbound body has exactly the four keys, with the file as the only image input, blocking mode and the fixed user |
| WorkflowRoute.StatusEndpoint | src/app/api/dify/workflow/route.ts:235-240 | with no template, the default run URL followed by the run id; a template without the placeholder is used unchanged |
| WorkflowRoute.StatusEndpointSubstitutes | src/app/api/dify/workflow/route.ts:237 | the first `:workflow_id` of the template is replaced by the run id and the rest is kept |
| WorkflowRoute.ErrorMessage | src/app/api/dify/workflow/route.ts:255 | the upstream `message` when truthy, else a text naming the status |
| WorkflowRoute.HandleGet | src/app/api/dify/workflow/route.ts:225-279 | 400 exactly when the run id is absent or empty; the request goes to the computed endpoint; an unreachable service gives 500; a non-OK reply reports, under its status, the upstream message (or the parse-failure message) with the endpoint and run id, and 500 for null JSON; an OK reply gives 200 with the run's `id`, `status` and `answer` or `output`, and 500 when its body is unreadable, not JSON or null |
| WorkflowRoute.GetUnparseableErrorReply | src/app/api/dify/workflow/route.ts:249-263 | a non-OK reply whose body is not JSON reports the fixed parse-failure message under the upstream status |
| StatusRoute.StatusEndpoint | src/app/api/dify/workflow/status/route.ts:43-44 | the substituted template when that is non-empty; with no template, the base endpoint followed by `/workflow-runs/<runId>` |
| StatusRoute.ApiBase | src/app/api/dify/workflow/status/route.ts:28 | absent exactly when the endpoint is unset; an endpoint without `/run` is used unchanged |
| StatusRoute.ApiBaseStripsRun | src/app/api/dify/workflow/status/route.ts:28 | only the first `/run` of the endpoint is cut out; the rest is kept |
| StatusRoute.EmptyTemplateFallsBack | src/app/api/dify/workflow/status/route.ts:43-44 | an empty template also falls back to the base endpoint |
| StatusRoute.PayloadResult | src/app/api/dify/workflow/status/route.ts:91-108 | the placeholder without a truthy success output; else its parse, or the raw value when parsing fails |
| StatusRoute.RunData | src/app/api/dify/workflow/status/route.ts:88 | `responseData.data` when truthy, else `responseData`; nullish exactly when the reply data is |
| StatusRoute.HandleStatus | src/app/api/dify/workflow/status/route.ts:3-141 | always 200 `succeeded`; the upstream call is made exactly when the run id, the key and the base endpoint are all present; without a call, or for an unreadable, unparseable, non-OK or null-JSON reply, the result is the placeholder; an OK reply with other JSON gives the success output of its run data |
| StatusRoute.StatusResultFromReply | src/app/api/dify/workflow/status/route.ts:86-118 | an OK JSON reply yields the success output found in its `data` wrapper or at the top level |
| UploadRoute.UploadEndpoint | src/app/api/dify/upload/route.ts:46 | the configured endpoint when set, else the fixed default |
| UploadRoute.UploadCredential | src/app/api/dify/upload/route.ts:47 | the configured key when set, else the built-in one |
| UploadRoute.FailureMessage | src/app/api/dify/upload/route.ts:103 | the upstream `message` when truthy, else `File upload failed` |
| UploadRoute.SuccessFields | src/app/api/dify/upload/route.ts:113-116 | for an object reply the body has its keys plus `status`, with every upstream field kept; `status` is `succeeded` unless upstream supplied its own; a non-object reply gives just `status` |
| UploadRoute.Relay | src/app/api/dify/upload/route.ts:52-124 | the error order, in four ladder steps: connect failure gives 500 CONNECTION_ERROR; a read failure gives 500 RESPONSE_READ_ERROR; a parse failure gives 500 INVALID_RESPONSE with the text; a non-OK reply gives UPLOAD_ERROR with the upstream status, or 500 INTERNAL_ERROR when its JSON is null; success exactly for an OK parseable reply |
| UploadRoute.HandleUpload | src/app/api/dify/upload/route.ts:3-125 | unreadable form data gives 400 INVALID_FORM_DATA; a missing file gives 400 NO_FILE; otherwise the file is sent with the fixed user to the chosen endpoint |
| UploadRoute.SuccessKeepsUpstreamFields | src/app/api/dify/upload/route.ts:113-116 | an OK object reply is relayed with all its fields, its own `status` winning over `succeeded` |
| UploadRoute.InvalidJsonBeforeStatus | src/app/api/dify/upload/route.ts:82-107 | a non-JSON body gives INVALID_RESPONSE whatever the upstream status |
| ProcessingStatus.StatusIcon | src/components/processing-status.tsx:14-41 | the check glyph exactly for completed, the cross exactly for error, the clock otherwise |
| ProcessingStatus.StatusText | src/components/processing-status.tsx:43-54 | the completed, processing and error labels each belong to that status alone; the default label to idle alone |
| ProcessingStatus.ProgressValue | src/components/processing-status.tsx:56-60 | 100 for completed or error, otherwise the given progress |
| ProcessingStatus.ProgressColor | src/components/processing-status.tsx:62-67 | red exactly for an error, green exactly on completion, primary exactly while processing, the faded primary colour exactly when idle |
| ProcessingStatus.StatusClass | src/components/processing-status.tsx:70-81 | the muted class exactly when idle; every other status ends in medium weight |
| ProcessingStatus.StatusPresentationDistinct | src/components/processing-status.tsx:43-81 | the text, the bar colour and the text class each tell the four statuses apart |
| ProcessingStatus.Render | src/components/processing-status.tsx:10-98 | nothing is rendered exactly when the status is missing or idle; otherwise the text, bar value and bar class of that status, with the progress defaulting to 0 |
| Middleware.Decide | middleware.ts:14-23 | redirect to `/login` exactly without a session off `/login`; redirect to `/` exactly with a session on `/login`; pass through exactly otherwise |
| Middleware.LoginReachableWithoutSession | middleware.ts:14-16 | an unauthenticated request to `/login` is never redirected |
| Middleware.SvgAhead | middleware.ts:28 | the lookahead `.*\.svg` holds exactly when `.svg` occurs with no line break before it |
| Middleware.ShiftOccurrence | middleware.ts:28 | an occurrence past the first character is one of the rest, shifted by one |
| Middleware.Route | middleware.ts:5-29 | unmatched paths pass through; matched paths get the guard's decision |
| Middleware.SvgPathsSkipGuard | middleware.ts:28 | any path containing `.svg` skips the guard, not only paths ending in it |
| Middleware.StaticAssetsSkipGuard | middleware.ts:28 | every path whose rest starts with `_next/static`, `_next/image`, or `favicon`, any character but a line break, and `ico` skips the guard |
| Middleware.FaviconAnyCharacter | middleware.ts:28 | `/favicon.ico` skips the guard, and so does `/favicon-ico` |
| Middleware.NoDotNoSvg | middleware.ts:28 | a rest without a dot cannot trigger the `.svg` exclusion |
| Middleware.StartPageGuarded | middleware.ts:14-16 | without a session `/` redirects to `/login` |
| Middleware.DashboardGuarded | middleware.ts:14-16 | without a session `/dashboard` redirects to `/login` |
| Middleware.SignedInLeavesLogin | middleware.ts:19-21 | with a session `/login` redirects to `/` |
| FileUpload.StatusOf | src/components/file-upload.tsx:45-59 | idle exactly for an empty log; otherwise processing, completed or error exactly as the last entry's status |
| FileUpload.TickProgress | src/components/file-upload.tsx:65-72 | one firing adds 10 below 90 and lands on exactly 90 otherwise |
| FileUpload.OutcomeLogs | src/components/file-upload.tsx:111-217 | one or two entries, the last never `processing` |
| FileUpload.UploadLogs | src/components/file-upload.tsx:100-217 | two or three entries: `processing` for the file first, never repeated, and a non-`processing` entry last |
| FileUpload.UploadLogsCases | src/components/file-upload.tsx:100-217 | an upload logs `processing` first; a success then `complete` with the result data or the demo receipt; an error result `error` with its code, plus a demo `complete` only for the two connection codes; a thrown error `error` then a demo `complete` |
| FileUpload.UploadEndsSettled | src/components/file-upload.tsx:45-59 | after an upload the status is completed, except for an error result without a demo code, which leaves error |
| FileUpload.PipelineUploadLogs | src/components/file-upload.tsx:114-130 | with the real pipeline, which always succeeds with truthy data, an upload logs exactly `processing` then `complete` with the pipeline's data, never the demo receipt |
| FileUpload.BatchImages | src/components/file-upload.tsx:247-256 | a batch adds at most one image per file |
| FileUpload.LastSelectedIsLastImage | src/components/file-upload.tsx:273-275 | after a batch the parent holds the url of the last image added, or the earlier selection when there was none |
| FileUpload.DropSelection | src/components/file-upload.tsx:232-256 | within the limit every file is processed; over it, exactly the first `5 − count`; the total never exceeds five; with five images a drop selects nothing |
| FileUpload.WithLog | src/components/file-upload.tsx:83-98 | the log gains exactly the one entry at the end; the status follows the new last entry; the progress and interval change only when the status changes; consistency is kept; a non-processing entry leaves the panel settled |
| FileUpload.WithTick | src/components/file-upload.tsx:64-73 | a running interval advances by one firing and stops on reaching 90; a stopped one changes nothing; only the progress and running flag change |
| FileUpload.TicksWhenStopped | src/components/file-upload.tsx:67-69 | once cleared, the interval changes nothing any more |
| FileUpload.TicksKeep | src/components/file-upload.tsx:62-81 | any number of firings touches only the progress and running flag, and keeps the panel consistent |
| FileUpload.TicksClimb | src/components/file-upload.tsx:62-81 | after `n` firings while processing, the progress is min(p + 10n, 90) |
| FileUpload.UploadBegun | src/components/file-upload.tsx:102-106 | the `processing` entry is appended; the status is processing and the progress 10 |
| FileUpload.UploadFinished | src/components/file-upload.tsx:111-217 | the outcome's entries are appended; the panel ends consistent and settled, with full bar and interval stopped |
| FileUpload.Uploaded | src/components/file-upload.tsx:100-228 | the log grows by exactly the upload's entries; images, selection and camera are untouched; the panel ends settled |
| FileUpload.TicksDuringUploadDoNotMatter | src/components/file-upload.tsx:62-111 | however often the interval fires while the analysis is awaited, the upload ends in the same state |
| FileUpload.FileProcessed | src/components/file-upload.tsx:259-283 | a non-image changes nothing; an image adds exactly one image, selects its url, logs its upload and leaves the panel settled |
| FileUpload.BatchProcessed | src/components/file-upload.tsx:247-256 | a batch adds at most one image per file, at least two log entries per image added, and leaves the camera flag |
| FileUpload.BatchProcessedAdds | src/components/file-upload.tsx:247-256 | a sequential batch logs what its files log in order, adds its images in order, and selects the last one |
| FileUpload.BatchProcessedSettles | src/components/file-upload.tsx:247-256 | a batch keeps the panel consistent; a batch without images changes nothing; one with images leaves the panel settled |
| FileUpload.Dropped | src/components/file-upload.tsx:230-257 | a drop never removes an image, keeps a panel of at most five images at most five, and leaves the camera flag |
| FileUpload.DroppedSpec | src/components/file-upload.tsx:230-257 | a drop logs one limit warning exactly when it is over the limit and some files fit, then processes the selected files; it never holds more than five images |
| FileUpload.CaptureName | src/components/file-upload.tsx:308 | the name is `camera-capture-`, the clock reading in decimal, then `.jpg` |
| FileUpload.CaptureNamesDistinct | src/components/file-upload.tsx:308 | shots taken at different times get different names |
| FileUpload.Captured | src/components/file-upload.tsx:295-320 | the dialog closes; with five images nothing else changes; otherwise the shot is added, selected and uploaded; at most five images are held |
| FileUpload.Removed | src/components/file-upload.tsx:322-337 | only the image list and selection change; the selection is the first remaining url when that is truthy, else null |
| FileUpload.RemovedImages | src/components/file-upload.tsx:322-325 | an index inside the list removes exactly that image and keeps the others in order; an index past the end removes nothing; a negative index counts from the end |
| FileUpload.UploadPanel.constructor | src/components/file-upload.tsx:24-41 | the panel starts idle, with an empty log, no images, progress 0 and the camera closed |
| FileUpload.UploadPanel.AddLog | src/components/file-upload.tsx:83-98 | the new state is `WithLog` of the old one; the invariant holds |
| FileUpload.UploadPanel.Tick | src/components/file-upload.tsx:64-73 | the new state is `WithTick` of the old one |
| FileUpload.UploadPanel.BeginUpload | src/components/file-upload.tsx:102-106 | the new state is `UploadBegun` of the old one |
| FileUpload.UploadPanel.FinishUpload | src/components/file-upload.tsx:111-217 | the new state is `UploadFinished` of the old one |
| FileUpload.UploadPanel.HandleImageUpload | src/components/file-upload.tsx:100-228 | the new state is `Uploaded` of the old one |
| FileUpload.UploadPanel.ProcessFile | src/components/file-upload.tsx:259-283 | the new state is `FileProcessed` of the old one |
| FileUpload.UploadPanel.ProcessBatch | src/components/file-upload.tsx:247-256 | the sequential loop leaves `BatchProcessed` of the old state |
| FileUpload.UploadPanel.OnDrop | src/components/file-upload.tsx:230-257 | the new state is `Dropped` of the old one |
| FileUpload.UploadPanel.HandleCameraCapture | src/components/file-upload.tsx:295-320 | the new state is `Captured` of the old one |
| FileUpload.UploadPanel.RemoveImage | src/components/file-upload.tsx:322-337 | the new state is `Removed` of the old one |
| FileUpload.UploadPanel.OpenCamera | src/components/file-upload.tsx:365-367 | below five images only the camera flag changes, to open; with five the disabled button changes nothing |
| Js.TrimEmptyIffBlank | src/lib/dify.ts:27 | `trim()` gives the empty string exactly for a white-space-only text |
| Js.ReplaceFirstSpec | src/app/api/dify/workflow/route.ts:237 | `replace` with a string pattern replaces only the first occurrence |
| Js.SpliceOneInRange | src/components/file-upload.tsx:324-325 | `splice(i, 1)` of a copy drops exactly element `i` and keeps the order of the others |
| Js.NatToStringRoundTrip | src/components/file-upload.tsx:308 | the decimal text of a clock reading reads back as that number |

## Left out

- Network, environment and HTTP objects (`fetch`, `NextRequest`/`NextResponse`, `FormData`, `process.env`) are parameters: a `Reply` per call, an `Env` of optional strings.
- `JSON.parse` is an oracle; no JSON grammar is modelled. Its argument is the JavaScript value passed, so string coercion of a non-string is part of the oracle.
- The clock (`Date.now()`) is a parameter: `checkTime`/`saveTime` in the pipeline, `now` for the capture name.
- The `setTimeout` delay and the `setInterval` timer are not modelled as time. The interval is a `Tick` step. Firings while the analysis is awaited are covered by `TicksDuringUploadDoNotMatter` rather than interleaved inside `HandleImageUpload`.
- React runtime semantics are not modelled: state-update batching, effects running after render, and the stale `logs` closure in `addLog`. `addLog` appends to the current log and the status and progress effects run right after it.
- The log entries' `id` and `timestamp` are left out: they come from the clock and nothing reads them in the core.
- Message strings (Japanese texts, `error` fields of the proxy responses, thrown error messages) are opaque constructors. Only the codes, statuses and structured fields are modelled. The text of a thrown Error is kept as `ErrorText` in the panel log.
- Toasts, `console.*`, `URL.createObjectURL`, the camera's `fetch(imageUrl)`/blob step and the hard-coded bearer tokens are side effects with no logic. The object URL of a dropped file is an input field.
- OnDrop, Dropped, DroppedSpec, HandleCameraCapture, Captured: each user event runs to completion. In the app, another drop or a camera shot can run while `onDrop` awaits `processFile`: the dropzone is never disabled, and the limit check reads the image count of the render that created the callback. Interleaved events like that can bring the panel past five images, and the model does not capture them.
- react-dropzone's `accept` filter and `maxFiles` limit happen in a library before `onDrop`. The model's `OnDrop` takes the accepted files as given.
- DroppedSpec: the library is not part of this model. If react-dropzone rejects every file of a drop that exceeds a positive `maxFiles` (`MAX_UPLOADS - uploadedImages.length`, file-upload.tsx:292), then onDrop's limit-warning branch (file-upload.tsx:232-244) is not reached from the dropzone, and such a drop processes nothing. The model keeps the branch as onDrop writes it.
- The `onImageSelect` callback is modelled as the `selected` field holding the last url handed over. `onLogsUpdate` is not modelled separately: it receives what the log holds.
- The outer `catch` of `handleImageUpload` (file-upload.tsx:218-227) is not modelled. Only `addLog` and state setters run there outside the inner `try`, and they do not throw. The `catch` in `processFile` is unreachable for the same reason.
- Numbers are integers. HTTP statuses outside 200-599, which make `NextResponse.json` throw a RangeError, are not singled out.
- `encodeURIComponent` of the run id in the status-check URL is not modelled; the client call takes the reply as a parameter.
- `replace`'s special `$` patterns in the replacement string are not modelled: run ids are taken literally.
- An object spread of a string or array upstream body is modelled as contributing no fields (`SuccessFields`); only object bodies are spread.
- The in-place `result.data = …` in `analyzeDifyReceipt` is modelled as a local value, not as a write to the object just stored in the cache. The write would only happen for falsy data, and `WaitForResult` always yields truthy data.
- The middleware's path matcher compares the whole path only, as Next.js does. A path with a line terminator after its first character is not matched, since `.` does not match one.
- The session lookup (Supabase) is the boolean `hasSession`.
