/** The upload panel: the list of uploaded images (at most five), the log of
    what each upload did, and the status and progress shown for it. */
module FileUpload {
  import opened Js
  import opened Service
  import opened ProcessingStatus
  import DifyClient

  const MaxUploads: nat := 5

  datatype LogStatus = CompleteLog | ProcessingLog | ErrorLog

  /** The panel's own log messages; their wording is not modelled. */
  datatype Message =
    | Started(fileName: string)         // analysis of the file begins
    | Finished(fileName: string)        // analysis of the file is complete
    | FinishedDemo(fileName: string)    // complete, showing demo data
    | UploadLimit                       // more than five images at once
    | Reported(notice: DifyClient.Notice)  // the message the analysis returned
    | AnalysisFailed                    // the fixed text when it returned none
    | ErrorText(text: string)           // the message of a thrown error
    | UnexpectedFailure                 // the fixed text for a thrown non-error

  datatype Details =
    | NoDetails
    | FileOnly(fileName: string)
    | Receipt(fileName: string, date: Value, category: Value, amount: Value)
    | Failure(fileName: string, errorCode: Option<string>)

  datatype LogEntry = LogEntry(status: LogStatus, message: Message, details: Details)

  datatype Image = Image(url: string, name: string)

  /** A dropped file: its name, its MIME type and the object URL made for it. */
  datatype DroppedFile = DroppedFile(name: string, mimeType: string, url: string)

  /** What awaiting the analysis gave: a result, or a thrown error with its
      message (None when what was thrown is not an Error). */
  datatype AnalyzeOutcome = Returned(result: DifyClient.Analysis) | Threw(message: Option<string>)

  const DemoReceipt: Value :=
    Obj(map["date" := Str("2024年2月1日"), "category" := Str("交通費"), "amount" := Str("4000円")])

  const LimitLog: LogEntry := LogEntry(ErrorLog, UploadLimit, NoDetails)

  // ------------------------------------------------------------ specification functions

  /** The status the panel derives from its log: idle while empty, otherwise
      that of the last entry. */
  function StatusOf(logs: seq<LogEntry>): (s: Status)
    ensures s == Idle <==> logs == []
    ensures s == Processing <==> logs != [] && logs[|logs| - 1].status == ProcessingLog
    ensures s == Completed <==> logs != [] && logs[|logs| - 1].status == CompleteLog
    ensures s == Error <==> logs != [] && logs[|logs| - 1].status == ErrorLog
  {
    if logs == [] then Idle
    else match logs[|logs| - 1].status
      case ErrorLog => Error
      case ProcessingLog => Processing
      case CompleteLog => Completed
  }

  /** The progress the status effect leaves: unchanged while processing (the
      interval takes over), full once finished, zero when idle. */
  function EffectProgress(s: Status, progress: int): int {
    match s
    case Processing => progress
    case Completed => 100
    case Error => 100
    case Idle => 0
  }

  /** One firing of the progress interval. */
  function TickProgress(progress: int): (p: int)
    ensures p <= 90
    ensures progress + 10 < 90 ==> p == progress + 10
    ensures progress + 10 >= 90 ==> p == 90
  {
    if progress + 10 >= 90 then 90 else progress + 10
  }

  /** The data shown for a successful analysis: its own, or the demo receipt. */
  function ReceiptDetails(fileName: string, data: Value): Details {
    var shown := Or(data, DemoReceipt);
    Receipt(fileName, Field(shown, "date"), Field(shown, "category"), Field(shown, "amount"))
  }

  predicate IsDemoCode(code: Option<string>) {
    code == Some("DIFY_CONNECTION_ERROR") || code == Some("DIFY_API_ERROR")
  }

  function DemoLog(fileName: string): LogEntry {
    LogEntry(CompleteLog, FinishedDemo(fileName), ReceiptDetails(fileName, DemoReceipt))
  }

  /** The entries logged once the analysis has returned or thrown. */
  function OutcomeLogs(fileName: string, outcome: AnalyzeOutcome): (logs: seq<LogEntry>)
    ensures 1 <= |logs| <= 2
    ensures logs[|logs| - 1].status != ProcessingLog
  {
    match outcome
    case Returned(r) =>
      if r.status == DifyClient.Success then
        [LogEntry(CompleteLog, Finished(fileName), ReceiptDetails(fileName, r.data))]
      else
        var message := if r.message.Some? && r.message.value != DifyClient.Other("") then Reported(r.message.value)
                       else AnalysisFailed;
        [LogEntry(ErrorLog, message, Failure(fileName, r.code))]
        + (if IsDemoCode(r.code) then [DemoLog(fileName)] else [])
    case Threw(m) =>
      var message := if m.Some? then ErrorText(m.value) else UnexpectedFailure;
      [LogEntry(ErrorLog, message, FileOnly(fileName)), DemoLog(fileName)]
  }

  /** Everything one upload logs: `processing` first, then the outcome. */
  function UploadLogs(fileName: string, outcome: AnalyzeOutcome): (logs: seq<LogEntry>)
    ensures 2 <= |logs| <= 3
    ensures logs[0] == LogEntry(ProcessingLog, Started(fileName), FileOnly(fileName))
    ensures forall i :: 1 <= i < |logs| ==> logs[i] != logs[0]
    ensures logs[|logs| - 1].status != ProcessingLog
  {
    [LogEntry(ProcessingLog, Started(fileName), FileOnly(fileName))] + OutcomeLogs(fileName, outcome)
  }

  /** The log sequence of an upload, case by case. */
  lemma UploadLogsCases(fileName: string, outcome: AnalyzeOutcome)
    ensures var logs := UploadLogs(fileName, outcome);
      && logs[0] == LogEntry(ProcessingLog, Started(fileName), FileOnly(fileName))
      && (outcome.Returned? && outcome.result.status == DifyClient.Success ==>
            logs == [logs[0], LogEntry(CompleteLog, Finished(fileName), ReceiptDetails(fileName, outcome.result.data))])
      && (outcome.Returned? && outcome.result.status == DifyClient.Failure ==>
            |logs| == (if IsDemoCode(outcome.result.code) then 3 else 2)
            && logs[1].status == ErrorLog && logs[1].details == Failure(fileName, outcome.result.code)
            && (IsDemoCode(outcome.result.code) ==> logs[2] == DemoLog(fileName)))
      && (outcome.Threw? ==> |logs| == 3 && logs[1].status == ErrorLog && logs[2] == DemoLog(fileName))
  {
  }

  /** The panel's status once an upload has logged everything. */
  lemma UploadEndsSettled(logs: seq<LogEntry>, fileName: string, outcome: AnalyzeOutcome)
    ensures var s := StatusOf(logs + UploadLogs(fileName, outcome));
      && (outcome.Returned? && outcome.result.status == DifyClient.Success ==> s == Completed)
      && (outcome.Returned? && outcome.result.status == DifyClient.Failure ==>
            s == (if IsDemoCode(outcome.result.code) then Completed else Error))
      && (outcome.Threw? ==> s == Completed)
  {
    var all := logs + UploadLogs(fileName, outcome);
    assert all[|all| - 1] == UploadLogs(fileName, outcome)[|UploadLogs(fileName, outcome)| - 1];
  }

  /** The analysis pipeline always succeeds with truthy data, so an upload
      logs exactly `processing` then `complete` with the data it found, never
      the demo receipt. */
  lemma PipelineUploadLogs(fileName: string, entries: map<string, DifyClient.CacheEntry>, file: DifyClient.FileInfo,
                           net: DifyClient.Network, parse: Parser, checkTime: int, saveTime: int)
    ensures var r := DifyClient.Analyze(entries, file, net, parse, checkTime, saveTime).result;
      UploadLogs(fileName, Returned(r)) ==
        [LogEntry(ProcessingLog, Started(fileName), FileOnly(fileName)),
         LogEntry(CompleteLog, Finished(fileName),
                  Receipt(fileName, Field(r.data, "date"), Field(r.data, "category"), Field(r.data, "amount")))]
  {
    var o := DifyClient.Analyze(entries, file, net, parse, checkTime, saveTime);
    if file.bytes.Some? {
      var look := DifyClient.CacheLookup(entries, DifyClient.FileHash(file.bytes.value), checkTime);
      var run := DifyClient.AfterLookup(file, look.hit, net, parse);
      assert o.result == run.result;
    }
    assert Truthy(o.result.data);
  }

  predicate IsImage(f: DroppedFile) {
    StartsWith(f.mimeType, "image/")
  }

  /** What processing one dropped file logs: nothing for a non-image. */
  function FileLogs(f: DroppedFile, outcome: AnalyzeOutcome): seq<LogEntry> {
    if IsImage(f) then UploadLogs(f.name, outcome) else []
  }

  /** The entries a batch of files logs, processed in order; the `i`-th file's
      analysis gives `outcomes(i)`. */
  function BatchLogs(files: seq<DroppedFile>, outcomes: nat -> AnalyzeOutcome): seq<LogEntry> {
    if files == [] then []
    else BatchLogs(files[..|files| - 1], outcomes) + FileLogs(files[|files| - 1], outcomes(|files| - 1))
  }

  /** The image a file adds: one for an image file, none otherwise. */
  function FileImages(f: DroppedFile): seq<Image> {
    if IsImage(f) then [Image(f.url, f.name)] else []
  }

  /** The images a batch adds: one per image file, in order. */
  function BatchImages(files: seq<DroppedFile>): (images: seq<Image>)
    ensures |images| <= |files|
  {
    if files == [] then [] else BatchImages(files[..|files| - 1]) + FileImages(files[|files| - 1])
  }

  /** The last image url handed to the parent after a batch. */
  function LastSelected(files: seq<DroppedFile>, before: Option<string>): Option<string> {
    if files == [] then before
    else if IsImage(files[|files| - 1]) then Some(files[|files| - 1].url)
    else LastSelected(files[..|files| - 1], before)
  }

  /** The selection after a batch is the url of the last image it added. */
  lemma {:induction false} LastSelectedIsLastImage(files: seq<DroppedFile>, before: Option<string>)
    ensures BatchImages(files) == [] ==> LastSelected(files, before) == before
    ensures BatchImages(files) != [] ==> LastSelected(files, before) == Some(BatchImages(files)[|BatchImages(files)| - 1].url)
  {
    if files != [] && !IsImage(files[|files| - 1]) {
      LastSelectedIsLastImage(files[..|files| - 1], before);
    }
  }

  /** The files a drop processes, given how many images are already there. */
  function DropSelection(count: nat, files: seq<DroppedFile>): (r: seq<DroppedFile>)
    ensures count + |files| <= MaxUploads ==> r == files
    ensures count + |files| > MaxUploads && count <= MaxUploads ==> r == files[..MaxUploads - count]
    ensures count <= MaxUploads ==> count + |r| <= MaxUploads
    ensures count == MaxUploads ==> r == []
  {
    if count + |files| > MaxUploads then SliceTo(files, MaxUploads - count) else files
  }

  /** Whether a drop logs the limit warning: it is over the limit, yet some files remain. */
  predicate DropWarns(count: nat, files: seq<DroppedFile>) {
    count + |files| > MaxUploads && DropSelection(count, files) != []
  }

  // ------------------------------------------------------------ the panel state

  /** Everything the panel keeps: the log, the uploaded images, the status and
      progress shown, whether the progress interval runs, the last url handed
      to the parent's image callback (None for null) and whether the camera
      dialog is open. */
  datatype PanelState = PanelState(
    logs: seq<LogEntry>,
    images: seq<Image>,
    status: Status,
    progress: int,
    ticking: bool,
    selected: Option<string>,
    cameraOpen: bool)

  const InitialPanel: PanelState := PanelState([], [], Idle, 0, false, None, false)

  /** The status is the one derived from the log, and the progress is what the
      status effect and the interval leave. */
  predicate Consistent(st: PanelState) {
    && st.status == StatusOf(st.logs)
    && (st.ticking ==> st.status == Processing)
    && (st.status == Completed || st.status == Error ==> st.progress == 100)
    && (st.status == Idle ==> st.progress == 0)
    && 0 <= st.progress <= 100
  }

  /** An upload has finished: the bar is full and the interval stopped. */
  predicate Settled(st: PanelState) {
    (st.status == Completed || st.status == Error) && st.progress == 100 && !st.ticking
  }

  /** addLog, followed by the status effect and, when the derived status
      changed, the progress effect. */
  function WithLog(st: PanelState, entry: LogEntry): (r: PanelState)
    ensures r.logs == st.logs + [entry]
    ensures r.images == st.images && r.selected == st.selected && r.cameraOpen == st.cameraOpen
    ensures r.status == StatusOf(r.logs)
    ensures r.status == st.status ==> r.progress == st.progress && r.ticking == st.ticking
    ensures r.status != st.status ==> r.progress == EffectProgress(r.status, st.progress) && r.ticking == (r.status == Processing)
    ensures Consistent(st) ==> Consistent(r)
    ensures Consistent(st) && entry.status != ProcessingLog ==> Settled(r)
  {
    var logs := st.logs + [entry];
    var next := StatusOf(logs);
    if next == st.status then st.(logs := logs)
    else st.(logs := logs, status := next, progress := EffectProgress(next, st.progress), ticking := next == Processing)
  }

  /** One firing of the progress interval; it clears itself on reaching 90. */
  function WithTick(st: PanelState): (r: PanelState)
    ensures r.logs == st.logs && r.images == st.images && r.status == st.status
    ensures r.selected == st.selected && r.cameraOpen == st.cameraOpen
    ensures st.ticking ==> r.progress == TickProgress(st.progress) && r.ticking == (st.progress + 10 < 90)
    ensures !st.ticking ==> r == st
    ensures Consistent(st) ==> Consistent(r)
  {
    if !st.ticking then st
    else if st.progress + 10 >= 90 then st.(progress := 90, ticking := false)
    else st.(progress := st.progress + 10)
  }

  /** `n` firings of the interval. */
  function Ticks(st: PanelState, n: nat): PanelState
    decreases n
  {
    if n == 0 then st else Ticks(WithTick(st), n - 1)
  }

  /** Once stopped, the interval changes nothing. */
  lemma {:induction false} TicksWhenStopped(st: PanelState, n: nat)
    requires !st.ticking
    ensures Ticks(st, n) == st
    decreases n
  {
    if n > 0 {
      TicksWhenStopped(WithTick(st), n - 1);
    }
  }

  /** The interval touches only the progress and its own running flag, and
      keeps the panel consistent. */
  lemma {:induction false} TicksKeep(st: PanelState, n: nat)
    ensures var r := Ticks(st, n);
      && r.logs == st.logs && r.images == st.images && r.status == st.status
      && r.selected == st.selected && r.cameraOpen == st.cameraOpen
      && (Consistent(st) ==> Consistent(r))
    decreases n
  {
    if n > 0 {
      TicksKeep(WithTick(st), n - 1);
    }
  }

  /** While processing, the bar climbs by 10 per firing and stops at 90. */
  lemma {:induction false} TicksClimb(st: PanelState, n: nat)
    requires st.ticking && st.progress <= 90
    ensures Ticks(st, n).progress == Min(st.progress + 10 * n, 90)
    decreases n
  {
    if n > 0 {
      var next := WithTick(st);
      if st.progress + 10 < 90 {
        TicksClimb(next, n - 1);
      } else {
        TicksWhenStopped(next, n - 1);
      }
    }
  }

  /** The start of handleImageUpload: the `processing` entry, then status
      processing and progress 10. */
  function UploadBegun(st: PanelState, fileName: string): (r: PanelState)
    ensures r.logs == st.logs + [LogEntry(ProcessingLog, Started(fileName), FileOnly(fileName))]
    ensures r.images == st.images && r.selected == st.selected && r.cameraOpen == st.cameraOpen
    ensures r.status == Processing && r.progress == 10
    ensures Consistent(st) ==> Consistent(r)
  {
    WithLog(st, LogEntry(ProcessingLog, Started(fileName), FileOnly(fileName))).(progress := 10)
  }

  /** The rest of handleImageUpload, once the analysis has returned or thrown. */
  function UploadFinished(st: PanelState, fileName: string, outcome: AnalyzeOutcome): (r: PanelState)
    ensures r.logs == st.logs + OutcomeLogs(fileName, outcome)
    ensures r.images == st.images && r.selected == st.selected && r.cameraOpen == st.cameraOpen
    ensures Consistent(st) ==> Consistent(r) && Settled(r)
  {
    var logs := OutcomeLogs(fileName, outcome);
    var first := WithLog(st, logs[0]);
    if |logs| == 1 then first
    else
      assert logs == [logs[0], logs[1]];
      WithLog(first, logs[1])
  }

  /** A whole handleImageUpload run without interval firings in between. */
  function Uploaded(st: PanelState, fileName: string, outcome: AnalyzeOutcome): (r: PanelState)
    ensures r.logs == st.logs + UploadLogs(fileName, outcome)
    ensures r.images == st.images && r.selected == st.selected && r.cameraOpen == st.cameraOpen
    ensures Consistent(st) ==> Consistent(r) && Settled(r)
  {
    UploadFinished(UploadBegun(st, fileName), fileName, outcome)
  }

  /** However often the interval fires while the analysis is awaited, the
      upload ends in the same state. */
  lemma TicksDuringUploadDoNotMatter(st: PanelState, fileName: string, outcome: AnalyzeOutcome, n: nat)
    requires Consistent(st)
    ensures UploadFinished(Ticks(UploadBegun(st, fileName), n), fileName, outcome) == Uploaded(st, fileName, outcome)
  {
    TicksKeep(UploadBegun(st, fileName), n);
  }

  /** processFile: a non-image is turned away; an image is added, handed to
      the parent and uploaded. */
  function FileProcessed(st: PanelState, f: DroppedFile, outcome: AnalyzeOutcome): (r: PanelState)
    ensures r.logs == st.logs + FileLogs(f, outcome)
    ensures r.images == st.images + FileImages(f)
    ensures r.selected == (if IsImage(f) then Some(f.url) else st.selected)
    ensures r.cameraOpen == st.cameraOpen
    ensures !IsImage(f) ==> r == st
    ensures Consistent(st) ==> Consistent(r)
    ensures Consistent(st) && IsImage(f) ==> Settled(r)
  {
    if !IsImage(f) then st
    else Uploaded(st.(images := st.images + [Image(f.url, f.name)], selected := Some(f.url)), f.name, outcome)
  }

  /** The files of a batch processed one after the other; the `i`-th file's
      analysis gives `outcomes(i)`. */
  function BatchProcessed(st: PanelState, files: seq<DroppedFile>, outcomes: nat -> AnalyzeOutcome): (r: PanelState)
    ensures |st.images| <= |r.images| <= |st.images| + |files|
    ensures |st.logs| + 2 * |r.images| - 2 * |st.images| <= |r.logs|
    ensures r.cameraOpen == st.cameraOpen
    decreases |files|
  {
    if files == [] then st
    else FileProcessed(BatchProcessed(st, files[..|files| - 1], outcomes), files[|files| - 1], outcomes(|files| - 1))
  }

  lemma AppendAssoc<T>(a: seq<T>, b: seq<T>, c: seq<T>)
    ensures a + (b + c) == (a + b) + c
  {
  }

  /** A batch logs what its files log, adds the images among them in order,
      and hands the parent the url of the last one. */
  lemma {:induction false} BatchProcessedAdds(st: PanelState, files: seq<DroppedFile>, outcomes: nat -> AnalyzeOutcome)
    ensures var r := BatchProcessed(st, files, outcomes);
      && r.logs == st.logs + BatchLogs(files, outcomes)
      && r.images == st.images + BatchImages(files)
      && r.selected == LastSelected(files, st.selected)
      && r.cameraOpen == st.cameraOpen
    decreases |files|
  {
    if files != [] {
      var init, last := files[..|files| - 1], files[|files| - 1];
      BatchProcessedAdds(st, init, outcomes);
      AppendAssoc(st.logs, BatchLogs(init, outcomes), FileLogs(last, outcomes(|init|)));
      AppendAssoc(st.images, BatchImages(init), FileImages(last));
    }
  }

  /** A batch keeps the panel consistent; one without images changes nothing,
      and one with images leaves the panel settled. */
  lemma {:induction false} BatchProcessedSettles(st: PanelState, files: seq<DroppedFile>, outcomes: nat -> AnalyzeOutcome)
    ensures BatchImages(files) == [] ==> BatchProcessed(st, files, outcomes) == st
    ensures Consistent(st) ==> Consistent(BatchProcessed(st, files, outcomes))
    ensures Consistent(st) && BatchImages(files) != [] ==> Settled(BatchProcessed(st, files, outcomes))
    decreases |files|
  {
    if files != [] {
      BatchProcessedSettles(st, files[..|files| - 1], outcomes);
    }
  }

  /** onDrop: over the limit, the warning and only the files that fit;
      otherwise every file. */
  function Dropped(st: PanelState, files: seq<DroppedFile>, outcomes: nat -> AnalyzeOutcome): (r: PanelState)
    ensures |st.images| <= MaxUploads ==> |r.images| <= MaxUploads
    ensures |st.images| <= |r.images|
    ensures r.cameraOpen == st.cameraOpen
  {
    if |st.images| + |files| > MaxUploads then
      var chosen := SliceTo(files, MaxUploads - |st.images|);
      if |chosen| == 0 then st else BatchProcessed(WithLog(st, LimitLog), chosen, outcomes)
    else BatchProcessed(st, files, outcomes)
  }

  /** A drop logs the warning when it is over the limit yet some files fit,
      then processes the files it selected; the panel never holds more than
      five images and stays consistent. */
  lemma DroppedSpec(st: PanelState, files: seq<DroppedFile>, outcomes: nat -> AnalyzeOutcome)
    requires |st.images| <= MaxUploads
    ensures var r, chosen := Dropped(st, files, outcomes), DropSelection(|st.images|, files);
      && r.logs == st.logs + (if DropWarns(|st.images|, files) then [LimitLog] else []) + BatchLogs(chosen, outcomes)
      && r.images == st.images + BatchImages(chosen)
      && r.selected == LastSelected(chosen, st.selected)
      && r.cameraOpen == st.cameraOpen
      && |r.images| <= MaxUploads
      && (Consistent(st) ==> Consistent(r))
  {
    var chosen := DropSelection(|st.images|, files);
    var warned := if DropWarns(|st.images|, files) then WithLog(st, LimitLog) else st;
    assert Dropped(st, files, outcomes) == BatchProcessed(warned, chosen, outcomes);
    assert warned.logs == st.logs + (if DropWarns(|st.images|, files) then [LimitLog] else []);
    BatchProcessedAdds(warned, chosen, outcomes);
    BatchProcessedSettles(warned, chosen, outcomes);
  }

  /** The name given to a camera shot taken at `now` (milliseconds). */
  function CaptureName(now: nat): (name: string)
    ensures StartsWith(name, "camera-capture-")
    ensures |name| >= 19 && name[|name| - 4..] == ".jpg"
    ensures name[15..|name| - 4] == NatToString(now)
  {
    var name := "camera-capture-" + NatToString(now) + ".jpg";
    assert name[..15] == "camera-capture-";
    name
  }

  /** Shots taken at different times get different names. */
  lemma CaptureNamesDistinct(a: nat, b: nat)
    requires a != b
    ensures CaptureName(a) != CaptureName(b)
  {
    if CaptureName(a) == CaptureName(b) {
      NatToStringRoundTrip(a);
      NatToStringRoundTrip(b);
    }
  }

  /** handleCameraCapture: the dialog closes; unless five images are already
      there, the shot is added, handed to the parent and uploaded. */
  function Captured(st: PanelState, url: string, now: nat, outcome: AnalyzeOutcome): (r: PanelState)
    ensures !r.cameraOpen
    ensures |st.images| >= MaxUploads ==> r == st.(cameraOpen := false)
    ensures |st.images| < MaxUploads ==>
      && r.images == st.images + [Image(url, CaptureName(now))]
      && r.selected == Some(url)
      && r.logs == st.logs + UploadLogs(CaptureName(now), outcome)
    ensures |st.images| <= MaxUploads ==> |r.images| <= MaxUploads
    ensures Consistent(st) ==> Consistent(r)
    ensures Consistent(st) && |st.images| < MaxUploads ==> Settled(r)
  {
    if |st.images| >= MaxUploads then st.(cameraOpen := false)
    else
      var name := CaptureName(now);
      Uploaded(st.(cameraOpen := false, images := st.images + [Image(url, name)], selected := Some(url)), name, outcome)
  }

  /** removeImage: the image at `index` goes, and the parent is handed the
      first remaining url, or null. */
  function Removed(st: PanelState, index: int): (r: PanelState)
    ensures r.logs == st.logs && r.status == st.status && r.progress == st.progress
    ensures r.ticking == st.ticking && r.cameraOpen == st.cameraOpen
    ensures r.selected.Some? <==> r.images != [] && r.images[0].url != ""
    ensures r.selected.Some? ==> r.selected.value == r.images[0].url
    ensures Consistent(st) ==> Consistent(r)
  {
    var images := SpliceOne(st.images, index);
    st.(images := images, selected := if images != [] && images[0].url != "" then Some(images[0].url) else None)
  }

  /** Removing an image inside the list drops exactly that one and keeps the
      order of the others; an index past the end removes nothing; a negative
      index counts from the end. */
  lemma RemovedImages(st: PanelState, index: int)
    ensures 0 <= index < |st.images| ==>
      && |Removed(st, index).images| == |st.images| - 1
      && (forall j :: 0 <= j < index ==> Removed(st, index).images[j] == st.images[j])
      && (forall j :: index <= j < |st.images| - 1 ==> Removed(st, index).images[j] == st.images[j + 1])
      && multiset(Removed(st, index).images) + multiset{st.images[index]} == multiset(st.images)
    ensures index >= |st.images| ==> Removed(st, index).images == st.images
    ensures -|st.images| <= index < 0 ==> Removed(st, index).images == Removed(st, |st.images| + index).images
  {
    if 0 <= index < |st.images| {
      SpliceOneInRange(st.images, index);
    } else if index >= |st.images| {
      SpliceOnePastEnd(st.images, index);
    }
  }

  // ------------------------------------------------------------ the panel

  class UploadPanel {
    var logs: seq<LogEntry>
    var images: seq<Image>
    var status: Status
    var progress: int
    /** whether the progress interval is running */
    var ticking: bool
    /** the last url handed to the parent's image callback; None for null */
    var selected: Option<string>
    var cameraOpen: bool

    function State(): PanelState
      reads this
    {
      PanelState(logs, images, status, progress, ticking, selected, cameraOpen)
    }

    predicate Valid()
      reads this
    {
      Consistent(State())
    }

    constructor ()
      ensures Valid() && State() == InitialPanel
    {
      logs := [];
      images := [];
      status := Idle;
      progress := 0;
      ticking := false;
      selected := None;
      cameraOpen := false;
    }

    method AddLog(entry: LogEntry)
      requires Valid()
      modifies this
      ensures Valid() && State() == WithLog(old(State()), entry)
    {
      logs := logs + [entry];
      var next := StatusOf(logs);
      if next != status {
        status := next;
        progress := EffectProgress(status, progress);
        ticking := status == Processing;
      }
    }

    method Tick()
      requires Valid()
      modifies this
      ensures Valid() && State() == WithTick(old(State()))
    {
      if ticking {
        var next := progress + 10;
        if next >= 90 {
          ticking := false;
          progress := 90;
        } else {
          progress := next;
        }
      }
    }

    method BeginUpload(fileName: string)
      requires Valid()
      modifies this
      ensures Valid() && State() == UploadBegun(old(State()), fileName)
    {
      AddLog(LogEntry(ProcessingLog, Started(fileName), FileOnly(fileName)));
      progress := 10;
    }

    method FinishUpload(fileName: string, outcome: AnalyzeOutcome)
      requires Valid()
      modifies this
      ensures Valid() && State() == UploadFinished(old(State()), fileName, outcome)
    {
      match outcome
      case Returned(r) =>
        if r.status == DifyClient.Success {
          AddLog(LogEntry(CompleteLog, Finished(fileName), ReceiptDetails(fileName, r.data)));
        } else {
          var message := if r.message.Some? && r.message.value != DifyClient.Other("") then Reported(r.message.value)
                         else AnalysisFailed;
          AddLog(LogEntry(ErrorLog, message, Failure(fileName, r.code)));
          if IsDemoCode(r.code) {
            AddLog(DemoLog(fileName));
          }
        }
      case Threw(m) =>
        var message := if m.Some? then ErrorText(m.value) else UnexpectedFailure;
        AddLog(LogEntry(ErrorLog, message, FileOnly(fileName)));
        AddLog(DemoLog(fileName));
    }

    method HandleImageUpload(fileName: string, outcome: AnalyzeOutcome)
      requires Valid()
      modifies this
      ensures Valid() && State() == Uploaded(old(State()), fileName, outcome)
    {
      BeginUpload(fileName);
      FinishUpload(fileName, outcome);
    }

    method ProcessFile(f: DroppedFile, outcome: AnalyzeOutcome)
      requires Valid()
      modifies this
      ensures Valid() && State() == FileProcessed(old(State()), f, outcome)
    {
      if !StartsWith(f.mimeType, "image/") {
        return;
      }
      images := images + [Image(f.url, f.name)];
      selected := Some(f.url);
      HandleImageUpload(f.name, outcome);
    }

    method ProcessBatch(files: seq<DroppedFile>, outcomes: nat -> AnalyzeOutcome)
      requires Valid()
      modifies this
      ensures Valid() && State() == BatchProcessed(old(State()), files, outcomes)
    {
      ghost var start := State();
      for i := 0 to |files|
        invariant Valid() && State() == BatchProcessed(start, files[..i], outcomes)
      {
        assert files[..i + 1][..i] == files[..i];
        BatchProcessedSettles(start, files[..i], outcomes);
        ProcessFile(files[i], outcomes(i));
        assert BatchProcessed(start, files[..i + 1], outcomes)
            == FileProcessed(BatchProcessed(start, files[..i], outcomes), files[i], outcomes(i));
      }
      assert files[..|files|] == files;
    }

    /** A drop and a camera shot, the two events that add images, each keep the
        count at five or below, so the panel a drop sees never holds more. */
    method OnDrop(files: seq<DroppedFile>, outcomes: nat -> AnalyzeOutcome)
      requires Valid() && |images| <= MaxUploads
      modifies this
      ensures Valid() && State() == Dropped(old(State()), files, outcomes)
    {
      if |images| + |files| > MaxUploads {
        var chosen := SliceTo(files, MaxUploads - |images|);
        if |chosen| == 0 {
          return;
        }
        AddLog(LimitLog);
        ProcessBatch(chosen, outcomes);
        return;
      }
      ProcessBatch(files, outcomes);
    }

    /** `now` is the clock reading the file name is made from. */
    method HandleCameraCapture(url: string, now: nat, outcome: AnalyzeOutcome)
      requires Valid()
      modifies this
      ensures Valid() && State() == Captured(old(State()), url, now, outcome)
    {
      if |images| >= MaxUploads {
        cameraOpen := false;
        return;
      }
      cameraOpen := false;
      var name := "camera-capture-" + NatToString(now) + ".jpg";
      images := images + [Image(url, name)];
      selected := Some(url);
      HandleImageUpload(name, outcome);
    }

    method RemoveImage(index: int)
      requires Valid()
      modifies this
      ensures Valid() && State() == Removed(old(State()), index)
    {
      images := SpliceOne(images, index);
      if images == [] {
        selected := None;
      } else {
        selected := if images[0].url != "" then Some(images[0].url) else None;
      }
    }

    /** The camera button, which is disabled once five images are held. */
    method OpenCamera()
      requires Valid()
      modifies this
      ensures Valid()
      ensures old(|images|) < MaxUploads ==> State() == old(State()).(cameraOpen := true)
      ensures old(|images|) >= MaxUploads ==> State() == old(State())
    {
      if |images| < MaxUploads {
        cameraOpen := true;
      }
    }
  }
}
