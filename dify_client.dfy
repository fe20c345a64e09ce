/** The browser-side analysis client: requests to the proxy endpoints, the
    content fingerprint, the five-minute result cache, and the fail-open
    pipeline that analyses one receipt image. */
module DifyClient {
  import opened Js
  import opened Service

  type Byte = x: int | 0 <= x < 256

  /** A file selected by the user; `bytes` is None when reading its contents fails. */
  datatype FileInfo = FileInfo(name: string, mimeType: string, size: nat, bytes: Option<seq<Byte>>)

  // ------------------------------------------------------------ API requests

  /** Why a request to a proxy endpoint produced no data. */
  datatype ApiFailure =
    | ConnectFailed   // fetch rejected
    | ReadFailed      // reading the body failed
    | EmptyResponse   // the body is white space only
    | HtmlResponse    // the body is an HTML page
    | InvalidJson     // JSON.parse threw

  predicate LooksLikeHtml(text: string) {
    StartsWith(Trim(text), "<!DOCTYPE") || StartsWith(Trim(text), "<html")
  }

  /** The shared request helper: reads the body as text and parses it as JSON.
      The HTTP status of the reply is never looked at. */
  function ApiRequest(reply: Reply, parse: Parser): (r: Result<Value, ApiFailure>)
    ensures r.Ok? <==>
      reply.Responded? && reply.body.Some? && !Blank(reply.body.value)
      && !LooksLikeHtml(reply.body.value) && parse(Str(reply.body.value)).Some?
    ensures r.Ok? ==> Some(r.value) == parse(Str(reply.body.value))
  {
    match reply
    case Unreachable => Err(ConnectFailed)
    case Responded(_, None) => Err(ReadFailed)
    case Responded(_, Some(text)) =>
      TrimEmptyIffBlank(text);
      if Trim(text) == "" then Err(EmptyResponse)
      else if LooksLikeHtml(text) then Err(HtmlResponse)
      else match parse(Str(text))
        case None => Err(InvalidJson)
        case Some(data) => Ok(data)
  }

  /** A non-OK reply is parsed like an OK one: only its body matters. */
  lemma ApiRequestIgnoresStatus(status1: int, status2: int, body: Option<string>, parse: Parser)
    ensures ApiRequest(Responded(status1, body), parse) == ApiRequest(Responded(status2, body), parse)
  {
  }

  /** What a failing client call reports. */
  datatype Cause = Api(failure: ApiFailure) | NullBody | NoFileId | NoRunId

  datatype ClientError =
    | UnsupportedType(mimeType: string)
    | FileTooLarge(size: nat)
    | UploadFailed(cause: Cause)
    | FileIdRequired
    | StartFailed(cause: Cause)

  // ------------------------------------------------------------ uploadFile

  const AllowedTypes: seq<string> := ["image/jpeg", "image/png", "image/webp"]

  /** 10 MiB */
  const MaxSize: nat := 10 * 1024 * 1024

  /** Uploads a file through the proxy and returns its file id. */
  function UploadFile(file: FileInfo, reply: Reply, parse: Parser): (r: Result<Value, ClientError>)
    ensures file.mimeType !in AllowedTypes ==> r == Err(UnsupportedType(file.mimeType))
    ensures file.mimeType in AllowedTypes && file.size > MaxSize ==> r == Err(FileTooLarge(file.size))
    ensures r.Ok? ==> file.mimeType in AllowedTypes && file.size <= MaxSize && Truthy(r.value)
    ensures (ApiRequest(reply, parse).Err? || Nullish(ApiRequest(reply, parse).value)) ==> r.Err?
    ensures r.Ok? ==> r.value == Or(Field(ApiRequest(reply, parse).value, "id"),
                                    Field(ApiRequest(reply, parse).value, "file_id"))
  {
    if file.mimeType !in AllowedTypes then Err(UnsupportedType(file.mimeType))
    else if file.size > MaxSize then Err(FileTooLarge(file.size))
    else match ApiRequest(reply, parse)
      case Err(f) => Err(UploadFailed(Api(f)))
      case Ok(data) =>
        if Nullish(data) then Err(UploadFailed(NullBody))
        else
          var fileId := Or(Field(data, "id"), Field(data, "file_id"));
          if Truthy(fileId) then Ok(fileId) else Err(UploadFailed(NoFileId))
  }

  /** Validation happens before any request: for a rejected file the reply is irrelevant. */
  lemma UploadValidationPrecedesRequest(file: FileInfo, reply1: Reply, reply2: Reply, parse: Parser)
    requires file.mimeType !in AllowedTypes || file.size > MaxSize
    ensures UploadFile(file, reply1, parse) == UploadFile(file, reply2, parse)
    ensures UploadFile(file, reply1, parse).Err?
  {
  }

  /** A file of exactly 10 MiB and an allowed type passes validation. */
  lemma UploadAcceptsMaxSize(file: FileInfo, reply: Reply, parse: Parser)
    requires file.mimeType in AllowedTypes && file.size == MaxSize
    ensures UploadFile(file, reply, parse) == UploadFile(file.(size := 0), reply, parse)
  {
  }

  /** The file id is `data.id` when truthy, else `data.file_id`; neither is an error. */
  lemma UploadFileIdChoice(file: FileInfo, reply: Reply, parse: Parser, data: Value)
    requires file.mimeType in AllowedTypes && file.size <= MaxSize
    requires ApiRequest(reply, parse) == Ok(data) && !Nullish(data)
    ensures Truthy(Field(data, "id")) ==> UploadFile(file, reply, parse) == Ok(Field(data, "id"))
    ensures !Truthy(Field(data, "id")) && Truthy(Field(data, "file_id")) ==>
      UploadFile(file, reply, parse) == Ok(Field(data, "file_id"))
    ensures !Truthy(Field(data, "id")) && !Truthy(Field(data, "file_id")) ==>
      UploadFile(file, reply, parse) == Err(UploadFailed(NoFileId))
  {
    var fileId := Or(Field(data, "id"), Field(data, "file_id"));
    assert UploadFile(file, reply, parse) == if Truthy(fileId) then Ok(fileId) else Err(UploadFailed(NoFileId));
  }

  // ------------------------------------------------------------ startWorkflow

  datatype WorkflowRun = WorkflowRun(runId: Value, outputs: Value, status: Value)

  /** Triggers the analysis workflow for an uploaded file and returns its run id. */
  function StartWorkflow(fileId: Value, reply: Reply, parse: Parser): (r: Result<WorkflowRun, ClientError>)
    ensures !Truthy(fileId) ==> r == Err(FileIdRequired)
    ensures r.Ok? ==> Truthy(r.value.runId)
    ensures r.Ok? <==> Truthy(fileId) && ApiRequest(reply, parse).Ok?
                       && Truthy(OptField(ApiRequest(reply, parse).value, "run_id"))
    ensures r.Ok? ==> var data := ApiRequest(reply, parse).value;
      r.value == WorkflowRun(Field(data, "run_id"), Field(data, "outputs"), Field(data, "status"))
  {
    if !Truthy(fileId) then Err(FileIdRequired)
    else match ApiRequest(reply, parse)
      case Err(f) => Err(StartFailed(Api(f)))
      case Ok(data) =>
        if Nullish(data) then Err(StartFailed(NullBody))
        else if !Truthy(Field(data, "run_id")) then Err(StartFailed(NoRunId))
        else Ok(WorkflowRun(Field(data, "run_id"), Field(data, "outputs"), Field(data, "status")))
  }

  // ------------------------------------------------------------ checkWorkflowStatus

  datatype RunStatus = Completed | Running | Failed

  datatype StatusCheck = StatusCheck(status: RunStatus, result: Value)

  /** The `try` block over `data.outputs`: None where JSON.parse throws. */
  function ParseOutputs(outputs: Value, parse: Parser): Option<Value> {
    if outputs.Str? then parse(outputs)
    else if Truthy(Field(outputs, SuccessKey)) then parse(Field(outputs, SuccessKey))
    else Some(outputs)
  }

  /** A candidate result, with the placeholder for a parse failure or a falsy value. */
  function Settle(candidate: Option<Value>): Value {
    match candidate
    case None => EmptyReceipt
    case Some(v) => if Truthy(v) then v else EmptyReceipt
  }

  /** The result that `checkWorkflowStatus` extracts from the status response. */
  function SelectResult(data: Value, parse: Parser): (r: Value)
    ensures Truthy(r)
    ensures Truthy(Field(data, "result")) ==> r == Field(data, "result")
    ensures !Field(data, "result").Undefined? && !Truthy(Field(data, "result")) ==> r == EmptyReceipt
  {
    var given := Field(data, "result");
    if given.Undefined? && Truthy(Field(data, "outputs")) then Settle(ParseOutputs(Field(data, "outputs"), parse))
    else Settle(Some(given))
  }

  /** With no `result` field, the outputs are tried in order: as a JSON string,
      then the JSON string under the success key, then the outputs object itself. */
  lemma SelectResultFromOutputs(data: Value, parse: Parser)
    requires Field(data, "result").Undefined?
    ensures var out := Field(data, "outputs");
      && (!Truthy(out) ==> SelectResult(data, parse) == EmptyReceipt)
      && (Truthy(out) && out.Str? ==> SelectResult(data, parse) == Settle(parse(out)))
      && (Truthy(out) && !out.Str? && Truthy(Field(out, SuccessKey)) ==>
            SelectResult(data, parse) == Settle(parse(Field(out, SuccessKey))))
      && (Truthy(out) && !out.Str? && !Truthy(Field(out, SuccessKey)) ==> SelectResult(data, parse) == out)
  {
  }

  /** The run status reported upstream is never consulted. */
  lemma SelectResultIgnoresStatus(m: map<string, Value>, s1: Value, s2: Value, parse: Parser)
    ensures SelectResult(Obj(m["status" := s1]), parse) == SelectResult(Obj(m["status" := s2]), parse)
  {
    assert Field(Obj(m["status" := s1]), "result") == Field(Obj(m["status" := s2]), "result");
    assert Field(Obj(m["status" := s1]), "outputs") == Field(Obj(m["status" := s2]), "outputs");
  }

  /** Polls the status endpoint once. Every path reports completion. */
  function CheckWorkflowStatus(runId: Value, reply: Reply, parse: Parser): (r: StatusCheck)
    ensures r.status == Completed
    ensures Truthy(r.result)
    ensures !Truthy(runId) ==> r.result == EmptyReceipt
    ensures ApiRequest(reply, parse).Err? ==> r.result == EmptyReceipt
    ensures Truthy(runId) && ApiRequest(reply, parse).Ok? && Nullish(ApiRequest(reply, parse).value) ==>
      r.result == EmptyReceipt
    ensures Truthy(runId) && ApiRequest(reply, parse).Ok? && !Nullish(ApiRequest(reply, parse).value) ==>
      r.result == SelectResult(ApiRequest(reply, parse).value, parse)
  {
    if !Truthy(runId) then StatusCheck(Completed, EmptyReceipt)
    else match ApiRequest(reply, parse)
      case Err(_) => StatusCheck(Completed, EmptyReceipt)
      case Ok(data) =>
        if Nullish(data) then StatusCheck(Completed, EmptyReceipt)
        else StatusCheck(Completed, SelectResult(data, parse))
  }

  // ------------------------------------------------------------ waitForResult

  datatype AnalysisStatus = Success | Failure

  datatype Waited = Waited(status: AnalysisStatus, data: Value)

  /** Waits for the workflow result: one status check, reported as success. */
  function WaitForResult(runId: Value, reply: Reply, parse: Parser): (w: Waited)
    ensures w.status == Success && Truthy(w.data)
    ensures w.data == CheckWorkflowStatus(runId, reply, parse).result
  {
    var status := CheckWorkflowStatus(runId, reply, parse);
    Waited(Success, Or(status.result, EmptyReceipt))
  }

  // ------------------------------------------------------------ calculateFileHash

  /** Only the first kilobyte of a file enters its fingerprint. */
  const HashPrefixLength: nat := 1024

  predicate IsLowerHex(c: char) {
    '0' <= c <= '9' || 'a' <= c <= 'f'
  }

  function HexDigit(d: int): (c: char)
    requires 0 <= d < 16
    ensures IsLowerHex(c)
  {
    if d < 10 then ('0' as int + d) as char else ('a' as int + d - 10) as char
  }

  function HexValue(c: char): (d: int)
    requires IsLowerHex(c)
    ensures 0 <= d < 16
  {
    if c <= '9' then c as int - '0' as int else c as int - 'a' as int + 10
  }

  /** `b.toString(16).padStart(2, '0')` */
  function HexPair(b: Byte): string {
    [HexDigit(b / 16), HexDigit(b % 16)]
  }

  /** The bytes mapped to hex pairs and joined. */
  function HexJoin(bs: seq<Byte>): (r: string)
    ensures |r| == 2 * |bs|
    ensures forall i :: 0 <= i < |r| ==> IsLowerHex(r[i])
  {
    if bs == [] then "" else HexPair(bs[0]) + HexJoin(bs[1..])
  }

  /** The cache key of a file's contents. */
  function FileHash(bytes: seq<Byte>): (key: string)
    ensures |key| == 2 * Min(|bytes|, HashPrefixLength)
    ensures forall i :: 0 <= i < |key| ==> IsLowerHex(key[i])
  {
    HexJoin(bytes[..Min(|bytes|, HashPrefixLength)])
  }

  /** Reads hex pairs back into bytes. */
  function Unhex(s: string): seq<Byte>
    requires forall i :: 0 <= i < |s| ==> IsLowerHex(s[i])
  {
    if |s| < 2 then [] else [16 * HexValue(s[0]) + HexValue(s[1])] + Unhex(s[2..])
  }

  lemma {:induction false} HexRoundTrip(bs: seq<Byte>)
    ensures Unhex(HexJoin(bs)) == bs
  {
    if bs != [] {
      var s := HexJoin(bs);
      assert s[2..] == HexJoin(bs[1..]);
      HexRoundTrip(bs[1..]);
      assert HexValue(s[0]) == bs[0] / 16 && HexValue(s[1]) == bs[0] % 16;
    }
  }

  /** Two files get the same key exactly when their first 1024 bytes agree. */
  lemma FileHashSameIffPrefixSame(a: seq<Byte>, b: seq<Byte>)
    ensures FileHash(a) == FileHash(b) <==>
      a[..Min(|a|, HashPrefixLength)] == b[..Min(|b|, HashPrefixLength)]
  {
    HexRoundTrip(a[..Min(|a|, HashPrefixLength)]);
    HexRoundTrip(b[..Min(|b|, HashPrefixLength)]);
  }

  // ------------------------------------------------------------ the response cache

  /** Five minutes, in milliseconds. */
  const CacheDuration: int := 5 * 60 * 1000

  datatype CacheEntry = CacheEntry(data: Waited, timestamp: int)

  /** What `checkCache` returns and which entries remain afterwards. */
  datatype Lookup = Lookup(hit: Option<Waited>, remaining: map<string, CacheEntry>)

  /** An absent key misses; an entry older than the duration misses and is
      dropped; a younger one, also one of exactly that age, is returned as stored.
      No other key is touched. */
  function CacheLookup(entries: map<string, CacheEntry>, key: string, now: int): (l: Lookup)
    ensures l.hit.Some? <==> key in entries && now - entries[key].timestamp <= CacheDuration
    ensures l.hit.Some? ==> l.hit.value == entries[key].data
    ensures key in l.remaining <==> l.hit.Some?
    ensures forall k :: k != key ==> (k in l.remaining <==> k in entries)
    ensures forall k :: k in l.remaining ==> l.remaining[k] == entries[k]
  {
    if key !in entries then Lookup(None, entries)
    else if now - entries[key].timestamp > CacheDuration then Lookup(None, entries - {key})
    else Lookup(Some(entries[key].data), entries)
  }

  /** A saved result is found by a lookup within the duration, and not after it. */
  lemma SaveThenLookup(entries: map<string, CacheEntry>, key: string, data: Waited, saved: int, now: int)
    ensures var l := CacheLookup(entries[key := CacheEntry(data, saved)], key, now);
      && (now - saved <= CacheDuration ==> l.hit == Some(data))
      && (now - saved > CacheDuration ==> l.hit == None && key !in l.remaining)
  {
  }

  /** The module-level cache, keyed by file fingerprint. */
  class ResponseCache {
    var entries: map<string, CacheEntry>

    constructor ()
      ensures entries == map[]
    {
      entries := map[];
    }

    /** `checkCache(key)` at clock reading `now`. */
    method Check(key: string, now: int) returns (r: Option<Waited>)
      modifies this
      ensures r == CacheLookup(old(entries), key, now).hit
      ensures entries == CacheLookup(old(entries), key, now).remaining
    {
      if key !in entries {
        return None;
      }
      var cached := entries[key];
      if now - cached.timestamp > CacheDuration {
        entries := entries - {key};
        return None;
      }
      return Some(cached.data);
    }

    /** `saveToCache(key, data)` at clock reading `now`: overwrites any earlier entry. */
    method Save(key: string, data: Waited, now: int)
      modifies this
      ensures entries == old(entries)[key := CacheEntry(data, now)]
    {
      entries := entries[key := CacheEntry(data, now)];
    }
  }

  // ------------------------------------------------------------ analyzeDifyReceipt

  /** The fixed texts of the pipeline's own messages. */
  datatype Notice = AnalysisSucceeded | ServedFromCache | Other(text: string)

  datatype Analysis = Analysis(status: AnalysisStatus, message: Option<Notice>, code: Option<string>, data: Value)

  const DefaultSuccess: Analysis := Analysis(Success, Some(AnalysisSucceeded), None, EmptyReceipt)

  /** The replies of the three proxy calls one analysis makes. */
  datatype Network = Network(upload: Reply, start: Reply, status: Reply)

  /** The result of the pipeline after the cache lookup, and what it stores. */
  datatype PipelineRun = PipelineRun(result: Analysis, store: Option<Waited>)

  function AfterLookup(file: FileInfo, cached: Option<Waited>, net: Network, parse: Parser): (run: PipelineRun)
    ensures run.result.status == Success && Truthy(run.result.data)
    ensures cached.Some? ==> run.store == None && run.result.data == Or(cached.value.data, EmptyReceipt)
    ensures run.store.Some? <==>
      cached.None? && UploadFile(file, net.upload, parse).Ok?
      && StartWorkflow(UploadFile(file, net.upload, parse).value, net.start, parse).Ok?
  {
    if cached.Some? then
      PipelineRun(Analysis(Success, Some(ServedFromCache), None, Or(cached.value.data, EmptyReceipt)), None)
    else match UploadFile(file, net.upload, parse)
      case Err(_) => PipelineRun(DefaultSuccess, None)
      case Ok(fileId) =>
        match StartWorkflow(fileId, net.start, parse)
        case Err(_) => PipelineRun(DefaultSuccess, None)
        case Ok(workflow) =>
          var waited := WaitForResult(workflow.runId, net.status, parse);
          PipelineRun(Analysis(Success, Some(AnalysisSucceeded), None, Or(waited.data, EmptyReceipt)), Some(waited))
  }

  /** One call of the pipeline from a cache state: the result and the new cache. */
  datatype Outcome = Outcome(result: Analysis, entries: map<string, CacheEntry>)

  function Analyze(entries: map<string, CacheEntry>, file: FileInfo, net: Network, parse: Parser,
                   checkTime: int, saveTime: int): (o: Outcome)
    ensures o.result.status == Success
    ensures file.bytes.None? ==> o == Outcome(DefaultSuccess, entries)
  {
    match file.bytes
    case None => Outcome(DefaultSuccess, entries)
    case Some(bytes) =>
      var key := FileHash(bytes);
      var look := CacheLookup(entries, key, checkTime);
      var run := AfterLookup(file, look.hit, net, parse);
      Outcome(run.result,
              if run.store.Some? then look.remaining[key := CacheEntry(run.store.value, saveTime)]
              else look.remaining)
  }

  /** A fresh cache hit answers without the network: any replies give the same outcome. */
  lemma CacheHitSkipsNetwork(entries: map<string, CacheEntry>, file: FileInfo, net1: Network, net2: Network,
                             parse: Parser, checkTime: int, saveTime: int)
    requires file.bytes.Some?
    requires CacheLookup(entries, FileHash(file.bytes.value), checkTime).hit.Some?
    ensures Analyze(entries, file, net1, parse, checkTime, saveTime) == Analyze(entries, file, net2, parse, checkTime, saveTime)
    ensures Analyze(entries, file, net1, parse, checkTime, saveTime).entries == entries
  {
  }

  /** A failed upload or workflow start gives the placeholder result and stores nothing. */
  lemma FailedStepGivesDefault(entries: map<string, CacheEntry>, file: FileInfo, net: Network, parse: Parser,
                               checkTime: int, saveTime: int)
    requires file.bytes.Some?
    requires CacheLookup(entries, FileHash(file.bytes.value), checkTime).hit.None?
    requires UploadFile(file, net.upload, parse).Err?
      || StartWorkflow(UploadFile(file, net.upload, parse).value, net.start, parse).Err?
    ensures Analyze(entries, file, net, parse, checkTime, saveTime) ==
      Outcome(DefaultSuccess, CacheLookup(entries, FileHash(file.bytes.value), checkTime).remaining)
  {
  }

  /** The cache is written, under the file's key, exactly when upload, start and
      wait all ran; the stored entry carries the save time. */
  lemma StoredOnlyAfterFullRun(entries: map<string, CacheEntry>, file: FileInfo, net: Network, parse: Parser,
                               checkTime: int, saveTime: int)
    requires file.bytes.Some?
    requires CacheLookup(entries, FileHash(file.bytes.value), checkTime).hit.None?
    requires UploadFile(file, net.upload, parse).Ok?
    requires StartWorkflow(UploadFile(file, net.upload, parse).value, net.start, parse).Ok?
    ensures var key := FileHash(file.bytes.value);
      var w := WaitForResult(StartWorkflow(UploadFile(file, net.upload, parse).value, net.start, parse).value.runId,
                             net.status, parse);
      && Analyze(entries, file, net, parse, checkTime, saveTime).entries ==
           CacheLookup(entries, key, checkTime).remaining[key := CacheEntry(w, saveTime)]
      && Analyze(entries, file, net, parse, checkTime, saveTime).result.data == w.data
  {
  }

  /** A second analysis of a file whose first kilobyte equals that of a file
      analysed within the last five minutes returns the same data from the
      cache, whatever the network replies, and leaves the cache as it was. */
  lemma RepeatServedFromCache(entries: map<string, CacheEntry>, file1: FileInfo, file2: FileInfo,
                              net1: Network, net2: Network, parse: Parser,
                              check1: int, save1: int, check2: int, save2: int)
    requires file1.bytes.Some? && file2.bytes.Some?
    requires file1.bytes.value[..Min(|file1.bytes.value|, HashPrefixLength)]
          == file2.bytes.value[..Min(|file2.bytes.value|, HashPrefixLength)]
    requires CacheLookup(entries, FileHash(file1.bytes.value), check1).hit.None?
    requires UploadFile(file1, net1.upload, parse).Ok?
    requires StartWorkflow(UploadFile(file1, net1.upload, parse).value, net1.start, parse).Ok?
    requires check2 - save1 <= CacheDuration
    ensures var first := Analyze(entries, file1, net1, parse, check1, save1);
      var second := Analyze(first.entries, file2, net2, parse, check2, save2);
      && second.result.data == first.result.data
      && second.result.message == Some(ServedFromCache)
      && second.entries == first.entries
  {
    FileHashSameIffPrefixSame(file1.bytes.value, file2.bytes.value);
  }

  /** analyzeDifyReceipt: hash, cache check, upload, start, wait, store, each
      failing step returning the placeholder success. */
  method AnalyzeReceipt(cache: ResponseCache, file: FileInfo, net: Network, parse: Parser,
                        checkTime: int, saveTime: int) returns (r: Analysis)
    modifies cache
    ensures Outcome(r, cache.entries) == Analyze(old(cache.entries), file, net, parse, checkTime, saveTime)
    ensures r.status == Success
  {
    if file.bytes.None? {
      return DefaultSuccess;
    }
    var key := FileHash(file.bytes.value);
    var cached := cache.Check(key, checkTime);
    if cached.Some? {
      return Analysis(Success, Some(ServedFromCache), None, Or(cached.value.data, EmptyReceipt));
    }
    var fileId := UploadFile(file, net.upload, parse);
    if fileId.Err? {
      return DefaultSuccess;
    }
    var workflow := StartWorkflow(fileId.value, net.start, parse);
    if workflow.Err? {
      return DefaultSuccess;
    }
    var result := WaitForResult(workflow.value.runId, net.status, parse);
    cache.Save(key, result, saveTime);
    var data := result.data;
    if !Truthy(data) {
      data := DefaultSuccess.data;
    }
    return Analysis(Success, Some(AnalysisSucceeded), None, data);
  }
}
