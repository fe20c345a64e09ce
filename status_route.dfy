/** The status proxy handler: reads the result of a workflow run and always
    answers 200 `succeeded`, with the placeholder receipt whenever anything
    along the way is missing or fails. */
module StatusRoute {
  import opened Js
  import opened Service

  /** The JSON body every response carries. */
  datatype Envelope = Envelope(status: string, result: Value)

  const Succeeded: string := "succeeded"

  /** The request sent to the analysis service. */
  datatype StatusRequest = StatusRequest(endpoint: string, bearer: string)

  /** The workflow endpoint with its first `/run` removed; None when unset. */
  function ApiBase(env: Env): (r: Option<string>)
    ensures r.None? <==> env.workflowEndpoint.None?
    ensures env.workflowEndpoint.Some? && IndexOf(env.workflowEndpoint.value, "/run").None? ==>
      r == env.workflowEndpoint
  {
    match env.workflowEndpoint
    case None => None
    case Some(e) => Some(ReplaceFirst(e, "/run", ""))
  }

  /** The first `/run` of the endpoint is cut out and the rest is kept. */
  lemma ApiBaseStripsRun(env: Env, i: nat)
    requires env.workflowEndpoint.Some?
    requires OccursAt(env.workflowEndpoint.value, "/run", i)
    requires forall j :: 0 <= j < i ==> !OccursAt(env.workflowEndpoint.value, "/run", j)
    ensures ApiBase(env) == Some(env.workflowEndpoint.value[..i] + env.workflowEndpoint.value[i + |"/run"|..])
  {
    var e := env.workflowEndpoint.value;
    ReplaceFirstSpec(e, "/run", "", i);
    assert e[..i] + "" == e[..i];
  }

  /** The status template with `:workflow_id` replaced, unless that comes out
      empty; then the base endpoint followed by `/workflow-runs/<runId>`. */
  function StatusEndpoint(env: Env, base: string, runId: string): (endpoint: string)
    ensures env.statusEndpoint.None? ==> endpoint == base + "/workflow-runs/" + runId
    ensures env.statusEndpoint.Some? && ReplaceFirst(env.statusEndpoint.value, ":workflow_id", runId) != "" ==>
      endpoint == ReplaceFirst(env.statusEndpoint.value, ":workflow_id", runId)
  {
    var templated := if env.statusEndpoint.Some? then ReplaceFirst(env.statusEndpoint.value, ":workflow_id", runId) else "";
    if templated != "" then templated else base + "/workflow-runs/" + runId
  }

  /** An empty template falls back to the base endpoint as well. */
  lemma EmptyTemplateFallsBack(env: Env, base: string, runId: string)
    requires env.statusEndpoint == Some("")
    ensures StatusEndpoint(env, base, runId) == base + "/workflow-runs/" + runId
  {
    ReplaceFirstAbsent("", ":workflow_id", runId);
  }

  /** The result taken from the run data: the parse of the success output, its
      raw value when that fails, the placeholder when there is none. */
  function PayloadResult(data: Value, parse: Parser): (r: Value)
    ensures !Truthy(Field(data, "outputs")) || !Truthy(Field(Field(data, "outputs"), SuccessKey)) ==> r == EmptyReceipt
    ensures Truthy(Field(data, "outputs")) && Truthy(Field(Field(data, "outputs"), SuccessKey)) ==>
      var raw := Field(Field(data, "outputs"), SuccessKey);
      r == (if parse(raw).Some? then parse(raw).value else raw)
  {
    var outputs := Field(data, "outputs");
    if Truthy(outputs) && Truthy(Field(outputs, SuccessKey)) then
      match parse(Field(outputs, SuccessKey))
      case Some(v) => v
      case None => Field(outputs, SuccessKey)
    else EmptyReceipt
  }

  /** The run data: `responseData.data` when truthy, else `responseData` itself. */
  function RunData(responseData: Value): (data: Value)
    ensures Truthy(Field(responseData, "data")) ==> data == Field(responseData, "data")
    ensures !Truthy(Field(responseData, "data")) ==> data == responseData
    ensures Nullish(data) <==> Nullish(responseData)
  {
    Or(Field(responseData, "data"), responseData)
  }

  /** GET: `runId` is the `runId` search parameter, `reply` the outcome of the
      call to the endpoint it returns. */
  function HandleStatus(env: Env, runId: Option<string>, reply: Reply, parse: Parser): (h: Handled<StatusRequest, Envelope>)
    ensures h.response.status == 200 && h.response.body.status == Succeeded
    ensures h.sent.Some? <==>
      runId.Some? && runId.value != "" && IsSet(env.apiKey) && ApiBase(env).Some? && ApiBase(env).value != ""
    ensures h.sent.None? ==> h.response.body.result == EmptyReceipt
    ensures h.sent.Some? ==>
      h.sent.value == StatusRequest(StatusEndpoint(env, ApiBase(env).value, runId.value), env.apiKey.value)
    ensures !reply.Ok() || reply.body.None? || parse(Str(reply.body.value)).None? ==>
      h.response.body.result == EmptyReceipt
    ensures h.sent.Some? && reply.Ok() && reply.body.Some? && parse(Str(reply.body.value)).Some? ==>
      var responseData := parse(Str(reply.body.value)).value;
      h.response.body.result == if Nullish(responseData) then EmptyReceipt
                                else PayloadResult(RunData(responseData), parse)
  {
    var empty := Response(200, Envelope(Succeeded, EmptyReceipt));
    if runId.None? || runId.value == "" then Handled(None, empty)
    else
      var apiKey, base := EnvValue(env.apiKey), ApiBase(env);
      if !Truthy(apiKey) || base.None? || base.value == "" then Handled(None, empty)
      else
        var request := StatusRequest(StatusEndpoint(env, base.value, runId.value), env.apiKey.value);
        Handled(Some(request),
          match reply
          case Unreachable => empty
          case Responded(_, None) => empty
          case Responded(_, Some(text)) =>
            match parse(Str(text))
            case None => empty
            case Some(responseData) =>
              if !reply.Ok() || Nullish(responseData) then empty
              else Response(200, Envelope(Succeeded, PayloadResult(RunData(responseData), parse))))
  }

  /** An OK JSON reply yields the success output found in its `data` wrapper or at top level. */
  lemma StatusResultFromReply(env: Env, runId: string, status: int, text: string, parse: Parser, responseData: Value)
    requires runId != "" && IsSet(env.apiKey) && ApiBase(env).Some? && ApiBase(env).value != ""
    requires 200 <= status <= 299 && parse(Str(text)) == Some(responseData) && !Nullish(responseData)
    ensures HandleStatus(env, Some(runId), Responded(status, Some(text)), parse).response.body.result
      == PayloadResult(RunData(responseData), parse)
  {
  }
}
