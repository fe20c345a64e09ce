/** The workflow proxy handler: POST starts a workflow run for an uploaded
    file, GET reads the state of a run. Both are fixed-order decision ladders
    over the configuration, the request and the upstream reply. */
module WorkflowRoute {
  import opened Js
  import opened Service

  // ------------------------------------------------------------ configuration

  const ApiKeyName: string := "NEXT_PUBLIC_DIFY_API_KEY"
  const WorkflowIdName: string := "NEXT_PUBLIC_DIFY_WORKFLOW_ID"
  const WorkflowEndpointName: string := "NEXT_PUBLIC_DIFY_WORKFLOW_ENDPOINT"

  /** The required variables, in the order they are declared. */
  const RequiredNames: seq<string> := [ApiKeyName, WorkflowIdName, WorkflowEndpointName]

  function RequiredValues(env: Env): seq<Option<string>> {
    [env.apiKey, env.workflowId, env.workflowEndpoint]
  }

  /** The names whose value is falsy, in their original order (a filter, then a map). */
  function FalsyNames(names: seq<string>, values: seq<Option<string>>): (r: seq<string>)
    requires |names| == |values|
    ensures |r| <= |names|
    ensures r == [] <==> forall i :: 0 <= i < |values| ==> IsSet(values[i])
    ensures forall n :: n in r ==> exists i :: 0 <= i < |names| && names[i] == n && !IsSet(values[i])
    ensures forall i :: 0 <= i < |names| && !IsSet(values[i]) ==> names[i] in r
  {
    if names == [] then []
    else
      var rest := FalsyNames(names[1..], values[1..]);
      assert forall i :: 1 <= i < |names| ==> names[1..][i - 1] == names[i] && values[1..][i - 1] == values[i];
      (if IsSet(values[0]) then [] else [names[0]]) + rest
  }

  /** The names of the required variables that are unset or empty. */
  function MissingEnvVars(env: Env): (r: seq<string>)
    ensures r == [] <==> IsSet(env.apiKey) && IsSet(env.workflowId) && IsSet(env.workflowEndpoint)
    ensures forall n :: n in r ==> n in RequiredNames
  {
    var values := RequiredValues(env);
    assert (forall i :: 0 <= i < |values| ==> IsSet(values[i])) <==> IsSet(values[0]) && IsSet(values[1]) && IsSet(values[2]);
    FalsyNames(RequiredNames, values)
  }

  /** The missing list, written out: each unset variable, in declared order. */
  lemma {:induction false} MissingEnvVarsExact(env: Env)
    ensures MissingEnvVars(env) ==
      (if IsSet(env.apiKey) then [] else [ApiKeyName])
      + (if IsSet(env.workflowId) then [] else [WorkflowIdName])
      + (if IsSet(env.workflowEndpoint) then [] else [WorkflowEndpointName])
  {
    var names, values := RequiredNames, RequiredValues(env);
    assert names[1..][1..][1..] == [] && values[1..][1..][1..] == [];
    assert FalsyNames(names[1..][1..], values[1..][1..])
      == (if IsSet(env.workflowEndpoint) then [] else [WorkflowEndpointName]);
    assert FalsyNames(names[1..], values[1..])
      == (if IsSet(env.workflowId) then [] else [WorkflowIdName])
         + (if IsSet(env.workflowEndpoint) then [] else [WorkflowEndpointName]);
  }

  // ------------------------------------------------------------ POST

  datatype Code =
    | DifyConfigurationError(missing: seq<string>)
    | InvalidRequest
    | MissingFileId
    | MissingWorkflowId
    | MissingEndpoint
    | ConnectionError
    | InvalidResponse
    | DifyApiError
    | MissingRunId
    | InternalServerError

  /** The JSON body of a POST response: `status: 'failed'` with a code and
      optional details, or `status: 'succeeded'` with the run. */
  datatype PostBody =
    | Failed(code: Code, details: Option<Value>)
    | Succeeded(runId: Value, outputs: Value, result: Value)

  /** The request sent to the workflow service. */
  datatype Outbound = Outbound(endpoint: string, payload: Value)

  /** The body that asks the service to run the workflow on one uploaded image. */
  function WorkflowPayload(workflowId: Value, fileId: Value): (p: Value)
    ensures Field(p, "workflow_id") == workflowId
    ensures Field(Field(p, "inputs"), "image") == Arr([Obj(map[
              "upload_file_id" := fileId, "transfer_method" := Str("local_file"), "type" := Str("image")])])
    ensures Field(p, "response_mode") == Str("blocking")
    ensures Field(p, "user") == Str("abc-456")
    ensures p.Obj? && p.fields.Keys == {"workflow_id", "inputs", "response_mode", "user"}
  {
    Obj(map[
      "workflow_id" := workflowId,
      "inputs" := Obj(map["image" := Arr([Obj(map[
        "upload_file_id" := fileId,
        "transfer_method" := Str("local_file"),
        "type" := Str("image")])])]),
      "response_mode" := Str("blocking"),
      "user" := Str("abc-456")])
  }

  /** The run id: `workflow_run_id`, else `data?.id`, else `id`; None where
      reading a field of a null body throws. */
  function RunIdOf(data: Value): (r: Option<Value>)
    ensures r.None? <==> Nullish(data)
  {
    if Nullish(data) then None
    else Some(Or(Or(Field(data, "workflow_run_id"), OptField(Field(data, "data"), "id")), Field(data, "id")))
  }

  lemma RunIdPriority(data: Value)
    requires !Nullish(data)
    ensures var w, d, i := Field(data, "workflow_run_id"), OptField(Field(data, "data"), "id"), Field(data, "id");
      && (Truthy(w) ==> RunIdOf(data) == Some(w))
      && (!Truthy(w) && Truthy(d) ==> RunIdOf(data) == Some(d))
      && (!Truthy(w) && !Truthy(d) ==> RunIdOf(data) == Some(i))
  {
  }

  /** `outputs`: `data?.outputs`, or `{}` when that is falsy. */
  function OutputsOf(data: Value): (r: Value)
    ensures Truthy(r)
    ensures Truthy(OptField(Field(data, "data"), "outputs")) ==> r == OptField(Field(data, "data"), "outputs")
    ensures !Truthy(OptField(Field(data, "data"), "outputs")) ==> r == Obj(map[])
  {
    Or(OptField(Field(data, "data"), "outputs"), Obj(map[]))
  }

  /** `result`: the parse of the success output, its raw value when that fails,
      and null when it is falsy. */
  function ResultOf(outputs: Value, parse: Parser): (r: Value)
    ensures !Truthy(Field(outputs, SuccessKey)) ==> r == Null
    ensures Truthy(Field(outputs, SuccessKey)) ==>
      r == (if parse(Field(outputs, SuccessKey)).Some? then parse(Field(outputs, SuccessKey)).value
            else Field(outputs, SuccessKey))
  {
    var raw := Field(outputs, SuccessKey);
    if !Truthy(raw) then Null
    else match parse(raw)
      case Some(v) => v
      case None => raw
  }

  /** The handler's steps from the upstream call on. */
  function Relay(reply: Reply, parse: Parser): (r: Response<PostBody>)
    ensures reply.Unreachable? ==> r == Response(500, Failed(ConnectionError, None))
    ensures reply.Responded? && reply.body.None? ==> r == Response(500, Failed(InternalServerError, None))
    ensures reply.Responded? && reply.body.Some? && parse(Str(reply.body.value)).None? ==>
      r == Response(500, Failed(InvalidResponse, None))
    ensures reply.Responded? && !reply.Ok() && reply.body.Some? && parse(Str(reply.body.value)).Some? ==>
      r == Response(reply.status, Failed(DifyApiError, parse(Str(reply.body.value))))
    ensures r.body.Succeeded? <==> r.status == 200
    ensures r.body.Succeeded? ==> reply.Ok() && Truthy(r.body.runId) && Truthy(r.body.outputs)
    ensures reply.Ok() && reply.body.Some? && parse(Str(reply.body.value)).Some?
            && Nullish(parse(Str(reply.body.value)).value) ==>
      r == Response(500, Failed(InternalServerError, None))
    ensures reply.Ok() && reply.body.Some? && parse(Str(reply.body.value)).Some? ==>
      var data := parse(Str(reply.body.value)).value;
      !Nullish(data) && Truthy(RunIdOf(data).value) ==>
        r == Response(200, Succeeded(RunIdOf(data).value, OutputsOf(data), ResultOf(OutputsOf(data), parse)))
  {
    match reply
    case Unreachable => Response(500, Failed(ConnectionError, None))
    case Responded(status, None) => Response(500, Failed(InternalServerError, None))
    case Responded(status, Some(text)) =>
      match parse(Str(text))
      case None => Response(500, Failed(InvalidResponse, None))
      case Some(data) =>
        if !reply.Ok() then Response(status, Failed(DifyApiError, Some(data)))
        else match RunIdOf(data)
          case None => Response(500, Failed(InternalServerError, None))
          case Some(runId) =>
            if !Truthy(runId) then Response(500, Failed(MissingRunId, Some(data)))
            else
              var outputs := OutputsOf(data);
              Response(200, Succeeded(runId, outputs, ResultOf(outputs, parse)))
  }

  /** A reachable service whose JSON reply has no truthy run id gives 500 MISSING_RUN_ID with the reply. */
  lemma RelayMissingRunId(status: int, text: string, parse: Parser, data: Value)
    requires 200 <= status <= 299 && parse(Str(text)) == Some(data)
    requires !Nullish(data)
    requires !Truthy(Field(data, "workflow_run_id")) && !Truthy(OptField(Field(data, "data"), "id"))
    requires !Truthy(Field(data, "id"))
    ensures Relay(Responded(status, Some(text)), parse) == Response(500, Failed(MissingRunId, Some(data)))
  {
    assert RunIdOf(data) == Some(Field(data, "id"));
  }

  /** A non-OK reply is relayed as DIFY_API_ERROR under its status even when
      its JSON is null: that branch reads no field of the data. */
  lemma RelayNullErrorReply(status: int, text: string, parse: Parser, data: Value)
    requires !(200 <= status <= 299) && parse(Str(text)) == Some(data) && Nullish(data)
    ensures Relay(Responded(status, Some(text)), parse) == Response(status, Failed(DifyApiError, Some(data)))
  {
  }

  /** POST: `env` is the environment, `body` the parsed request body (None when
      it is not JSON), `reply` the outcome of the upstream call. */
  function HandlePost(env: Env, body: Option<Value>, reply: Reply, parse: Parser): (h: Handled<Outbound, PostBody>)
    ensures MissingEnvVars(env) != [] ==>
      h == Handled(None, Response(500, Failed(DifyConfigurationError(MissingEnvVars(env)), None)))
    ensures MissingEnvVars(env) == [] && body.None? ==> h == Handled(None, Response(400, Failed(InvalidRequest, None)))
    ensures MissingEnvVars(env) == [] && body.Some? && Nullish(body.value) ==>
      h == Handled(None, Response(500, Failed(InternalServerError, None)))
    ensures MissingEnvVars(env) == [] && body.Some? && !Nullish(body.value) && !Truthy(Field(body.value, "fileId")) ==>
      h == Handled(None, Response(400, Failed(MissingFileId, None)))
    ensures h.sent.Some? <==>
      MissingEnvVars(env) == [] && body.Some? && !Nullish(body.value) && Truthy(Field(body.value, "fileId"))
    ensures h.sent.Some? ==>
      && env.workflowEndpoint.Some? && env.workflowId.Some?
      && h.sent.value == Outbound(env.workflowEndpoint.value,
                                  WorkflowPayload(Str(env.workflowId.value), Field(body.value, "fileId")))
      && h.response == Relay(reply, parse)
  {
    var missing := MissingEnvVars(env);
    if missing != [] then Handled(None, Response(500, Failed(DifyConfigurationError(missing), None)))
    else match body
      case None => Handled(None, Response(400, Failed(InvalidRequest, None)))
      case Some(b) =>
        match Js.Get(b, "fileId")
        case None => Handled(None, Response(500, Failed(InternalServerError, None)))
        case Some(fileId) =>
          if !Truthy(fileId) then Handled(None, Response(400, Failed(MissingFileId, None)))
          else
            assert IsSet(RequiredValues(env)[1]) && IsSet(RequiredValues(env)[2]);
            var workflowId := Or(EnvValue(env.workflowId), Str(""));
            if !Truthy(workflowId) then Handled(None, Response(500, Failed(MissingWorkflowId, None)))
            else if !Truthy(EnvValue(env.workflowEndpoint)) then Handled(None, Response(500, Failed(MissingEndpoint, None)))
            else
              Handled(Some(Outbound(env.workflowEndpoint.value, WorkflowPayload(workflowId, fileId))), Relay(reply, parse))
  }

  /** The workflow-id and endpoint checks after the body is read can never fire:
      the configuration check already rejected those cases. */
  lemma PostNeverReportsLateConfigCodes(env: Env, body: Option<Value>, reply: Reply, parse: Parser)
    ensures HandlePost(env, body, reply, parse).response.body != Failed(MissingWorkflowId, None)
    ensures HandlePost(env, body, reply, parse).response.body != Failed(MissingEndpoint, None)
  {
    if MissingEnvVars(env) == [] {
      assert IsSet(RequiredValues(env)[1]) && IsSet(RequiredValues(env)[2]);
    }
  }

  // ------------------------------------------------------------ GET

  /** The JSON body of a GET response. */
  datatype GetBody =
    | NoRunId
    | CheckFailed
    | UpstreamError(message: Value, status: int, endpoint: string, runId: string)
    | RunInfo(id: Value, runStatus: Value, output: Value)

  const DefaultRunEndpoint: string := "https://api.dify.ai/v1/workflows/run/"

  /** The status template with its first `:workflow_id` replaced, or the default URL. */
  function StatusEndpoint(env: Env, runId: string): (endpoint: string)
    ensures !IsSet(env.statusEndpoint) ==> endpoint == DefaultRunEndpoint + runId
    ensures IsSet(env.statusEndpoint) && IndexOf(env.statusEndpoint.value, ":workflow_id").None? ==>
      endpoint == env.statusEndpoint.value
  {
    if IsSet(env.statusEndpoint) then ReplaceFirst(env.statusEndpoint.value, ":workflow_id", runId)
    else DefaultRunEndpoint + runId
  }

  /** The template's first placeholder is replaced by the run id; the rest is kept. */
  lemma StatusEndpointSubstitutes(env: Env, runId: string, i: nat)
    requires IsSet(env.statusEndpoint)
    requires OccursAt(env.statusEndpoint.value, ":workflow_id", i)
    requires forall j :: 0 <= j < i ==> !OccursAt(env.statusEndpoint.value, ":workflow_id", j)
    ensures StatusEndpoint(env, runId) ==
      env.statusEndpoint.value[..i] + runId + env.statusEndpoint.value[i + |":workflow_id"|..]
  {
    ReplaceFirstSpec(env.statusEndpoint.value, ":workflow_id", runId, i);
  }

  /** The message of a non-OK reply: the upstream `message`, else one naming the status. */
  function ErrorMessage(errorData: Value, status: int): (m: Value)
    ensures Truthy(Field(errorData, "message")) ==> m == Field(errorData, "message")
    ensures !Truthy(Field(errorData, "message")) ==> m == Str("Dify API returned status: " + IntToString(status))
  {
    Or(Field(errorData, "message"), Str("Dify API returned status: " + IntToString(status)))
  }

  const ParseFailureMessage: Value := Obj(map["message" := Str("Failed to parse error response")])

  /** The reply's body as JSON: None when it was not read or does not parse. */
  function ParsedBody(reply: Reply, parse: Parser): Option<Value> {
    if reply.Responded? && reply.body.Some? then parse(Str(reply.body.value)) else None
  }

  /** What a non-OK reply reports: its JSON, or the fixed parse-failure message. */
  function ErrorData(parsed: Option<Value>): Value {
    if parsed.Some? then parsed.value else ParseFailureMessage
  }

  /** GET: `runId` is the `runId` search parameter (None when absent), `reply`
      the outcome of the call to the returned endpoint. */
  function HandleGet(env: Env, runId: Option<string>, reply: Reply, parse: Parser): (h: Handled<string, GetBody>)
    ensures runId.None? || runId.value == "" <==> h == Handled(None, Response(400, NoRunId))
    ensures h.sent.Some? ==> h.sent.value == StatusEndpoint(env, runId.value)
    ensures reply.Unreachable? && h.sent.Some? ==> h.response == Response(500, CheckFailed)
    ensures h.response.body.UpstreamError? ==>
      reply.Responded? && !reply.Ok() && h.response.status == reply.status && h.response.body.status == reply.status
      && h.response.body.runId == runId.value && Some(h.response.body.endpoint) == h.sent
    ensures h.response.body.RunInfo? ==> reply.Ok() && h.response.status == 200
    ensures h.sent.Some? && reply.Responded? && !reply.Ok() ==>
      var errorData := ErrorData(ParsedBody(reply, parse));
      h.response == if Nullish(errorData) then Response(500, CheckFailed)
                    else Response(reply.status, UpstreamError(ErrorMessage(errorData, reply.status), reply.status,
                                                              StatusEndpoint(env, runId.value), runId.value))
    ensures h.sent.Some? && reply.Ok() ==>
      var parsed := ParsedBody(reply, parse);
      h.response == if parsed.None? || Nullish(parsed.value) then Response(500, CheckFailed)
                    else Response(200, RunInfo(Field(parsed.value, "id"), Field(parsed.value, "status"),
                                               Or(Field(parsed.value, "answer"), Field(parsed.value, "output"))))
  {
    if runId.None? || runId.value == "" then Handled(None, Response(400, NoRunId))
    else
      var endpoint := StatusEndpoint(env, runId.value);
      Handled(Some(endpoint),
        match reply
        case Unreachable => Response(500, CheckFailed)
        case Responded(status, text) =>
          var parsed := ParsedBody(reply, parse);
          if !reply.Ok() then
            var errorData := ErrorData(parsed);
            if Nullish(errorData) then Response(500, CheckFailed)
            else Response(status, UpstreamError(ErrorMessage(errorData, status), status, endpoint, runId.value))
          else if parsed.None? || Nullish(parsed.value) then Response(500, CheckFailed)
          else
            var data := parsed.value;
            Response(200, RunInfo(Field(data, "id"), Field(data, "status"), Or(Field(data, "answer"), Field(data, "output"))))
      )
  }

  /** A non-OK reply whose body is not JSON reports the fixed parse-failure message
      under the upstream status. */
  lemma GetUnparseableErrorReply(env: Env, runId: string, status: int, text: Option<string>, parse: Parser)
    requires runId != "" && !(200 <= status <= 299)
    requires text.None? || parse(Str(text.value)).None?
    ensures HandleGet(env, Some(runId), Responded(status, text), parse).response ==
      Response(status, UpstreamError(Str("Failed to parse error response"), status, StatusEndpoint(env, runId), runId))
  {
  }
}
