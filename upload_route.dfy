/** The upload proxy handler: forwards the `file` field of a multipart form to
    the analysis service and relays its JSON answer, through a fixed-order
    error ladder. */
module UploadRoute {
  import opened Js
  import opened Service

  /** A form field: an uploaded file or a plain text value. */
  datatype FormEntry = FileEntry(name: string, mimeType: string, size: nat) | TextEntry(text: string)

  /** `request.formData()`: Unreadable where it rejects, otherwise the `file` field (None when absent). */
  datatype FormParse = Unreadable | Form(file: Option<FormEntry>)

  /** `formData.get('file')` is falsy when absent or the empty text. */
  predicate Present(e: Option<FormEntry>) {
    e.Some? && e.value != TextEntry("")
  }

  datatype Code =
    | InvalidFormData
    | NoFile
    | ConnectionError
    | ResponseReadError
    | InvalidResponse
    | UploadError(message: Value)
    | InternalError

  /** The JSON body of a response: `status: 'failed'` with a code and optional
      details, or the upstream fields after `status: 'succeeded'`. */
  datatype UploadBody =
    | Failed(code: Code, details: Option<Value>)
    | Succeeded(fields: map<string, Value>)

  /** The bearer credential: the configured key, or the built-in one. */
  datatype Credential = EnvKey(key: string) | BuiltInKey

  /** The multipart request sent upstream. */
  datatype OutboundForm = OutboundForm(endpoint: string, credential: Credential, file: FormEntry, user: string)

  const DefaultUploadEndpoint: string := "https://api.dify.ai/v1/files/upload"

  const UploadUser: string := "default-user"

  function UploadEndpoint(env: Env): (endpoint: string)
    ensures IsSet(env.uploadEndpoint) ==> endpoint == env.uploadEndpoint.value
    ensures !IsSet(env.uploadEndpoint) ==> endpoint == DefaultUploadEndpoint
  {
    if IsSet(env.uploadEndpoint) then env.uploadEndpoint.value else DefaultUploadEndpoint
  }

  function UploadCredential(env: Env): (c: Credential)
    ensures IsSet(env.apiKey) ==> c == EnvKey(env.apiKey.value)
    ensures !IsSet(env.apiKey) <==> c == BuiltInKey
  {
    if IsSet(env.apiKey) then EnvKey(env.apiKey.value) else BuiltInKey
  }

  /** The message of an upstream failure: its `message` when truthy, else the fixed text. */
  function FailureMessage(data: Value): (m: Value)
    ensures Truthy(Field(data, "message")) ==> m == Field(data, "message")
    ensures !Truthy(Field(data, "message")) ==> m == Str("File upload failed")
  {
    Or(Field(data, "message"), Str("File upload failed"))
  }

  /** `{status: 'succeeded', ...data}`: later fields win. Only an object
      contributes fields to the spread (see README). */
  function SuccessFields(data: Value): (fields: map<string, Value>)
    ensures data.Obj? ==> fields.Keys == data.fields.Keys + {"status"}
    ensures data.Obj? ==> forall k :: k in data.fields ==> fields[k] == data.fields[k]
    ensures !data.Obj? || "status" !in data.fields ==> "status" in fields && fields["status"] == Str("succeeded")
    ensures !data.Obj? ==> fields.Keys == {"status"}
  {
    map["status" := Str("succeeded")] + (if data.Obj? then data.fields else map[])
  }

  /** The steps from the upstream call on. */
  function Relay(reply: Reply, parse: Parser): (r: Response<UploadBody>)
    ensures reply.Unreachable? ==> r == Response(500, Failed(ConnectionError, None))
    ensures reply.Responded? && reply.body.None? ==> r == Response(500, Failed(ResponseReadError, None))
    ensures reply.Responded? && reply.body.Some? && parse(Str(reply.body.value)).None? ==>
      r == Response(500, Failed(InvalidResponse, Some(Obj(map["responseText" := Str(reply.body.value)]))))
    ensures reply.Responded? && reply.body.Some? && parse(Str(reply.body.value)).Some? && !reply.Ok()
            && !Nullish(parse(Str(reply.body.value)).value) ==>
      var data := parse(Str(reply.body.value)).value;
      r == Response(reply.status, Failed(UploadError(FailureMessage(data)), Some(data)))
    ensures reply.Responded? && reply.body.Some? && parse(Str(reply.body.value)).Some? && !reply.Ok()
            && Nullish(parse(Str(reply.body.value)).value) ==>
      r == Response(500, Failed(InternalError, None))
    ensures r.body.Succeeded? <==> reply.Ok() && reply.body.Some? && parse(Str(reply.body.value)).Some?
    ensures r.body.Succeeded? ==> r.status == 200 && r.body.fields == SuccessFields(parse(Str(reply.body.value)).value)
  {
    match reply
    case Unreachable => Response(500, Failed(ConnectionError, None))
    case Responded(status, None) => Response(500, Failed(ResponseReadError, None))
    case Responded(status, Some(text)) =>
      match parse(Str(text))
      case None => Response(500, Failed(InvalidResponse, Some(Obj(map["responseText" := Str(text)]))))
      case Some(data) =>
        if !reply.Ok() then
          if Nullish(data) then Response(500, Failed(InternalError, None))
          else Response(status, Failed(UploadError(FailureMessage(data)), Some(data)))
        else Response(200, Succeeded(SuccessFields(data)))
  }

  /** POST: `form` is the outcome of reading the multipart body, `reply` that of the upstream call. */
  function HandleUpload(env: Env, form: FormParse, reply: Reply, parse: Parser): (h: Handled<OutboundForm, UploadBody>)
    ensures form.Unreadable? ==> h == Handled(None, Response(400, Failed(InvalidFormData, None)))
    ensures form.Form? && !Present(form.file) ==> h == Handled(None, Response(400, Failed(NoFile, None)))
    ensures h.sent.Some? <==> form.Form? && Present(form.file)
    ensures h.sent.Some? ==>
      && h.sent.value == OutboundForm(UploadEndpoint(env), UploadCredential(env), form.file.value, UploadUser)
      && h.response == Relay(reply, parse)
  {
    match form
    case Unreadable => Handled(None, Response(400, Failed(InvalidFormData, None)))
    case Form(file) =>
      if !Present(file) then Handled(None, Response(400, Failed(NoFile, None)))
      else Handled(Some(OutboundForm(UploadEndpoint(env), UploadCredential(env), file.value, UploadUser)),
                   Relay(reply, parse))
  }

  /** The success body carries every upstream field unchanged, and `status` is
      `succeeded` unless the upstream object supplies its own. */
  lemma SuccessKeepsUpstreamFields(reply: Reply, parse: Parser, fields: map<string, Value>)
    requires reply.Ok() && reply.body.Some? && parse(Str(reply.body.value)) == Some(Obj(fields))
    ensures var r := Relay(reply, parse);
      && r.body.Succeeded?
      && (forall k :: k in fields ==> k in r.body.fields && r.body.fields[k] == fields[k])
      && ("status" in fields ==> r.body.fields["status"] == fields["status"])
      && ("status" !in fields ==> r.body.fields["status"] == Str("succeeded"))
      && r.body.fields.Keys == fields.Keys + {"status"}
  {
  }

  /** A non-JSON body is reported as INVALID_RESPONSE whatever the upstream status. */
  lemma InvalidJsonBeforeStatus(status1: int, status2: int, text: string, parse: Parser)
    requires parse(Str(text)).None?
    ensures Relay(Responded(status1, Some(text)), parse) == Relay(Responded(status2, Some(text)), parse)
    ensures Relay(Responded(status1, Some(text)), parse).body.Failed?
    ensures Relay(Responded(status1, Some(text)), parse).body.code == InvalidResponse
  {
  }
}
