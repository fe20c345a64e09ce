/** What the runtime and the analysis service hand the modelled code: the outcome
    of a `fetch`, the environment variables, `JSON.parse`, and the shape of an
    HTTP response a handler returns. */
module Service {
  import opened Js

  /** The outcome of one `fetch`: the call rejected (no connection), or a
      response whose body text is None when reading it failed. */
  datatype Reply =
    | Unreachable
    | Responded(status: int, body: Option<string>)
  {
    /** `response.ok` */
    predicate Ok() {
      Responded? && 200 <= status <= 299
    }
  }

  /** `JSON.parse` applied to a value (after JavaScript's conversion of the
      argument to a string): Some(parsed), or None where it throws. */
  type Parser = Value -> Option<Value>

  /** The environment variables the handlers read; None when unset. */
  datatype Env = Env(
    apiKey: Option<string>,            // NEXT_PUBLIC_DIFY_API_KEY
    workflowId: Option<string>,        // NEXT_PUBLIC_DIFY_WORKFLOW_ID
    workflowEndpoint: Option<string>,  // NEXT_PUBLIC_DIFY_WORKFLOW_ENDPOINT
    statusEndpoint: Option<string>,    // NEXT_PUBLIC_DIFY_WORKFLOW_STATUS_ENDPOINT
    uploadEndpoint: Option<string>     // NEXT_PUBLIC_DIFY_FILE_UPLOAD_ENDPOINT
  )

  /** An environment value is truthy when it is set and not empty. */
  predicate IsSet(v: Option<string>) {
    v.Some? && v.value != ""
  }

  /** `process.env.X` as a JavaScript value. */
  function EnvValue(v: Option<string>): Value {
    match v
    case None => Undefined
    case Some(s) => Str(s)
  }

  /** An HTTP response: its status code and its JSON body. */
  datatype Response<B> = Response(status: int, body: B)

  /** One run of a handler: the upstream request it sends (None when it answers
      without calling upstream) and the response it returns. */
  datatype Handled<R, B> = Handled(sent: Option<R>, response: Response<B>)

  /** The output key under which the analysis workflow places its JSON result. */
  const SuccessKey: string := "成功"

  /** The placeholder receipt `{date: '', category: '', amount: ''}`. */
  const EmptyReceipt: Value :=
    Obj(map["date" := Str(""), "category" := Str(""), "amount" := Str("")])
}
