/**
 The `POST /generate` handler, `generate_documentation` (main.py lines
 74-130): validate the body, obtain the archive from a GitHub URL or from
 inline base64, read its first code file, summarise data flow on a
 best-effort basis, dispatch to one of four providers, and translate the
 exception that escapes the `try` into an HTTP status.

 The handler is one pure function of the request and the oracles; it returns
 the final outcome and the trace of oracle calls.
 */
module Endpoint {

  import opened PyStr
  import opened Values
  import opened Providers
  import opened Effects
  import GithubFetch
  import ProcessZip

  /** The JSON body. `llm_provider`, `llm_model` and `prompt` are required
      strings of the body schema; the other three may be absent (None). */
  datatype Request = Request(
    githubUrl: Option<string>,
    zipFile: Option<string>,
    llmProvider: string,
    llmModel: string,
    apiKey: Option<string>,
    prompt: string)

  datatype Response = Response(documentation: string, flowchart: string, llmProvider: string, llmModel: string)

  /** What reaches the client: the response body with status 200, or an
      HTTPException's status and detail. */
  datatype Outcome = Success(response: Response) | HttpError(status: nat, detail: string)

  datatype Reply = Reply(outcome: Outcome, trace: seq<Call>)

  const MissingFieldsPrefix := "Missing required fields: "
  const NoSource := "Must provide either github_url or zip_file"
  const KeyRequiredPrefix := "API key is required for "
  const InvalidBase64 := "Invalid base64-encoded ZIP file"
  const DataFlowFailedPrefix := "Failed to generate data flow diagram: "
  const UnsupportedPrefix := "Unsupported LLM provider: "
  const InternalErrorPrefix := "Internal server error: "

  /** The keys of `required_fields`, in dict order. */
  const FieldNames: seq<string> := ["llm_provider", "llm_model", "prompt"]

  function FieldIndex(name: string): nat {
    if name == "llm_provider" then 0 else if name == "llm_model" then 1 else 2
  }

  /** `[k for k, v in required_fields.items() if not v]`. */
  function MissingFields(provider: string, model: string, prompt: string): (missing: seq<string>)
    ensures "llm_provider" in missing <==> provider == ""
    ensures "llm_model" in missing <==> model == ""
    ensures "prompt" in missing <==> prompt == ""
    ensures forall i :: 0 <= i < |missing| ==> missing[i] in FieldNames
    ensures forall i, j :: 0 <= i < j < |missing| ==> FieldIndex(missing[i]) < FieldIndex(missing[j])
  {
    (if provider == "" then ["llm_provider"] else [])
    + (if model == "" then ["llm_model"] else [])
    + (if prompt == "" then ["prompt"] else [])
  }

  /** A body that passes the three checks at the top of the `try`. */
  predicate Admissible(req: Request) {
    && req.llmProvider != ""
    && req.llmModel != ""
    && req.prompt != ""
    && (Truthy(req.githubUrl) || Truthy(req.zipFile))
    && (Lower(req.llmProvider) in KeyedProviders ==> Truthy(req.apiKey))
  }

  /** The three checks (lines 80-89), in order; the first that fails raises
      an HTTPException with status 400. */
  function Validate(req: Request): (e: Option<PyError>)
    ensures e.None? <==> Admissible(req)
    ensures e.Some? ==> e.value.HttpException? && e.value.status == 400
  {
    var provider := Lower(req.llmProvider);
    var missing := MissingFields(provider, req.llmModel, req.prompt);
    if missing != [] then
      Some(HttpException(400, MissingFieldsPrefix + JoinWith(", ", missing)))
    else if !(Truthy(req.githubUrl) || Truthy(req.zipFile)) then
      Some(HttpException(400, NoSource))
    else if provider in KeyedProviders && !Truthy(req.apiKey) then
      Some(HttpException(400, KeyRequiredPrefix + provider))
    else
      None
  }

  /** Obtaining the archive bytes (lines 92-98): a truthy URL wins over the
      inline archive. */
  function Acquire(req: Request, env: Env): (r: Run<Bytes>)
    requires Truthy(req.githubUrl) || Truthy(req.zipFile)
    // a truthy URL is handed to `fetch_github_zip`, whose outcome is the step's
    ensures Truthy(req.githubUrl) ==> r == GithubFetch.FetchGithubZip(req.githubUrl.value, env.get)
    ensures Truthy(req.githubUrl) ==> Count(r.trace, DecodeKind) == 0 && |r.trace| <= 2
    ensures Truthy(req.githubUrl) ==> forall i :: 0 <= i < |r.trace| ==> r.trace[i].HttpGet?
    ensures !Truthy(req.githubUrl) ==> r.trace == [Base64Decode(req.zipFile.value)]
    ensures !Truthy(req.githubUrl) ==>
              (r.result.Err? <==> env.b64decode(req.zipFile.value).None?) &&
              (r.result.Err? ==> r.result.error == HttpException(400, InvalidBase64))
    // otherwise the archive is exactly the decoded bytes
    ensures !Truthy(req.githubUrl) && env.b64decode(req.zipFile.value).Some? ==>
              r.result == Ok(env.b64decode(req.zipFile.value).value)
  {
    if Truthy(req.githubUrl) then
      GithubFetch.FetchGithubZip(req.githubUrl.value, env.get)
    else
      var text := req.zipFile.value;
      match env.b64decode(text)
      case Some(data) => Run(Ok(data), [Base64Decode(text)])
      case None => Run(Err(HttpException(400, InvalidBase64)), [Base64Decode(text)])
  }

  /** Lines 102-105: a failing data-flow generator yields a message, never an
      exception. */
  function Flowchart(code: string, env: Env): (flow: string)
    ensures env.dataFlow(code).Ok? ==> flow == env.dataFlow(code).value
    ensures env.dataFlow(code).Err? ==> flow == DataFlowFailedPrefix + Str(env.dataFlow(code).error)
  {
    match env.dataFlow(code)
    case Ok(f) => f
    case Err(e) => DataFlowFailedPrefix + Str(e)
  }

  /** Lines 107-116: the provider chain over the lower-cased name. */
  function Dispatch(provider: string, code: string, req: Request, env: Env): (r: Run<string>)
    ensures Parse(provider).None? ==> r == Run(Err(HttpException(400, UnsupportedPrefix + provider)), [])
    ensures Parse(provider).Some? ==>
              r.trace == [Document(Parse(provider).value, code, req.prompt, req.apiKey, req.llmModel)]
    // the generator's reply, documentation or exception, is the step's result
    ensures Parse(provider).Some? ==>
              r.result == env.document(Parse(provider).value, code, req.prompt, req.apiKey, req.llmModel)
  {
    match Parse(provider)
    case None => Run(Err(HttpException(400, UnsupportedPrefix + provider)), [])
    case Some(p) => Run(env.document(p, code, req.prompt, req.apiKey, req.llmModel),
                        [Document(p, code, req.prompt, req.apiKey, req.llmModel)])
  }

  /** The body of the `try` (lines 76-123): the response, or the exception
      that escapes it. */
  function Attempt(req: Request, env: Env): Run<Response>
  {
    var provider := Lower(req.llmProvider);
    match Validate(req)
    case Some(e) => Run(Err(e), [])
    case None =>
      var acquired := Acquire(req, env);
      match acquired.result
      case Err(e) => Run(Err(e), acquired.trace)
      case Ok(data) =>
        var processed := ProcessZip.ProcessZip(data, env);
        var read := acquired.trace + processed.trace;
        match processed.result
        case Err(e) => Run(Err(e), read)
        case Ok(code) =>
          var flow := Flowchart(code, env);
          var summarised := read + [DataFlow(code)];
          var documented := Dispatch(provider, code, req, env);
          var trace := summarised + documented.trace;
          match documented.result
          case Err(e) => Run(Err(e), trace)
          case Ok(doc) => Run(Ok(Response(doc, flow, provider, req.llmModel)), trace)
  }

  /** The `except` arms (lines 125-130), in order. An HTTPException is neither
      a ValueError nor a RuntimeError, so it falls to `except Exception`. */
  function MapException(e: PyError): (o: Outcome)
    ensures o.HttpError?
    ensures o.status == 400 <==> e.ValueError?
    ensures o.status == 400 || o.status == 500
    ensures e.ValueError? || e.RuntimeError? ==> o.detail == Str(e)
    ensures !(e.ValueError? || e.RuntimeError?) ==> o.detail == InternalErrorPrefix + Str(e)
  {
    match e
    case ValueError(m) => HttpError(400, m)
    case RuntimeError(m) => HttpError(500, m)
    case _ => HttpError(500, InternalErrorPrefix + Str(e))
  }

  /** `generate_documentation` as written. */
  function Generate(req: Request, env: Env): (r: Reply)
    ensures r.outcome.HttpError? ==> r.outcome.status == 400 || r.outcome.status == 500
    // a body failing validation makes no external call, and its intended 400
    // is turned into a 500
    ensures !Admissible(req) ==> r.trace == [] && r.outcome.HttpError? && r.outcome.status == 500
    // a success echoes the lower-cased provider and the model unchanged, and
    // carries what the chosen provider's generator returned, which was the
    // last call made
    ensures r.outcome.Success? ==>
              && Admissible(req)
              && Parse(Lower(req.llmProvider)).Some?
              && r.outcome.response.llmProvider == Lower(req.llmProvider)
              && r.outcome.response.llmModel == req.llmModel
              && |r.trace| > 0
              && var last := r.trace[|r.trace| - 1];
                 && last.Document?
                 && last.provider == Parse(Lower(req.llmProvider)).value
                 && env.document(last.provider, last.code, last.prompt, last.apiKey, last.model)
                    == Ok(r.outcome.response.documentation)
    // and the flowchart is the data-flow step's text for the file that was read
    ensures r.outcome.Success? ==>
              && Acquire(req, env).result.Ok?
              && ProcessZip.ProcessZip(Acquire(req, env).result.value, env).result.Ok?
              && r.outcome.response.flowchart
                 == Flowchart(ProcessZip.ProcessZip(Acquire(req, env).result.value, env).result.value, env)
  {
    var attempt := Attempt(req, env);
    match attempt.result
    case Ok(response) => Reply(Success(response), attempt.trace)
    case Err(e) => Reply(MapException(e), attempt.trace)
  }

  /** The evidently intended handler: an HTTPException raised inside the
      `try` is re-raised unchanged (an `except HTTPException: raise` arm
      before the others), and every other exception is mapped as before. */
  function MapExceptionIntended(e: PyError): (o: Outcome)
    ensures o.HttpError?
    ensures e.HttpException? ==> o == HttpError(e.status, e.detail)
    ensures !e.HttpException? ==> o == MapException(e)
  {
    match e
    case HttpException(s, d) => HttpError(s, d)
    case _ => MapException(e)
  }

  function GenerateIntended(req: Request, env: Env): (r: Reply)
    ensures r.trace == Generate(req, env).trace
    ensures r.outcome.Success? <==> Generate(req, env).outcome.Success?
    ensures !Admissible(req) ==>
              r.outcome.HttpError? && r.outcome.status == 400 &&
              Validate(req) == Some(HttpException(400, r.outcome.detail))
    // every HTTPException raised in the `try` (lines 83-116) keeps its status
    // and detail, and a success is the code's own response
    ensures Attempt(req, env).result.Err? && Attempt(req, env).result.error.HttpException? ==>
              r.outcome == HttpError(Attempt(req, env).result.error.status, Attempt(req, env).result.error.detail)
    ensures Generate(req, env).outcome.Success? ==> r == Generate(req, env)
  {
    var attempt := Attempt(req, env);
    match attempt.result
    case Ok(response) => Reply(Success(response), attempt.trace)
    case Err(e) => Reply(MapExceptionIntended(e), attempt.trace)
  }
}
