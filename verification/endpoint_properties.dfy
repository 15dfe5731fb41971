/**
 What `POST /generate` promises, stated over the whole handler: the order of
 the validation checks, the status each failure reaches the client with, the
 network calls made for a GitHub URL, the archive's first file reaching the
 provider, and the soft failure of data-flow generation.
 */
module EndpointProperties {

  import opened PyStr
  import opened Values
  import opened Providers
  import opened Effects
  import opened Endpoint
  import GithubFetch
  import ProcessZip

  /** The client-visible detail of an HTTPException(400, d) raised inside the
      `try`: it is caught by `except Exception` and wrapped. */
  function Wrapped400(detail: string): string {
    InternalErrorPrefix + "400: " + detail
  }

  lemma Wrapped400IsStr(detail: string)
    ensures InternalErrorPrefix + Str(HttpException(400, detail)) == Wrapped400(detail)
  {
    Decimal400();
  }

  /** The handler's trace, stage by stage: what obtaining the archive
      called, then processing it, then data flow, then the provider. */
  lemma AttemptTrace(req: Request, env: Env)
    requires Admissible(req)
    ensures var acq := Acquire(req, env);
      var r := Attempt(req, env);
      && (acq.result.Err? ==> r == Run(Err(acq.result.error), acq.trace))
      && (acq.result.Ok? ==>
           var proc := ProcessZip.ProcessZip(acq.result.value, env);
           && (proc.result.Err? ==> r == Run(Err(proc.result.error), acq.trace + proc.trace))
           && (proc.result.Ok? ==>
                r.trace == acq.trace + proc.trace + [DataFlow(proc.result.value)]
                           + Dispatch(Lower(req.llmProvider), proc.result.value, req, env).trace))
  {
  }

  lemma CountByStage(req: Request, env: Env, k: Kind)
    requires Admissible(req)
    ensures var acq := Acquire(req, env);
      var r := Attempt(req, env);
      && (acq.result.Err? ==> Count(r.trace, k) == Count(acq.trace, k))
      && (acq.result.Ok? ==>
           var proc := ProcessZip.ProcessZip(acq.result.value, env);
           && (proc.result.Err? ==> Count(r.trace, k) == Count(acq.trace, k) + Count(proc.trace, k))
           && (proc.result.Ok? ==>
                var code := proc.result.value;
                Count(r.trace, k) == Count(acq.trace, k) + Count(proc.trace, k)
                  + Count([DataFlow(code)], k)
                  + Count(Dispatch(Lower(req.llmProvider), code, req, env).trace, k)))
  {
    AttemptTrace(req, env);
    var acq := Acquire(req, env);
    if acq.result.Ok? {
      var proc := ProcessZip.ProcessZip(acq.result.value, env);
      CountAppend(acq.trace, proc.trace, k);
      if proc.result.Ok? {
        var code := proc.result.value;
        var d := Dispatch(Lower(req.llmProvider), code, req, env).trace;
        CountAppend(acq.trace + proc.trace, [DataFlow(code)], k);
        CountAppend(acq.trace + proc.trace + [DataFlow(code)], d, k);
      }
    }
  }

  lemma GenerateTraceIsAttempt(req: Request, env: Env)
    ensures Generate(req, env).trace == Attempt(req, env).trace
  {
  }

  lemma AcquireCounts(req: Request, env: Env, k: Kind)
    requires Truthy(req.githubUrl) || Truthy(req.zipFile)
    ensures k != NetworkKind && k != DecodeKind ==> Count(Acquire(req, env).trace, k) == 0
    ensures Count(Acquire(req, env).trace, NetworkKind) <= 2
  {
  }

  lemma ProcessZipCounts(data: Bytes, env: Env, k: Kind)
    ensures k !in {ExtractKind, ListKind, ReadKind} ==> Count(ProcessZip.ProcessZip(data, env).trace, k) == 0
  {
  }

  lemma DataFlowCount(code: string, k: Kind)
    ensures Count([DataFlow(code)], k) == if k == DataFlowKind then 1 else 0
  {
  }

  lemma DispatchCount(provider: string, code: string, req: Request, env: Env, k: Kind)
    ensures Count(Dispatch(provider, code, req, env).trace, k)
         == if k == DocumentKind && Parse(provider).Some? then 1 else 0
  {
  }

  /** Missing required fields are reported first, all of them, in dict
      order, before any external call. */
  lemma MissingFieldsReported(req: Request, env: Env)
    requires MissingFields(Lower(req.llmProvider), req.llmModel, req.prompt) != []
    ensures Generate(req, env) == Reply(
              HttpError(500, Wrapped400(MissingFieldsPrefix
                + JoinWith(", ", MissingFields(Lower(req.llmProvider), req.llmModel, req.prompt)))),
              [])
  {
    Wrapped400IsStr(MissingFieldsPrefix
      + JoinWith(", ", MissingFields(Lower(req.llmProvider), req.llmModel, req.prompt)));
  }

  /** With all fields present, a body with neither a URL nor an archive is
      rejected next, whatever its provider or key. */
  lemma NoSourceRejected(req: Request, env: Env)
    requires req.llmProvider != "" && req.llmModel != "" && req.prompt != ""
    requires !Truthy(req.githubUrl) && !Truthy(req.zipFile)
    ensures Generate(req, env) == Reply(HttpError(500, Wrapped400(NoSource)), [])
  {
    Wrapped400IsStr(NoSource);
  }

  /** Only then is the key checked, and only for the four known providers. */
  lemma MissingKeyRejected(req: Request, env: Env)
    requires req.llmProvider != "" && req.llmModel != "" && req.prompt != ""
    requires Truthy(req.githubUrl) || Truthy(req.zipFile)
    requires Lower(req.llmProvider) in KeyedProviders && !Truthy(req.apiKey)
    ensures Generate(req, env) ==
              Reply(HttpError(500, Wrapped400(KeyRequiredPrefix + Lower(req.llmProvider))), [])
  {
    Wrapped400IsStr(KeyRequiredPrefix + Lower(req.llmProvider));
  }

  /** An unrecognised provider passes validation with or without a key. */
  lemma UnknownProviderNeedsNoKey(req: Request)
    requires req.llmProvider != "" && req.llmModel != "" && req.prompt != ""
    requires Truthy(req.githubUrl) || Truthy(req.zipFile)
    requires Parse(Lower(req.llmProvider)).None?
    ensures Validate(req).None?
  {
    KeyedIffDispatched(Lower(req.llmProvider));
  }

  /** A URL outside the GitHub origin is a ValueError, hence a 400, raised
      before any network call. */
  lemma ForeignUrlRejected(req: Request, env: Env)
    requires Admissible(req) && Truthy(req.githubUrl)
    requires !StartsWith(req.githubUrl.value, GithubFetch.GithubPrefix)
    ensures Generate(req, env) == Reply(HttpError(400, GithubFetch.InvalidUrl), [])
  {
  }

  /** A direct `.zip` URL is fetched exactly once, unmodified; when that
      fails the RuntimeError reaches the client as a 500. */
  lemma DirectZipUrl(req: Request, env: Env)
    requires Admissible(req) && Truthy(req.githubUrl)
    requires StartsWith(req.githubUrl.value, GithubFetch.GithubPrefix)
    requires EndsWith(req.githubUrl.value, ".zip")
    ensures var r := Generate(req, env);
      && |r.trace| > 0 && r.trace[0] == HttpGet(req.githubUrl.value)
      && Count(r.trace, NetworkKind) == 1
      && (env.get(req.githubUrl.value).RequestFailed? ==>
            r == Reply(HttpError(500, GithubFetch.ZipFetchFailed + env.get(req.githubUrl.value).reason),
                       [HttpGet(req.githubUrl.value)]))
  {
    var url := req.githubUrl.value;
    GithubFetch.DirectZipFetchedOnce(url, env.get);
    var acquired := Acquire(req, env);
    assert acquired.trace == [HttpGet(url)];
    NetworkCallsOnlyFromFetch(req, env);
    FetchOpensTrace(req, env);
  }

  /** Any other GitHub URL tries the `main` archive, then `master` only if
      `main` failed; when both fail the client gets a 500 whose detail names
      both branches. */
  lemma BranchFallback(req: Request, env: Env)
    requires Admissible(req) && Truthy(req.githubUrl)
    requires StartsWith(req.githubUrl.value, GithubFetch.GithubPrefix)
    requires !EndsWith(req.githubUrl.value, ".zip")
    ensures var r := Generate(req, env);
      var main := GithubFetch.BranchUrl(req.githubUrl.value, "main");
      var master := GithubFetch.BranchUrl(req.githubUrl.value, "master");
      && |r.trace| > 0 && r.trace[0] == HttpGet(main)
      && (env.get(main).Fetched? ==> Count(r.trace, NetworkKind) == 1)
      && (env.get(main).RequestFailed? ==>
            |r.trace| > 1 && r.trace[1] == HttpGet(master) && Count(r.trace, NetworkKind) == 2)
      && (env.get(main).RequestFailed? && env.get(master).RequestFailed? ==>
            r == Reply(HttpError(500, GithubFetch.BranchesFetchFailed + env.get(master).reason),
                       [HttpGet(main), HttpGet(master)]))
  {
    GithubFetch.MainThenMaster(req.githubUrl.value, env.get);
    NetworkCallsOnlyFromFetch(req, env);
    FetchOpensTrace(req, env);
  }

  /** The calls made while obtaining the archive open the trace. */
  lemma FetchOpensTrace(req: Request, env: Env)
    requires Admissible(req)
    ensures Acquire(req, env).trace <= Generate(req, env).trace
  {
    GenerateTraceIsAttempt(req, env);
    AttemptTrace(req, env);
    var acq := Acquire(req, env);
    if acq.result.Ok? {
      var proc := ProcessZip.ProcessZip(acq.result.value, env);
      if proc.result.Ok? {
        var code := proc.result.value;
        var d := Dispatch(Lower(req.llmProvider), code, req, env).trace;
        PrefixOfChain(acq.trace, proc.trace, [DataFlow(code)], d);
      } else {
        PrefixOfChain(acq.trace, proc.trace, [], []);
      }
    }
  }

  lemma PrefixOfChain(a: seq<Call>, b: seq<Call>, c: seq<Call>, d: seq<Call>)
    ensures a <= a + b + c + d && a <= a + b
  {
    assert (a + b + c + d)[..|a|] == a;
    assert (a + b)[..|a|] == a;
  }

  /** Network calls happen only while obtaining the archive: at most two. */
  lemma NetworkCallsOnlyFromFetch(req: Request, env: Env)
    ensures Admissible(req) ==>
              Count(Generate(req, env).trace, NetworkKind) == Count(Acquire(req, env).trace, NetworkKind)
    ensures Count(Generate(req, env).trace, NetworkKind) <= 2
  {
    GenerateTraceIsAttempt(req, env);
    if Admissible(req) {
      CountByStage(req, env, NetworkKind);
      AcquireCounts(req, env, NetworkKind);
      var acq := Acquire(req, env);
      if acq.result.Ok? {
        ProcessZipCounts(acq.result.value, env, NetworkKind);
        var proc := ProcessZip.ProcessZip(acq.result.value, env);
        if proc.result.Ok? {
          DataFlowCount(proc.result.value, NetworkKind);
          DispatchCount(Lower(req.llmProvider), proc.result.value, req, env, NetworkKind);
        }
      }
    }
  }

  /** The provider's generator is called at most once, as the last call. */
  lemma AtMostOneDocumentCall(req: Request, env: Env)
    ensures Count(Generate(req, env).trace, DocumentKind) <= 1
    ensures Count(Generate(req, env).trace, DocumentKind) == 1 ==>
              var t := Generate(req, env).trace; t[|t| - 1].Document?
  {
    GenerateTraceIsAttempt(req, env);
    if Admissible(req) {
      CountByStage(req, env, DocumentKind);
      AttemptTrace(req, env);
      AcquireCounts(req, env, DocumentKind);
      var acq := Acquire(req, env);
      if acq.result.Ok? {
        ProcessZipCounts(acq.result.value, env, DocumentKind);
        var proc := ProcessZip.ProcessZip(acq.result.value, env);
        if proc.result.Ok? {
          DataFlowCount(proc.result.value, DocumentKind);
          DispatchCount(Lower(req.llmProvider), proc.result.value, req, env, DocumentKind);
        }
      }
    }
  }

  /** A truthy URL takes precedence: the inline archive is never decoded. */
  lemma UrlTakesPrecedence(req: Request, env: Env)
    requires Truthy(req.githubUrl)
    ensures Count(Generate(req, env).trace, DecodeKind) == 0
  {
    GenerateTraceIsAttempt(req, env);
    if Admissible(req) {
      CountByStage(req, env, DecodeKind);
      var acq := Acquire(req, env);
      if acq.result.Ok? {
        ProcessZipCounts(acq.result.value, env, DecodeKind);
        var proc := ProcessZip.ProcessZip(acq.result.value, env);
        if proc.result.Ok? {
          DataFlowCount(proc.result.value, DecodeKind);
          DispatchCount(Lower(req.llmProvider), proc.result.value, req, env, DecodeKind);
        }
      }
    }
  }

  /** An inline archive that does not decode raises an HTTPException(400)
      inside the `try`, so the client sees a 500. */
  lemma InvalidBase64Rejected(req: Request, env: Env)
    requires Admissible(req) && !Truthy(req.githubUrl)
    requires env.b64decode(req.zipFile.value).None?
    ensures Generate(req, env) ==
              Reply(HttpError(500, Wrapped400(InvalidBase64)), [Base64Decode(req.zipFile.value)])
  {
    Wrapped400IsStr(InvalidBase64);
  }

  /** An archive without code files is a ValueError, hence a 400, and no
      provider is called. */
  lemma EmptyArchiveRejected(req: Request, env: Env)
    requires Admissible(req) && Acquire(req, env).result.Ok?
    requires env.extractZip(Acquire(req, env).result.value).Ok?
    requires env.listCodeFiles(Acquire(req, env).result.value) == Ok([])
    ensures Generate(req, env).outcome == HttpError(400, ProcessZip.NoCodeFiles)
    ensures Count(Generate(req, env).trace, DocumentKind) == 0
  {
    GenerateTraceIsAttempt(req, env);
    CountByStage(req, env, DocumentKind);
    AcquireCounts(req, env, DocumentKind);
    ProcessZipCounts(Acquire(req, env).result.value, env, DocumentKind);
  }

  /** Whatever the provider generator is given is the text of the first
      listed code file of the archive obtained, together with the body's
      prompt, key and model; and the key is non-empty. */
  lemma ProviderSeesFirstFile(req: Request, env: Env)
    ensures var r := Generate(req, env);
      Count(r.trace, DocumentKind) > 0 ==>
        && Admissible(req)
        && Truthy(req.apiKey)
        && Acquire(req, env).result.Ok?
        && var data := Acquire(req, env).result.value;
           var files := env.listCodeFiles(data);
           var last := r.trace[|r.trace| - 1];
           && files.Ok? && |files.value| > 0
           && last.Document?
           && env.readFile(data, files.value[0]) == Ok(last.code)
           && Name(last.provider) == Lower(req.llmProvider)
           && last.prompt == req.prompt && last.apiKey == req.apiKey && last.model == req.llmModel
  {
    var r := Generate(req, env);
    GenerateTraceIsAttempt(req, env);
    if Admissible(req) {
      CountByStage(req, env, DocumentKind);
      AttemptTrace(req, env);
      AcquireCounts(req, env, DocumentKind);
      var acq := Acquire(req, env);
      if acq.result.Ok? {
        ProcessZipCounts(acq.result.value, env, DocumentKind);
        var proc := ProcessZip.ProcessZip(acq.result.value, env);
        if proc.result.Ok? {
          var code := proc.result.value;
          var p := Lower(req.llmProvider);
          DataFlowCount(code, DocumentKind);
          DispatchCount(p, code, req, env, DocumentKind);
          if Parse(p).Some? {
            KeyedIffDispatched(p);
            var d := Dispatch(p, code, req, env).trace;
            assert r.trace[|r.trace| - 1] == d[0];
          }
        }
      }
    }
  }

  /** Data-flow generation never decides the outcome: replacing its oracle by
      any other leaves the trace, the status and every other response field
      as they were. */
  lemma DataFlowOnlyAffectsFlowchart(req: Request, env: Env, flow: string -> Result<string>)
    ensures var a := Generate(req, env);
      var b := Generate(req, env.(dataFlow := flow));
      && a.trace == b.trace
      && a.outcome.Success? == b.outcome.Success?
      && (a.outcome.HttpError? ==> a.outcome == b.outcome)
      && (a.outcome.Success? ==>
            a.outcome.response.(flowchart := b.outcome.response.flowchart) == b.outcome.response)
  {
    var env' := env.(dataFlow := flow);
    GenerateTraceIsAttempt(req, env);
    GenerateTraceIsAttempt(req, env');
    if Admissible(req) {
      var acq := Acquire(req, env);
      assert acq == Acquire(req, env');
      if acq.result.Ok? {
        var proc := ProcessZip.ProcessZip(acq.result.value, env);
        assert proc == ProcessZip.ProcessZip(acq.result.value, env');
        if proc.result.Ok? {
          var p := Lower(req.llmProvider);
          assert Dispatch(p, proc.result.value, req, env) == Dispatch(p, proc.result.value, req, env');
        }
      }
    }
  }

  /** When data-flow generation raises, the request still succeeds if the
      provider does, with the failure described in `flowchart`. */
  lemma DataFlowFailureIsSoft(req: Request, env: Env)
    requires Admissible(req) && Acquire(req, env).result.Ok?
    requires ProcessZip.ProcessZip(Acquire(req, env).result.value, env).result.Ok?
    requires Parse(Lower(req.llmProvider)).Some?
    requires var code := ProcessZip.ProcessZip(Acquire(req, env).result.value, env).result.value;
      && env.dataFlow(code).Err?
      && env.document(Parse(Lower(req.llmProvider)).value, code, req.prompt, req.apiKey, req.llmModel).Ok?
    ensures var code := ProcessZip.ProcessZip(Acquire(req, env).result.value, env).result.value;
      Generate(req, env).outcome == Success(Response(
        env.document(Parse(Lower(req.llmProvider)).value, code, req.prompt, req.apiKey, req.llmModel).value,
        DataFlowFailedPrefix + Str(env.dataFlow(code).error),
        Lower(req.llmProvider),
        req.llmModel))
  {
  }

  /** When the chosen provider's generator raises, that exception is what
      the `except` arms map: a ValueError is a 400, anything else a 500. */
  lemma ProviderFailureMapped(req: Request, env: Env)
    requires Admissible(req) && Acquire(req, env).result.Ok?
    requires ProcessZip.ProcessZip(Acquire(req, env).result.value, env).result.Ok?
    requires Parse(Lower(req.llmProvider)).Some?
    requires var code := ProcessZip.ProcessZip(Acquire(req, env).result.value, env).result.value;
      env.document(Parse(Lower(req.llmProvider)).value, code, req.prompt, req.apiKey, req.llmModel).Err?
    ensures var code := ProcessZip.ProcessZip(Acquire(req, env).result.value, env).result.value;
      var e := env.document(Parse(Lower(req.llmProvider)).value, code, req.prompt, req.apiKey, req.llmModel).error;
      Generate(req, env).outcome == MapException(e)
  {
  }

  /** An exception from extracting, listing or reading the archive ends the
      handler there: nothing after the failing call is made, and the client
      gets that exception mapped by the `except` arms. */
  lemma ArchiveFailureMapped(req: Request, env: Env)
    requires Admissible(req) && Acquire(req, env).result.Ok?
    requires ProcessZip.ProcessZip(Acquire(req, env).result.value, env).result.Err?
    ensures var acq := Acquire(req, env);
      var proc := ProcessZip.ProcessZip(acq.result.value, env);
      && Generate(req, env).outcome == MapException(proc.result.error)
      && Generate(req, env).trace == acq.trace + proc.trace
  {
    AttemptTrace(req, env);
  }

  /** An inline archive that decodes is what gets extracted: the call after
      the decode extracts exactly the decoded bytes. */
  lemma DecodedArchiveIsExtracted(req: Request, env: Env)
    requires Admissible(req) && !Truthy(req.githubUrl)
    requires env.b64decode(req.zipFile.value).Some?
    ensures var t := Generate(req, env).trace;
      |t| >= 2 && t[0] == Base64Decode(req.zipFile.value)
      && t[1] == ExtractZip(env.b64decode(req.zipFile.value).value)
  {
    GenerateTraceIsAttempt(req, env);
    AttemptTrace(req, env);
    var acq := Acquire(req, env);
    var proc := ProcessZip.ProcessZip(acq.result.value, env);
    if proc.result.Ok? {
      var code := proc.result.value;
      var d := Dispatch(Lower(req.llmProvider), code, req, env).trace;
      OpeningCalls(acq.trace, proc.trace, [DataFlow(code)], d);
    } else {
      OpeningCalls(acq.trace, proc.trace, [], []);
    }
  }

  lemma OpeningCalls(a: seq<Call>, b: seq<Call>, c: seq<Call>, d: seq<Call>)
    requires |a| == 1 && |b| >= 1
    ensures |a + b| >= 2 && (a + b)[0] == a[0] && (a + b)[1] == b[0]
    ensures |a + b + c + d| >= 2 && (a + b + c + d)[0] == a[0] && (a + b + c + d)[1] == b[0]
  {
  }

  /** An unrecognised provider is only noticed after the archive has been
      fetched, extracted and read and data flow summarised; no generator is
      called, and the intended 400 reaches the client as a 500. */
  lemma UnsupportedProviderRejectedLate(req: Request, env: Env)
    requires Admissible(req) && Parse(Lower(req.llmProvider)).None?
    ensures Count(Generate(req, env).trace, DocumentKind) == 0
    ensures Acquire(req, env).result.Ok? &&
            ProcessZip.ProcessZip(Acquire(req, env).result.value, env).result.Ok? ==>
              var code := ProcessZip.ProcessZip(Acquire(req, env).result.value, env).result.value;
              var r := Generate(req, env);
              && r.outcome == HttpError(500, Wrapped400(UnsupportedPrefix + Lower(req.llmProvider)))
              && |r.trace| > 0 && r.trace[|r.trace| - 1] == DataFlow(code)
  {
    UnsupportedMakesNoCall(req, env);
    var acq := Acquire(req, env);
    if acq.result.Ok? && ProcessZip.ProcessZip(acq.result.value, env).result.Ok? {
      UnsupportedRejectedAfterDataFlow(req, env);
    }
  }

  lemma UnsupportedMakesNoCall(req: Request, env: Env)
    requires Admissible(req) && Parse(Lower(req.llmProvider)).None?
    ensures Count(Generate(req, env).trace, DocumentKind) == 0
  {
    GenerateTraceIsAttempt(req, env);
    CountByStage(req, env, DocumentKind);
    AcquireCounts(req, env, DocumentKind);
    var acq := Acquire(req, env);
    if acq.result.Ok? {
      ProcessZipCounts(acq.result.value, env, DocumentKind);
      var proc := ProcessZip.ProcessZip(acq.result.value, env);
      if proc.result.Ok? {
        DataFlowCount(proc.result.value, DocumentKind);
        DispatchCount(Lower(req.llmProvider), proc.result.value, req, env, DocumentKind);
      }
    }
  }

  lemma UnsupportedRejectedAfterDataFlow(req: Request, env: Env)
    requires Admissible(req) && Parse(Lower(req.llmProvider)).None?
    requires Acquire(req, env).result.Ok?
    requires ProcessZip.ProcessZip(Acquire(req, env).result.value, env).result.Ok?
    ensures var code := ProcessZip.ProcessZip(Acquire(req, env).result.value, env).result.value;
      var r := Generate(req, env);
      && r.outcome == HttpError(500, Wrapped400(UnsupportedPrefix + Lower(req.llmProvider)))
      && |r.trace| > 0 && r.trace[|r.trace| - 1] == DataFlow(code)
  {
    Wrapped400IsStr(UnsupportedPrefix + Lower(req.llmProvider));
    GenerateTraceIsAttempt(req, env);
    AttemptTrace(req, env);
    var acq := Acquire(req, env);
    var proc := ProcessZip.ProcessZip(acq.result.value, env);
    var code := proc.result.value;
    assert Dispatch(Lower(req.llmProvider), code, req, env).trace == [];
    LastOfAppend(acq.trace + proc.trace, DataFlow(code));
  }

  lemma LastOfAppend(a: seq<Call>, c: Call)
    ensures |a + [c] + []| > 0 && (a + [c] + [])[|a + [c] + []| - 1] == c
  {
  }

  /** The handler as written never reports a validation failure as a 400:
      the failing check's detail reaches the client wrapped in a 500. */
  lemma ValidationFailureIs500(req: Request, env: Env)
    requires !Admissible(req)
    ensures Validate(req).Some?
    ensures Generate(req, env) == Reply(HttpError(500, Wrapped400(Validate(req).value.detail)), [])
  {
    Wrapped400IsStr(Validate(req).value.detail);
  }

  /** The intended handler reports a validation failure as a 400 with the
      check's own detail, and agrees with the handler as written on every
      exception that is not an HTTPException. */
  lemma IntendedValidationIs400(req: Request, env: Env)
    ensures !Admissible(req) ==>
              GenerateIntended(req, env) == Reply(HttpError(400, Validate(req).value.detail), [])
    ensures Attempt(req, env).result.Err? && !Attempt(req, env).result.error.HttpException? ==>
              GenerateIntended(req, env) == Generate(req, env)
  {
  }
}
