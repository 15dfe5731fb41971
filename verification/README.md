# FastWrite-API `/generate` — a Dafny model

FastWrite-API is a small FastAPI service. Its one real endpoint, `POST
/generate`, takes a JSON body and does the following:

1. It validates the body.
2. It obtains a ZIP archive, either by downloading a GitHub repository or by
   base64-decoding an inline archive.
3. It extracts the archive and reads its first code file.
4. It asks a data-flow generator for a flowchart. This step is best-effort.
5. It asks one of four LLM providers (Groq, Gemini, OpenAI, OpenRouter) for
   documentation of that file.
6. It turns any exception into an HTTP status.

This project models that decision logic in `main.py`:

- `fetch_github_zip`, lines 40-60
- `process_zip`, lines 62-71
- the body of `generate_documentation`, lines 74-130

The model is written as pure functions. Every external effect is a field of
the `Effects.Env` record and is treated as an uninterpreted oracle. These
are `requests.get`, `base64.b64decode`, `extract_zip`, `list_code_files`,
`read_file`, `generate_data_flow` and the four `generate_documentation_*`
functions. Each run returns its result together with the trace of oracle
calls it made (`Effects.Call`). Properties such as "no request before the
URL is validated" and "`main` is tried before `master`" are stated over that
trace.

Python's exception classes become the `Values.PyError` datatype. The
`try`/`except` chain is copied arm by arm (`Endpoint.MapException`). In that
chain, `except Exception` also catches the `HTTPException`s raised inside
the `try`. `Endpoint.Generate` reproduces this.

The Python string operations the handler relies on are defined in `PyStr`:
`startswith`, `endswith`, `lower`, `replace`, and the decimal rendering of
an integer. `replace` is proved equal to an independent definition through `split` and
`join`: `rep.join(s.split(pat))`.

Modules, one per file:

| file | module | models |
|---|---|---|
| `values.dfy` | `Values` | `Option`, truthiness, bytes, Python exceptions and their `str()` |
| `py_str.dfy` | `PyStr` | the `str` methods used |
| `providers.dfy` | `Providers` | the four providers, the keyed-provider set and the dispatch chain |
| `effects.dfy` | `Effects` | oracles, call traces, counting calls by kind |
| `github_fetch.dfy` | `GithubFetch` | `fetch_github_zip` |
| `process_zip.dfy` | `ProcessZip` | `process_zip` |
| `endpoint.dfy` | `Endpoint` | `generate_documentation` as written, and as evidently intended |
| `endpoint_properties.dfy` | `EndpointProperties` | whole-handler properties |

### Which failures reach the client as a 400

Each validation check raises `HTTPException(status_code=400, …)`. So do
undecodable inline data (line 98) and an unsupported provider (line 116).
All of them are raised inside the `try`. An `HTTPException` is neither a
`ValueError` nor a `RuntimeError`, so line 129 catches it and re-raises it as
a 500 with the detail `"Internal server error: 400: <detail>"`. This
rendering follows Starlette's `HTTPException.__str__`, which gives
`"<status_code>: <detail>"`. The model follows the code. The corrected
handler, which keeps those 400s, is the first entry under Findings.

Only `ValueError`s reach the client as a 400:

- an invalid URL
- an archive with no code files
- a `ValueError` from `extract_zip`, `list_code_files`, `read_file` or one of
  the four `generate_documentation_*` functions

A `ValueError` from `generate_data_flow` is caught at line 104 and becomes
flowchart text. One from `base64.b64decode` is caught at line 97 and becomes
the wrapped 500 for invalid base64.

Any other exception escaping the `try` becomes a 500 whose detail includes
`str(e)`.

## Model

| member | source | states |
|---|---|---|
| Endpoint.MissingFields | main.py:80-81 | a field name is listed iff its value is empty, only the three required names appear, and they appear in dict order |
| Endpoint.Validate | main.py:80-89 | a body is rejected iff it is not admissible (fields present, a truthy source, a key for a keyed provider), always with an HTTPException of status 400 |
| Endpoint.Acquire | main.py:92-98 | a truthy URL is handed to `fetch_github_zip`, whose outcome and calls are the step's, with no decoding; otherwise the inline archive is decoded once; the step fails iff decoding fails, with HTTPException(400, "Invalid base64-encoded ZIP file"), and otherwise yields exactly the decoded bytes |
| Endpoint.Flowchart | main.py:102-105 | a successful data-flow generator's text is the flowchart; a raising one yields "Failed to generate data flow diagram: " + str(e) instead of an exception |
| Endpoint.Dispatch | main.py:107-116 | an unrecognised name raises HTTPException(400, "Unsupported LLM provider: …") with no call; a recognised one calls exactly that provider's generator, once, with the code, prompt, key and model, and the generator's reply (documentation or exception) is the step's result |
| Endpoint.MapException | main.py:125-130 | every exception becomes an HTTP error; the status is 400 exactly for ValueError and 500 otherwise; ValueError and RuntimeError keep their message, and anything else gets "Internal server error: " + str(e) |
| Endpoint.Generate | main.py:74-130 | statuses are only 400 or 500; an inadmissible body makes no call and gets a 500; a success echoes the lower-cased provider and the model, and carries the result of the last call, which is that provider's generator, and the data-flow step's text for the file read as its flowchart |
| Endpoint.MapExceptionIntended | main.py:125-130 | the corrected mapping re-raises an HTTPException unchanged and maps every other exception as the code does |
| Endpoint.GenerateIntended | main.py:74-130 | the corrected handler makes the same calls and succeeds on the same inputs with the same response as the code, but every HTTPException raised in the `try` (validation, invalid base64, unsupported provider) keeps its own status and detail; a validation failure is a 400 with the failing check's detail |
| GithubFetch.FetchGithubZip | main.py:40-60 | an invalid URL raises ValueError before any request; a valid one makes one or two requests and no other call; success returns the last request's bytes after every earlier request failed; failure is a RuntimeError raised only after every request failed |
| GithubFetch.DirectZipFetchedOnce | main.py:43-49 | a `.zip` URL is requested once, unmodified, and fails iff that request fails, with "Failed to fetch GitHub ZIP: " + the request's error |
| GithubFetch.MainThenMaster | main.py:50-60 | the `main` archive is requested first; `master` is requested iff `main` failed; the fetch fails iff both failed, with the error naming both branches |
| GithubFetch.HostFirstOccursAfterScheme | main.py:41-50 | in a valid URL, the first occurrence of "github.com" is the origin's host, at index 8 |
| GithubFetch.MirrorBaseOfValidUrl | main.py:50-52 | the rewritten base of a valid URL always starts with "https://codeload.github.com/", followed by the path with its own occurrences replaced |
| GithubFetch.PathHostRewritten | main.py:50 | the code as written also renames a repository whose path ends in "github.com" (with no earlier occurrence): the trailing name becomes "codeload.github.com", while the corrected rewrite keeps it |
| GithubFetch.HostOnlyBase | main.py:50 | the corrected rewrite yields a code-load URL that keeps the repository path verbatim |
| GithubFetch.HostOnlyBaseAgrees | main.py:50 | when the path does not mention "github.com", the corrected rewrite equals the code's |
| ProcessZip.ProcessZip | main.py:62-71 | extraction comes first; an exception from extraction or listing propagates unchanged; an empty listing raises ValueError("No code files found in the ZIP") and nothing is read; a non-empty listing reads exactly its first file, and that reply (content or exception) is the result |
| Providers.Parse | main.py:107-114 | a recognised name is exactly its provider's name |
| Providers.ParseName | main.py:107-114 | each provider is dispatched from its own name and from no other |
| Providers.KeyedIffDispatched | main.py:88-116 | a name needs a key iff the dispatch chain recognises it |
| PyStr.Lower | main.py:76 | lower-casing keeps the length, leaves no upper-case ASCII letter, keeps every other character and shifts each upper-case letter by 32 |
| PyStr.ReplaceAtFirst | main.py:50 | `replace` copies the text before the first occurrence, emits the replacement, and carries on after the occurrence |
| PyStr.ReplaceNoMatch | main.py:50 | `replace` on a string without the pattern changes nothing |
| PyStr.ReplaceIsJoinOfSplit | main.py:50 | `s.replace(pat, rep) == rep.join(s.split(pat))` for every string and non-empty pattern |
| PyStr.DecimalRoundTrip | main.py:130 | the decimal text of a status code reads back as that status code |
| EndpointProperties.MissingFieldsReported | main.py:80-83 | any missing field is reported first, with exactly the missing names comma-joined in order, before any call, and is wrapped in a 500 by lines 129-130 |
| EndpointProperties.NoSourceRejected | main.py:85-86 | with all fields present, a body with no truthy source is rejected next, before any call, whatever its provider or key |
| EndpointProperties.MissingKeyRejected | main.py:88-89 | only after that, a keyed provider without a truthy key is rejected, naming the lower-cased provider, before any call |
| EndpointProperties.UnknownProviderNeedsNoKey | main.py:88-89 | an unrecognised provider passes validation without a key |
| EndpointProperties.ForeignUrlRejected | main.py:41-42 | a URL outside "https://github.com/" gets 400 "Invalid GitHub URL" with no call at all |
| EndpointProperties.DirectZipUrl | main.py:43-49 | a `.zip` URL is the first call, there is exactly one request, and its failure reaches the client as 500 with the fetch error |
| EndpointProperties.BranchFallback | main.py:50-60 | the `main` archive is requested first, `master` second and only after `main` failed; when both fail the client gets a 500 naming both branches |
| EndpointProperties.FetchOpensTrace | main.py:92-100 | the archive-fetching calls open the handler's trace |
| EndpointProperties.NetworkCallsOnlyFromFetch | main.py:92-116 | every request is made while obtaining the archive, and there are at most two |
| EndpointProperties.AtMostOneDocumentCall | main.py:107-116 | a provider generator is called at most once, and only as the last call |
| EndpointProperties.UrlTakesPrecedence | main.py:92-96 | with a truthy URL the inline archive is never decoded |
| EndpointProperties.InvalidBase64Rejected | main.py:94-98 | undecodable inline data ends the request after the one decode call, as a 500 wrapping the intended 400 |
| EndpointProperties.EmptyArchiveRejected | main.py:67-69 | an archive with no code files gets 400 "No code files found in the ZIP" and no provider call |
| EndpointProperties.DecodedArchiveIsExtracted | main.py:94-100 | decoded inline data is what gets extracted: the decode call is followed by the extraction of exactly the decoded bytes |
| EndpointProperties.AttemptTrace | main.py:91-123 | after validation, the `try` body runs its stages in order: a failed acquisition ends it with that error and its calls; a failed `process_zip` ends it with that error after the acquisition and processing calls; otherwise the calls are acquisition, processing, one data-flow call on the code read, then the dispatch's calls |
| EndpointProperties.ArchiveFailureMapped | main.py:66-71 | an exception from `extract_zip`, `list_code_files` or `read_file` (or the empty-listing ValueError) ends the handler with no further call, and the client gets it mapped by the `except` arms of lines 125-130: 400 for a ValueError, 500 with its message for a RuntimeError, and the wrapped 500 otherwise |
| EndpointProperties.ProviderFailureMapped | main.py:107-130 | when the chosen generator raises, the client gets that exception mapped by the `except` arms: 400 for a ValueError, 500 with its message for a RuntimeError, and the wrapped 500 otherwise |
| EndpointProperties.ProviderSeesFirstFile | main.py:70-114 | a provider call happens only for an admissible body with a truthy key; the provider is the one named; it receives the first listed file's text and the body's prompt, key and model |
| EndpointProperties.DataFlowOnlyAffectsFlowchart | main.py:102-105 | replacing the data-flow oracle changes only the flowchart field: the trace, the status and every other field stay the same |
| EndpointProperties.DataFlowFailureIsSoft | main.py:102-123 | when data flow raises and the provider succeeds, the response carries the provider's text, the failure message as flowchart, the lower-cased provider and the unchanged model |
| EndpointProperties.UnsupportedProviderRejectedLate | main.py:100-116 | an unrecognised provider makes no generator call; when fetching and reading succeed, it is rejected only after the data-flow call, as a 500 wrapping the intended 400 |
| EndpointProperties.ValidationFailureIs500 | main.py:125-130 | the code as written reports every validation failure as a 500 whose detail wraps the check's 400 |
| EndpointProperties.IntendedValidationIs400 | main.py:125-130 | the corrected handler reports it as a 400 with the check's detail, and agrees with the code on every exception that is not an HTTPException |

## Left out

- The FastAPI app, the CORS middleware, the `GET /` route and pydantic parsing (main.py:15-38). These are framework configuration. The body is a record: `github_url`, `zip_file` and `api_key` are optional, and the three required fields are strings.
- The bodies of `extract_zip`, `list_code_files`, `read_file`, `generate_data_flow` and the four `generate_documentation_*` functions. They live in the `FastWrite` package, which is not part of this model, so they are oracles that may return a value or raise any `PyError`.
- `requests.get`, its 10-second timeout and `raise_for_status`. One request is an oracle returning either the content or a failure carrying `str(e)` of the `RequestException`. Other exceptions from `requests` are not modelled.
- `base64.b64decode` internals. It is an oracle returning the bytes or nothing.
- The temporary directory and writing `temp.zip` (main.py:63-65, 91). These are filesystem effects, and the oracles see the archive bytes directly.
- Path-traversal safety of extraction. The visible code does not implement it.
- Concurrency. The handler is sequential.
- Exceptions that are not `Exception`s (`BaseException`, such as cancellation). They escape the handler and are not modelled.
- PyStr.Lower: maps only the ASCII letters A-Z. Python's `str.lower` also lower-cases other Unicode letters.
- PyStr.ReplaceAtFirst: covers only a non-empty pattern. Python's `replace` with an empty pattern inserts the replacement between characters, but the only call passes "github.com".
- Values.Str: renders an `HTTPException` the way Starlette's `__str__` does, as "status: detail". That behaviour is outside this repository.

## Findings

| source | as written | input that shows it | evidently intended | confidence | as-written member | corrected member |
|---|---|---|---|---|---|---|
| main.py:125-130 | `except Exception` also catches the `HTTPException`s raised at lines 83, 86, 89, 98 and 116, so each reaches the client as 500 "Internal server error: 400: …" | a body with `prompt` = "" gives 500 "Internal server error: 400: Missing required fields: prompt" | re-raise `HTTPException` unchanged (400 with its own detail) | not executed | EndpointProperties.ValidationFailureIs500 | Endpoint.GenerateIntended |
| main.py:50 | `replace` rewrites every "github.com", including one inside the repository path | https://github.com/octo/octo.github.com is fetched from https://codeload.github.com/octo/octo.codeload.github.com/zip/refs/heads/main, which names another repository | rewrite only the host: "https://codeload.github.com/" + the path | not executed | GithubFetch.PathHostRewritten | GithubFetch.HostOnlyBase |

`Endpoint.Generate` and `GithubFetch.FetchGithubZip` keep the behaviour as
written. The corrected handler is `Endpoint.GenerateIntended`, which uses
`Endpoint.MapExceptionIntended`. The corrected rewrite is
`GithubFetch.HostOnlyBase`. `GithubFetch.HostOnlyBaseAgrees` proves that it
differs from the code only for paths that contain the host name.
