/**
 The external effects of the endpoint. Each library call main.py makes is an
 oracle in `Env`: a total function from its arguments to what it returns or
 raises. A computation returns its result together with the trace of oracle
 calls it made, in order, so that properties such as "no network call before
 the URL is validated" can be stated.
 */
module Effects {

  import opened Values
  import opened Providers

  /** What `requests.get(url, timeout=10)` followed by `raise_for_status()`
      gives back: the body, or a `requests.RequestException` with its text. */
  datatype FetchReply = Fetched(content: Bytes) | RequestFailed(reason: string)

  /** The oracles. The temporary directory is abstracted away: listing and
      reading see the archive that was extracted into it. */
  datatype Env = Env(
    get: string -> FetchReply,                        // requests.get + raise_for_status
    b64decode: string -> Option<Bytes>,               // base64.b64decode; None when it raises
    extractZip: Bytes -> Result<()>,                  // extract_zip
    listCodeFiles: Bytes -> Result<seq<string>>,      // list_code_files
    readFile: (Bytes, string) -> Result<string>,      // read_file on a listed entry
    dataFlow: string -> Result<string>,               // generate_data_flow
    document: (Provider, string, string, Option<string>, string) -> Result<string>
                                                      // generate_documentation_<provider>(code, prompt, key, model)
  )

  /** One oracle call, with the arguments it was given. */
  datatype Call =
    | HttpGet(url: string)
    | Base64Decode(text: string)
    | ExtractZip(archive: Bytes)
    | ListCodeFiles
    | ReadFile(path: string)
    | DataFlow(code: string)
    | Document(provider: Provider, code: string, prompt: string, apiKey: Option<string>, model: string)

  datatype Kind = NetworkKind | DecodeKind | ExtractKind | ListKind | ReadKind | DataFlowKind | DocumentKind

  function KindOf(c: Call): Kind {
    match c
    case HttpGet(_) => NetworkKind
    case Base64Decode(_) => DecodeKind
    case ExtractZip(_) => ExtractKind
    case ListCodeFiles => ListKind
    case ReadFile(_) => ReadKind
    case DataFlow(_) => DataFlowKind
    case Document(_, _, _, _, _) => DocumentKind
  }

  /** How many calls of kind `k` a trace holds. */
  function Count(t: seq<Call>, k: Kind): (n: nat)
    ensures n <= |t|
    ensures n == 0 <==> forall i :: 0 <= i < |t| ==> KindOf(t[i]) != k
    ensures n == |t| <==> forall i :: 0 <= i < |t| ==> KindOf(t[i]) == k
  {
    if |t| == 0 then 0
    else (if KindOf(t[0]) == k then 1 else 0) + Count(t[1..], k)
  }

  lemma {:induction false} CountAppend(a: seq<Call>, b: seq<Call>, k: Kind)
    ensures Count(a + b, k) == Count(a, k) + Count(b, k)
    decreases |a|
  {
    if |a| > 0 {
      var ab := a + b;
      assert ab[0] == a[0] && ab[1..] == a[1..] + b;
      CountAppend(a[1..], b, k);
      assert Count(ab, k) == (if KindOf(a[0]) == k then 1 else 0) + Count(a[1..] + b, k);
    } else {
      assert a + b == b;
    }
  }

  /** A computation that may raise, with the oracle calls it made. */
  datatype Run<T> = Run(result: Result<T>, trace: seq<Call>)
}
