/**
 `fetch_github_zip` (main.py lines 40-60): check the URL prefix, then either
 download a direct `.zip` link once, or rewrite the host to the code-load
 mirror and try the `main` branch archive, falling back to `master`.
 */
module GithubFetch {

  import opened PyStr
  import opened Values
  import opened Effects

  const GithubPrefix := "https://github.com/"
  const CodeloadPrefix := "https://codeload.github.com/"
  const Host := "github.com"
  const MirrorHost := "codeload.github.com"

  const InvalidUrl := "Invalid GitHub URL"
  const ZipFetchFailed := "Failed to fetch GitHub ZIP: "
  const BranchesFetchFailed := "Failed to fetch GitHub ZIP for branches 'main' or 'master': "

  /** `github_url.replace("github.com", "codeload.github.com")`. */
  function MirrorBase(url: string): string {
    Replace(url, Host, MirrorHost)
  }

  /** `f"{base_url}/zip/refs/heads/{branch}"`. */
  function BranchUrl(url: string, branch: string): string {
    MirrorBase(url) + "/zip/refs/heads/" + branch
  }

  function FetchGithubZip(url: string, get: string -> FetchReply): (r: Run<Bytes>)
    // an invalid URL fails before any network call
    ensures !StartsWith(url, GithubPrefix) ==> r == Run(Err(ValueError(InvalidUrl)), [])
    // a valid URL makes one or two network calls, and nothing else
    ensures StartsWith(url, GithubPrefix) ==> 1 <= |r.trace| <= 2
    ensures forall i :: 0 <= i < |r.trace| ==> r.trace[i].HttpGet?
    // the bytes returned are what the last request fetched, and every
    // earlier request failed
    ensures r.result.Ok? ==> get(r.trace[|r.trace| - 1].url) == Fetched(r.result.value)
    ensures forall i :: 0 <= i < |r.trace| - 1 ==> get(r.trace[i].url).RequestFailed?
    // a valid URL fails only when every request failed, with a RuntimeError
    ensures StartsWith(url, GithubPrefix) && r.result.Err? ==>
              r.result.error.RuntimeError? &&
              forall i :: 0 <= i < |r.trace| ==> get(r.trace[i].url).RequestFailed?
  {
    if !StartsWith(url, GithubPrefix) then
      Run(Err(ValueError(InvalidUrl)), [])
    else if EndsWith(url, ".zip") then
      match get(url)
      case Fetched(c) => Run(Ok(c), [HttpGet(url)])
      case RequestFailed(m) => Run(Err(RuntimeError(ZipFetchFailed + m)), [HttpGet(url)])
    else
      var mainUrl := BranchUrl(url, "main");
      match get(mainUrl)
      case Fetched(c) => Run(Ok(c), [HttpGet(mainUrl)])
      case RequestFailed(_) =>
        var masterUrl := BranchUrl(url, "master");
        match get(masterUrl)
        case Fetched(c) => Run(Ok(c), [HttpGet(mainUrl), HttpGet(masterUrl)])
        case RequestFailed(m) =>
          Run(Err(RuntimeError(BranchesFetchFailed + m)), [HttpGet(mainUrl), HttpGet(masterUrl)])
  }

  /** A direct `.zip` link is requested once, unmodified; its failure is a
      RuntimeError carrying the request's error text. */
  lemma DirectZipFetchedOnce(url: string, get: string -> FetchReply)
    requires StartsWith(url, GithubPrefix) && EndsWith(url, ".zip")
    ensures FetchGithubZip(url, get).trace == [HttpGet(url)]
    ensures FetchGithubZip(url, get).result.Err? <==> get(url).RequestFailed?
    ensures get(url).RequestFailed? ==>
              FetchGithubZip(url, get).result.error == RuntimeError(ZipFetchFailed + get(url).reason)
  {
  }

  /** Any other valid URL tries the `main` archive first and the `master`
      archive only when `main` failed; it fails only when both did, with an
      error naming both branches and carrying the `master` request's text. */
  lemma MainThenMaster(url: string, get: string -> FetchReply)
    requires StartsWith(url, GithubPrefix) && !EndsWith(url, ".zip")
    ensures var r := FetchGithubZip(url, get);
      && r.trace[0] == HttpGet(BranchUrl(url, "main"))
      && (|r.trace| == 2 <==> get(BranchUrl(url, "main")).RequestFailed?)
      && (|r.trace| == 2 ==> r.trace[1] == HttpGet(BranchUrl(url, "master")))
      && (r.result.Err? <==>
            get(BranchUrl(url, "main")).RequestFailed? && get(BranchUrl(url, "master")).RequestFailed?)
      && (r.result.Err? ==>
            r.result.error == RuntimeError(BranchesFetchFailed + get(BranchUrl(url, "master")).reason))
  {
  }

  lemma SchemeHasNoG()
    ensures forall k :: 0 <= k < 8 ==> GithubPrefix[k] != 'g'
  {
  }

  /** In a valid URL the first occurrence of the host name is the origin's. */
  lemma HostFirstOccursAfterScheme(url: string)
    requires StartsWith(url, GithubPrefix)
    ensures OccursAt(url, Host, 8) && ClearBefore(url, Host, 8)
  {
    var p := url[..|GithubPrefix|];
    assert p == GithubPrefix;
    assert GithubPrefix[8..18] == Host;
    assert url[8..18] == p[8..18];
    SchemeHasNoG();
    forall k | 0 <= k < 8 ensures url[k] != Host[0] {
      assert url[k] == p[k];
    }
    ClearFromChars(url, Host, 8);
  }

  /** On a valid URL the leading host always becomes the mirror host, so
      every branch URL is a code-load URL. */
  lemma MirrorBaseOfValidUrl(url: string)
    requires StartsWith(url, GithubPrefix)
    ensures MirrorBase(url) == CodeloadPrefix + Replace(url[|GithubPrefix|..], Host, MirrorHost)
  {
    HostFirstOccursAfterScheme(url);
    assert url[18] == '/' && url[..8] == "https://" by {
      assert url[..|GithubPrefix|] == GithubPrefix;
      assert url[18] == url[..|GithubPrefix|][18];
      assert url[..8] == url[..|GithubPrefix|][..8];
    }
    ReplaceAroundFirst(url, Host, MirrorHost, 8);
    SchemeMirrorSlash();
  }

  lemma SchemeMirrorSlash()
    ensures "https://" + MirrorHost + "/" == CodeloadPrefix
  {
  }

  /** A repository path followed by the host name, with no earlier
      occurrence of it (an old-style "<user>.github.com" pages repository,
      such as https://github.com/octo/octo.github.com or
      https://github.com/google/google.github.com), gets its path rewritten
      too, so the archive URL names a repository that does not exist. */
  lemma PathHostRewritten(url: string, path: string)
    requires url == GithubPrefix + path + Host
    requires forall k :: 0 <= k < |path| ==> !OccursAt(path + Host, Host, k)
    ensures MirrorBase(url) == CodeloadPrefix + path + MirrorHost
    ensures HostOnlyBase(url) == CodeloadPrefix + path + Host
  {
    TrailingHostRewritten(path);
    MirrorBaseOfPath(url, path);
  }

  lemma TrailingHostRewritten(path: string)
    requires forall k :: 0 <= k < |path| ==> !OccursAt(path + Host, Host, k)
    ensures Replace(path + Host, Host, MirrorHost) == path + MirrorHost
  {
    ClearFromNone(path + Host, Host, |path|);
    ReplaceTrailing(path + Host, path, Host, MirrorHost);
  }

  lemma MirrorBaseOfPath(url: string, path: string)
    requires url == GithubPrefix + path + Host
    ensures MirrorBase(url) == CodeloadPrefix + Replace(path + Host, Host, MirrorHost)
  {
    MirrorBaseOfValidUrl(url);
    assert url[|GithubPrefix|..] == path + Host;
  }

  /** The evidently intended rewrite: swap the origin prefix for the mirror's
      and keep the repository path verbatim. */
  function HostOnlyBase(url: string): (base: string)
    requires StartsWith(url, GithubPrefix)
    ensures StartsWith(base, CodeloadPrefix)
    ensures base[|CodeloadPrefix|..] == url[|GithubPrefix|..]
  {
    CodeloadPrefix + url[|GithubPrefix|..]
  }

  /** The intended rewrite agrees with the code whenever the path does not
      itself mention the host name, and keeps such a repository's name. */
  lemma HostOnlyBaseAgrees(url: string)
    requires StartsWith(url, GithubPrefix)
    requires forall k :: !OccursAt(url[|GithubPrefix|..], Host, k)
    ensures HostOnlyBase(url) == MirrorBase(url)
  {
    MirrorBaseOfValidUrl(url);
    ReplaceNoMatch(url[|GithubPrefix|..], Host, MirrorHost);
  }
}
