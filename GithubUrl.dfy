/**
 The three URL helpers of the application: the format check, the owner and
 repository extraction, and the part of the existence check that runs before
 the HTTP request. A URL is taken already parsed into the components of section 3
 of RFC 3986 that Python's `urlparse` returns; the parser itself is not modelled.
 */
module GithubUrl {
  import opened Wrappers
  import opened Strings

  /** The components of `urlparse(url)` that the helpers read. */
  datatype ParsedUrl = ParsedUrl(scheme: string, netloc: string, path: string)

  const GithubHost: string := "github.com"

  /** Prefix of the page requested by the existence check. */
  const GithubPagePrefix: string := "https://github.com/"

  /** Status code that counts as "the repository exists". */
  const StatusOk: int := 200

  /** `parsed_url.path.strip("/")`, shared by the extractor and the existence check. */
  function StrippedPath(u: ParsedUrl): (p: string)
    ensures p != [] ==> p[0] != '/' && p[|p| - 1] != '/'
  {
    Strip(u.path, {'/'})
  }

  /** `is_valid_github_url`: scheme one of "http" and "https", network location exactly
      "github.com", and a path that starts with "/". Nothing is required of the rest of
      the path, in particular not how many "/" it holds. */
  function IsValidGithubUrl(u: ParsedUrl): (valid: bool)
    ensures valid <==>
      (u.scheme == "http" || u.scheme == "https") && u.netloc == GithubHost &&
      |u.path| > 0 && u.path[0] == '/'
  {
    u.scheme in ["http", "https"] && u.netloc == GithubHost && "/" <= u.path
  }

  /** `extract_github_details`: the owner and the repository name, or None (the
      pair `(None, None)`) unless the stripped path holds exactly one "/". */
  function ExtractGithubDetails(u: ParsedUrl): (r: Option<(string, string)>)
    ensures r.None? <==> Count(StrippedPath(u), '/') != 1
    ensures r.Some? ==>
      r.value.0 + "/" + r.value.1 == StrippedPath(u) && '/' !in r.value.0 && '/' !in r.value.1 &&
      r.value.0 != "" && r.value.1 != ""
  {
    var path := StrippedPath(u);
    if Count(path, '/') == 1 then
      var parts := SplitFirst(path, '/');
      CountConcat(parts[0] + ['/'], parts[1], '/');
      CountConcat(parts[0], ['/'], '/');
      assert Count(['/'], '/') == 1;
      assert path[0] == (parts[0] + ['/'] + parts[1])[0];
      assert path[|path| - 1] == (parts[0] + ['/'] + parts[1])[|path| - 1];
      Some((parts[0], parts[1]))
    else
      None
  }

  /** The extractor returns a given pair exactly when the stripped path is that owner,
      a "/" and that repository name, neither of them containing "/". */
  lemma ExtractGithubDetailsExactly(u: ParsedUrl, owner: string, repo: string)
    ensures ExtractGithubDetails(u) == Some((owner, repo)) <==>
      StrippedPath(u) == owner + "/" + repo && '/' !in owner && '/' !in repo
  {
    var path := StrippedPath(u);
    if path == owner + "/" + repo && '/' !in owner && '/' !in repo {
      CountConcat(owner + "/", repo, '/');
      CountConcat(owner, "/", '/');
      assert Count("/", '/') == 1;
      var parts := SplitFirst(path, '/');
      FirstSplitUnique(parts[0], parts[1], owner, repo, '/');
    }
  }

  /** The split inside `check_github_repo_exists`: `path.split("/", 1)` unpacked into
      `user, repo`; None where the unpacking raises ValueError, which the function
      turns into False. */
  function RepoPathSplit(u: ParsedUrl): (r: Option<(string, string)>)
    ensures r.None? <==> '/' !in StrippedPath(u)
    ensures r.Some? ==>
      r.value.0 + "/" + r.value.1 == StrippedPath(u) && '/' !in r.value.0 &&
      r.value.0 != "" && r.value.1 != ""
  {
    var path := StrippedPath(u);
    var parts := SplitFirst(path, '/');
    if |parts| == 2 then
      assert path[0] == (parts[0] + ['/'] + parts[1])[0];
      assert path[|path| - 1] == (parts[0] + ['/'] + parts[1])[|path| - 1];
      Some((parts[0], parts[1]))
    else
      None
  }

  /** The page the existence check requests, or None when it requests nothing. */
  function RepoProbeUrl(u: ParsedUrl): (r: Option<string>)
    ensures r.None? <==> '/' !in StrippedPath(u)
    ensures r.Some? ==> r.value == GithubPagePrefix + StrippedPath(u)
  {
    var split := RepoPathSplit(u);
    if split.None? then None
    else
      var user, repo := split.value.0, split.value.1;
      Some(GithubPagePrefix + (user + "/" + repo))
  }

  /** `check_github_repo_exists`, with the HTTP request as the oracle `statusCode`
      from a requested page to the status code of the response. Without a "/" in the
      stripped path the answer is False whatever the oracle says; otherwise it is the
      oracle's verdict on the GitHub page of that path. */
  function CheckGithubRepoExists(u: ParsedUrl, statusCode: string -> int): (found: bool)
    ensures '/' !in StrippedPath(u) ==> !found
    ensures '/' in StrippedPath(u) ==>
      (found <==> statusCode(GithubPagePrefix + StrippedPath(u)) == StatusOk)
  {
    match RepoProbeUrl(u)
    case None => false
    case Some(page) => statusCode(page) == StatusOk
  }

  /** Whenever the extractor yields a pair, the existence check splits the path into
      the same pair. */
  lemma ExtractAgreesWithRepoPathSplit(u: ParsedUrl)
    ensures ExtractGithubDetails(u).Some? ==> RepoPathSplit(u) == ExtractGithubDetails(u)
  {
    if ExtractGithubDetails(u).Some? {
      var d, split := ExtractGithubDetails(u).value, RepoPathSplit(u).value;
      FirstSplitUnique(d.0, d.1, split.0, split.1, '/');
    }
  }

  /** A path holding one "/" in front of a name that neither starts nor ends with "/",
      and possibly one more "/" after it, strips to that name. */
  lemma SlashedNameStrips(name: string, trailingSlash: bool)
    requires name != [] && name[0] != '/' && name[|name| - 1] != '/'
    ensures Strip("/" + name + (if trailingSlash then "/" else ""), {'/'}) == name
  {
    var path := "/" + name + (if trailingSlash then "/" else "");
    assert path[1..1 + |name|] == name;
    assert path[0] == '/';
    assert trailingSlash ==> |path| == |name| + 2 && path[|name| + 1] == '/';
    assert !trailingSlash ==> |path| == |name| + 1;
    assert IsTrimOf(name, path, {'/'}, 1);
    StripUnique(name, path, {'/'}, 1);
  }

  /** The address of a repository page, `<scheme>://github.com/<owner>/<repo>` with
      an optional trailing "/", passes the check, yields that owner and repository,
      and is the page whose existence is probed. */
  lemma RepoUrlRoundTrip(scheme: string, owner: string, repo: string, trailingSlash: bool)
    requires scheme == "http" || scheme == "https"
    requires owner != "" && repo != "" && '/' !in owner && '/' !in repo
    ensures var u := ParsedUrl(scheme, GithubHost, "/" + (owner + "/" + repo) + (if trailingSlash then "/" else ""));
      && IsValidGithubUrl(u)
      && ExtractGithubDetails(u) == Some((owner, repo))
      && RepoProbeUrl(u) == Some(GithubPagePrefix + (owner + "/" + repo))
  {
    var u := ParsedUrl(scheme, GithubHost, "/" + (owner + "/" + repo) + (if trailingSlash then "/" else ""));
    var name := owner + "/" + repo;
    assert name[0] == owner[0] && name[|name| - 1] == repo[|repo| - 1];
    SlashedNameStrips(name, trailingSlash);
    ExtractGithubDetailsExactly(u, owner, repo);
  }

  /** The format check is weaker than the extractor: the address of a page below a
      repository, `https://github.com/<owner>/<repo>/<more>`, passes it, and the
      existence check probes that page with `<repo>/<more>` as the repository name, yet
      the extractor returns None, so the documents are then requested with no owner and
      no repository. */
  lemma ValidUrlWithoutOwnerAndRepo(owner: string, repo: string, more: string)
    requires owner != "" && repo != "" && more != ""
    requires '/' !in owner && '/' !in repo && '/' !in more
    ensures var u := ParsedUrl("https", GithubHost, "/" + (owner + "/" + (repo + "/" + more)));
      && IsValidGithubUrl(u)
      && ExtractGithubDetails(u) == None
      && RepoPathSplit(u) == Some((owner, repo + "/" + more))
  {
    var tail := repo + "/" + more;
    var name := owner + "/" + tail;
    var u := ParsedUrl("https", GithubHost, "/" + name);
    assert name[0] == owner[0] && name[|name| - 1] == more[|more| - 1];
    SlashedNameStrips(name, false);
    assert "/" + name + "" == "/" + name;
    CountConcat(owner + "/", tail, '/');
    CountConcat(owner, "/", '/');
    CountConcat(repo + "/", more, '/');
    CountConcat(repo, "/", '/');
    assert Count("/", '/') == 1;
    var split := RepoPathSplit(u).value;
    FirstSplitUnique(split.0, split.1, owner, tail, '/');
  }
}
