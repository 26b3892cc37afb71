/** github_utils.py: turning a repository URL into "owner/repo", and inserting the
    access token into the clone URL. The git subprocesses and the GitHub API calls are
    outside the model. */
module GithubUtils {
  import opened Wrappers
  import opened Strings

  const HttpsPrefix := "https://github.com/"
  const HttpPrefix := "http://github.com/"

  /** A segment matched by `[^/]+`. */
  predicate IsSegment(s: string)
  {
    s != [] && NoSlash(s)
  }

  /** Where the pattern `https?://github\.com/` leaves off in `url`, if it matches. */
  function SchemeEnd(url: string): (k: Option<nat>)
    ensures k.Some? ==> k.value <= |url|
  {
    if HttpsPrefix <= url then Some(|HttpsPrefix|)
    else if HttpPrefix <= url then Some(|HttpPrefix|)
    else None
  }

  /** `url` starts with `scheme`, then `owner`, a '/', and `repo`, and the repo segment
      runs up to the end of the URL or to the next '/'. */
  predicate MatchesWith(url: string, scheme: string, owner: string, repo: string)
  {
    var m := scheme + owner + "/" + repo;
    m <= url && (|m| == |url| || url[|m|] == '/')
  }

  /** The reference reading of a match of `https?://github\.com/([^/]+)/([^/]+)` at the
      start of `url` with groups `owner` and `repo`: one of the two schemes, then two
      segments of which the second is maximal (the greedy `+`). */
  predicate IsRepoMatch(url: string, owner: string, repo: string)
  {
    IsSegment(owner) && IsSegment(repo) &&
    (MatchesWith(url, HttpsPrefix, owner, repo) || MatchesWith(url, HttpPrefix, owner, repo))
  }

  /** `re.match(pattern, url)` followed by `match.groups()`: the scheme, then the greedy
      owner segment, which must be followed by '/', then the greedy repo segment. Only
      the start of the URL is anchored; anything after the repo segment is ignored. */
  function MatchRepoUrl(url: string): Option<(string, string)>
  {
    match SchemeEnd(url)
    case None => None
    case Some(k) => SegmentsOf(url[k..])
  }

  /** The matched groups of `rest` (what follows the scheme): the owner segment, the
      '/', and the repo segment that ends the match. */
  function SegmentsOf(rest: string): Option<(string, string)>
  {
    var owner := TakeUntilSlash(rest);
    if owner == [] || |owner| == |rest| then None
    else
      var repo := TakeUntilSlash(rest[|owner| + 1..]);
      if repo == [] then None else Some((owner, repo))
  }

  /** Every match the function reports is a match in the reference sense. */
  lemma MatchRepoUrlSound(url: string)
    requires MatchRepoUrl(url).Some?
    ensures IsRepoMatch(url, MatchRepoUrl(url).value.0, MatchRepoUrl(url).value.1)
  {
    var k := SchemeEnd(url).value;
    var rest := url[k..];
    assert MatchRepoUrl(url) == SegmentsOf(rest);
    var owner, repo := SegmentsOf(rest).value.0, SegmentsOf(rest).value.1;
    SegmentsOfSound(rest);
    if HttpsPrefix <= url {
      SchemeThenRest(url, HttpsPrefix, owner, repo);
    } else {
      SchemeThenRest(url, HttpPrefix, owner, repo);
    }
  }

  lemma SegmentsOfSound(rest: string)
    requires SegmentsOf(rest).Some?
    ensures var (owner, repo) := SegmentsOf(rest).value;
      IsSegment(owner) && IsSegment(repo) && owner + "/" + repo <= rest &&
      (|owner + "/" + repo| == |rest| || rest[|owner + "/" + repo|] == '/')
  {
    var owner := TakeUntilSlash(rest);
    var after := rest[|owner| + 1..];
    var repo := TakeUntilSlash(after);
    assert rest == owner + "/" + after;
    assert after == repo + after[|repo|..];
    assert rest == owner + "/" + repo + after[|repo|..];
  }

  lemma SchemeThenRest(url: string, scheme: string, owner: string, repo: string)
    requires scheme <= url
    requires var rest := url[|scheme|..];
      owner + "/" + repo <= rest &&
      (|owner + "/" + repo| == |rest| || rest[|owner + "/" + repo|] == '/')
    ensures MatchesWith(url, scheme, owner, repo)
  {
    var rest := url[|scheme|..];
    assert url == scheme + rest;
    var m := scheme + owner + "/" + repo;
    assert m == scheme + (owner + "/" + repo);
  }

  /** Every match in the reference sense is the one the function reports: the groups
      are determined by the URL. */
  lemma MatchRepoUrlComplete(url: string, owner: string, repo: string)
    requires IsRepoMatch(url, owner, repo)
    ensures MatchRepoUrl(url) == Some((owner, repo))
  {
    if MatchesWith(url, HttpsPrefix, owner, repo) {
      RestAfterScheme(url, HttpsPrefix, owner, repo);
      assert SchemeEnd(url) == Some(|HttpsPrefix|);
    } else {
      RestAfterScheme(url, HttpPrefix, owner, repo);
      assert url[4] == ':';
      assert SchemeEnd(url) == Some(|HttpPrefix|);
    }
  }

  lemma RestAfterScheme(url: string, scheme: string, owner: string, repo: string)
    requires IsSegment(owner) && IsSegment(repo)
    requires MatchesWith(url, scheme, owner, repo)
    ensures scheme <= url && SegmentsOf(url[|scheme|..]) == Some((owner, repo))
  {
    var rest := url[|scheme|..];
    var m := scheme + owner + "/" + repo;
    assert m[..|scheme|] == scheme;
    assert rest[..|owner + "/" + repo|] == m[|scheme|..] == owner + "/" + repo;
    MatchedSegments(rest, owner, repo);
  }

  /** The two greedy segments of `owner + "/" + repo + tail` are `owner` and `repo` when
      the tail is empty or starts a new segment. */
  lemma MatchedSegments(rest: string, owner: string, repo: string)
    requires IsSegment(owner) && IsSegment(repo)
    requires owner + "/" + repo <= rest
    requires |owner + "/" + repo| == |rest| || rest[|owner + "/" + repo|] == '/'
    ensures SegmentsOf(rest) == Some((owner, repo))
  {
    assert rest[|owner|] == '/';
    TakeUntilSlashUnique(rest, owner);
    var after := rest[|owner| + 1..];
    assert repo <= after;
    TakeUntilSlashUnique(after, repo);
  }

  /** `parse_repo_url`: "owner/repo" for a matching URL, otherwise the ValueError the
      source raises, with its message. */
  function ParseRepoUrl(url: string): Result<string, string>
  {
    match MatchRepoUrl(url)
    case Some((owner, repo)) => Ok(owner + "/" + repo)
    case None => Err("Invalid GitHub repository URL: " + url)
  }

  /** The parse succeeds exactly on URLs that match the pattern, and then yields the
      two groups joined by '/'. */
  lemma ParseRepoUrlMeaning(url: string)
    ensures ParseRepoUrl(url).Ok? ==> exists owner, repo ::
      IsRepoMatch(url, owner, repo) && ParseRepoUrl(url).value == owner + "/" + repo
    ensures ParseRepoUrl(url).Err? ==> forall owner, repo :: !IsRepoMatch(url, owner, repo)
    ensures ParseRepoUrl(url).Err? ==> ParseRepoUrl(url).error == "Invalid GitHub repository URL: " + url
  {
    if MatchRepoUrl(url).Some? {
      MatchRepoUrlSound(url);
    } else {
      forall owner, repo | IsRepoMatch(url, owner, repo) ensures false {
        MatchRepoUrlComplete(url, owner, repo);
      }
    }
  }

  /** On success the full name holds exactly one '/', between two non-empty segments. */
  lemma ParseRepoUrlShape(url: string)
    requires ParseRepoUrl(url).Ok?
    ensures var name := ParseRepoUrl(url).value;
      exists i :: 0 < i < |name| - 1 && name[i] == '/' &&
        NoSlash(name[..i]) && NoSlash(name[i + 1..])
  {
    var owner, repo := MatchRepoUrl(url).value.0, MatchRepoUrl(url).value.1;
    MatchRepoUrlSound(url);
    var name := owner + "/" + repo;
    assert name[..|owner|] == owner && name[|owner| + 1..] == repo;
  }

  /** A URL with trailing segments (a branch view such as ".../tree/main") names the
      same repository as the bare URL. */
  lemma ParseRepoUrlIgnoresTail(owner: string, repo: string, tail: string)
    requires IsSegment(owner) && IsSegment(repo)
    requires tail == [] || tail[0] == '/'
    ensures ParseRepoUrl(HttpsPrefix + owner + "/" + repo + tail) == Ok(owner + "/" + repo)
    ensures ParseRepoUrl(HttpPrefix + owner + "/" + repo + tail) == Ok(owner + "/" + repo)
  {
    var u1 := HttpsPrefix + owner + "/" + repo + tail;
    var m1 := HttpsPrefix + owner + "/" + repo;
    assert m1 <= u1 && (|m1| == |u1| || u1[|m1|] == '/');
    MatchRepoUrlComplete(u1, owner, repo);
    var u2 := HttpPrefix + owner + "/" + repo + tail;
    var m2 := HttpPrefix + owner + "/" + repo;
    assert m2 <= u2 && (|m2| == |u2| || u2[|m2|] == '/');
    MatchRepoUrlComplete(u2, owner, repo);
  }

  const GithubHttps := "https://github.com"

  /** The token is used when `GITHUB_TOKEN` is set to a non-empty string. */
  predicate HasToken(token: Option<string>)
  {
    token.Some? && token.value != []
  }

  /** The URL handed to `git clone` in `clone_repository`: with a token and an https
      GitHub URL, every "https://github.com" becomes "https://TOKEN@github.com". */
  function AuthRepoUrl(repoUrl: string, token: Option<string>): string
  {
    if HasToken(token) && Contains(repoUrl, GithubHttps)
    then ReplaceAll(repoUrl, GithubHttps, "https://" + token.value + "@github.com")
    else repoUrl
  }

  /** The URL is rewritten exactly when a token is set and the URL mentions
      "https://github.com"; otherwise it is passed to git unchanged. */
  lemma AuthRepoUrlChangesIff(repoUrl: string, token: Option<string>)
    ensures AuthRepoUrl(repoUrl, token) != repoUrl <==> HasToken(token) && Contains(repoUrl, GithubHttps)
  {
    if HasToken(token) && Contains(repoUrl, GithubHttps) {
      ReplaceAllGrows(repoUrl, GithubHttps, "https://" + token.value + "@github.com");
    }
  }

  /** For the usual repository URL the token lands right after the scheme. */
  lemma AuthRepoUrlOfRepositoryUrl(rest: string, token: string)
    requires token != []
    requires !Contains(rest, GithubHttps)
    ensures AuthRepoUrl(GithubHttps + rest, Some(token)) == "https://" + token + "@github.com" + rest
  {
    var url := GithubHttps + rest;
    assert GithubHttps <= url;
    assert Contains(url, GithubHttps);
    assert url[|GithubHttps|..] == rest;
    ReplaceAllAbsent(rest, GithubHttps, "https://" + token + "@github.com");
  }
}
