/**
 * The GitHub contents API as `download_file` addresses it: the cleaned
 * repository path, the metadata URL and the authorisation headers.
 */
module Api {
  import opened Wrappers
  import opened Http

  /** The first index at or after `k` that does not hold '/', or `|s|`. */
  function SkipSlashes(s: string, k: nat): (i: nat)
    requires k <= |s|
    ensures k <= i <= |s| && SlashesIn(s, k, i) && (i == |s| || s[i] != '/')
    decreases |s| - k
  {
    if k < |s| && s[k] == '/' then SkipSlashes(s, k + 1) else k
  }

  /** The end of `s[lo..k]` once its trailing '/' characters are cut off. */
  function SkipSlashesBack(s: string, lo: nat, k: nat): (j: nat)
    requires lo <= k <= |s|
    ensures lo <= j <= k && SlashesIn(s, j, k) && (j == lo || s[j - 1] != '/')
    decreases k
  {
    if lo < k && s[k - 1] == '/' then SkipSlashesBack(s, lo, k - 1) else k
  }

  /**
   * `i..j` cuts `s` into a run of '/' before, a core that neither starts nor
   * ends with '/', and a run of '/' after: what `str.strip("/")` keeps.
   */
  predicate StripCut(s: string, i: int, j: int) {
    0 <= i <= j <= |s| && SlashesIn(s, 0, i) && SlashesIn(s, j, |s|)
    && (i == j || (s[i] != '/' && s[j - 1] != '/'))
  }

  /** `_strip_slashes`, i.e. `str.strip("/")`: the result neither starts nor ends with '/'. */
  function StripSlashes(s: string): (r: string)
    ensures r == [] || (r[0] != '/' && r[|r| - 1] != '/')
  {
    var i := SkipSlashes(s, 0);
    var j := SkipSlashesBack(s, i, |s|);
    s[i..j]
  }

  /** What `StripSlashes` keeps is the core of a cut that removes nothing but '/' from either end. */
  lemma StripSlashesCuts(s: string)
    ensures exists i, j :: StripCut(s, i, j) && StripSlashes(s) == s[i..j]
  {
    var i := SkipSlashes(s, 0);
    var j := SkipSlashesBack(s, i, |s|);
    assert StripCut(s, i, j) && StripSlashes(s) == s[i..j];
  }

  /** Every character of `s` from `lo` up to `hi` is '/'. */
  predicate SlashesIn(s: string, lo: int, hi: int)
    requires 0 <= lo && hi <= |s|
  {
    forall k :: lo <= k < hi ==> s[k] == '/'
  }

  /** Only one cut has the shape `StripCut` describes, and `StripSlashes` keeps its core. */
  lemma StripSlashesUnique(s: string, i: nat, j: nat)
    requires StripCut(s, i, j)
    ensures StripSlashes(s) == s[i..j]
  {
    var a := SkipSlashes(s, 0);
    var b := SkipSlashesBack(s, a, |s|);
    if i < j {
      assert a == i;
      assert b == j;
    } else {
      assert a == |s|;
    }
  }

  /** Stripping twice is stripping once. */
  lemma StripSlashesIdempotent(s: string)
    ensures StripSlashes(StripSlashes(s)) == StripSlashes(s)
  {
    var r := StripSlashes(s);
    assert r[0..|r|] == r;
    StripSlashesUnique(r, 0, |r|);
  }

  /** A slash in front of a repository path does not change the path the API is asked for. */
  lemma StripSlashesIgnoresLeadingSlash(s: string)
    ensures StripSlashes("/" + s) == StripSlashes(s)
  {
    var t := "/" + s;
    var i := SkipSlashes(s, 0);
    var j := SkipSlashesBack(s, i, |s|);
    assert SlashesIn(t, 0, i + 1) by {
      forall k | 0 <= k < i + 1 ensures t[k] == '/' {
        if k > 0 { assert t[k] == s[k - 1]; assert SlashesIn(s, 0, i); }
      }
    }
    assert SlashesIn(t, j + 1, |t|) by {
      forall k | j + 1 <= k < |t| ensures t[k] == '/' {
        assert t[k] == s[k - 1]; assert SlashesIn(s, j, |s|);
      }
    }
    assert t[i + 1..j + 1] == s[i..j];
    assert i < j ==> t[i + 1] == s[i] && t[j] == s[j - 1];
    StripSlashesUnique(t, i + 1, j + 1);
  }

  /** A slash after a repository path does not change the path the API is asked for. */
  lemma StripSlashesIgnoresTrailingSlash(s: string)
    ensures StripSlashes(s + "/") == StripSlashes(s)
  {
    var t := s + "/";
    var i := SkipSlashes(s, 0);
    var j := SkipSlashesBack(s, i, |s|);
    assert SlashesIn(t, j, |t|) by {
      forall k | j <= k < |t| ensures t[k] == '/' {
        if k < |s| { assert t[k] == s[k]; assert SlashesIn(s, j, |s|); }
      }
    }
    assert t[i..j] == s[i..j];
    if i == j {
      assert SlashesIn(t, 0, j) by {
        forall k | 0 <= k < j ensures t[k] == '/' { assert t[k] == s[k]; assert SlashesIn(s, 0, i); }
      }
      StripSlashesUnique(t, j, j);
    } else {
      assert SlashesIn(t, 0, i) by {
        forall k | 0 <= k < i ensures t[k] == '/' { assert t[k] == s[k]; assert SlashesIn(s, 0, i); }
      }
      assert t[i] == s[i] && t[j - 1] == s[j - 1];
      StripSlashesUnique(t, i, j);
    }
  }

  const ApiRoot := "https://api.github.com/repos/"
  const MetadataAccept := "application/vnd.github.v3+json"
  const RawAccept := "application/octet-stream"
  const TokenScheme := "token "

  /** `if not token`: only a present, non-empty token lets a download start. */
  predicate HasToken(token: Option<string>) {
    token.Some? && token.value != ""
  }

  /** The token an `Authorization: token <value>` header carries, if any. */
  function TokenOf(headers: map<string, string>): Option<string> {
    if "Authorization" in headers && |TokenScheme| <= |headers["Authorization"]|
       && headers["Authorization"][..|TokenScheme|] == TokenScheme
    then Some(headers["Authorization"][|TokenScheme|..])
    else None
  }

  /** The two headers each API request carries: the token, and what to accept. */
  function AuthHeaders(token: string, accept: string): (h: map<string, string>)
    ensures h.Keys == {"Authorization", "Accept"} && h["Accept"] == accept
  {
    map["Authorization" := TokenScheme + token, "Accept" := accept]
  }

  /** The `Authorization` header carries exactly the token it was built from. */
  lemma AuthHeadersCarryToken(token: string, accept: string)
    ensures TokenOf(AuthHeaders(token, accept)) == Some(token)
  {
    var h := AuthHeaders(token, accept);
    assert h["Authorization"][..|TokenScheme|] == TokenScheme;
    assert h["Authorization"][|TokenScheme|..] == token;
  }

  /** `https://api.github.com/repos/{owner}/{repo}/contents/{path}?ref={branch}`. */
  function MetadataUrl(owner: string, repo: string, path: string, branch: string): string {
    ApiRoot + owner + "/" + repo + "/contents/" + path + "?ref=" + branch
  }

  /**
   * Within one repository and branch the metadata URL names the path it was
   * built from: two different repository paths never share a request.
   */
  lemma {:induction false} MetadataUrlDistinguishesPaths(owner: string, repo: string, path: string, path': string, branch: string)
    requires MetadataUrl(owner, repo, path, branch) == MetadataUrl(owner, repo, path', branch)
    ensures path == path'
  {
    var pre := ApiRoot + owner + "/" + repo + "/contents/";
    var post := "?ref=" + branch;
    var u := MetadataUrl(owner, repo, path, branch);
    assert u == pre + path + post;
    assert u == pre + path' + post;
    assert |path| == |path'|;
    assert path == u[|pre|..|pre| + |path|];
    assert path' == u[|pre|..|pre| + |path|];
  }

  /** The metadata GET `download_file` sends for a repository path. */
  function MetadataRequest(owner: string, repo: string, path: string, branch: string, token: string): (r: Request)
    ensures r.url == MetadataUrl(owner, repo, StripSlashes(path), branch)
    ensures "Accept" in r.headers && r.headers["Accept"] == MetadataAccept
  {
    Get(MetadataUrl(owner, repo, StripSlashes(path), branch), AuthHeaders(token, MetadataAccept))
  }

  /** The metadata GET is authorised with the caller's token. */
  lemma MetadataRequestCarriesToken(owner: string, repo: string, path: string, branch: string, token: string)
    ensures TokenOf(MetadataRequest(owner, repo, path, branch, token).headers) == Some(token)
  {
    AuthHeadersCarryToken(token, MetadataAccept);
  }

  /** Asking for "/p", "p/" or "p" sends the same metadata request. */
  lemma MetadataRequestIgnoresOuterSlashes(owner: string, repo: string, path: string, branch: string, token: string)
    ensures MetadataRequest(owner, repo, "/" + path, branch, token) == MetadataRequest(owner, repo, path, branch, token)
    ensures MetadataRequest(owner, repo, path + "/", branch, token) == MetadataRequest(owner, repo, path, branch, token)
  {
    StripSlashesIgnoresLeadingSlash(path);
    StripSlashesIgnoresTrailingSlash(path);
  }
}
