/** `getRepoName` of main.ts: the repository name a Git URL ends with, as
    the regular expression /\/([^\/]+?)(?:\.git)?$/ picks it out.

    `GetRepoName` follows the regular-expression engine step by step;
    `RepoNameSpec` is the closed form (the text after the last '/', with one
    trailing ".git" removed when something remains); the lemma
    `GetRepoNameIsLastSegment` shows the two agree on every string. */
module RepoName {
  import opened Wrappers

  const InvalidGitUrl := "Invalid Git URL"
  const GitSuffix := ".git"

  /** The lazy group `([^\/]+?)` followed by `(?:\.git)?$`. The capture
      holds the characters before `p`; take the character at `p` (it must
      not be '/'), then accept when what remains is ".git" or nothing, and
      otherwise take one more. The result is the end of the capture. */
  function LazyEnd(s: string, p: nat): (e: Option<nat>)
    requires p <= |s|
    ensures e.Some? ==> p < e.value <= |s| && '/' !in s[p..e.value]
    decreases |s| - p
  {
    if p == |s| || s[p] == '/' then None
    else if s[p + 1..] == GitSuffix || p + 1 == |s| then Some(p + 1)
    else
      var e := LazyEnd(s, p + 1);
      assert e.Some? ==> s[p..e.value] == [s[p]] + s[p + 1..e.value];
      e
  }

  /** The leftmost match starting at or after `i`: the bounds of the
      capture group. A match starts at a '/' that the lazy group can follow. */
  function Search(s: string, i: nat): (m: Option<(nat, nat)>)
    requires i <= |s|
    ensures m.Some? ==> i < m.value.0 < m.value.1 <= |s| && s[m.value.0 - 1] == '/'
    ensures m.Some? ==> '/' !in s[m.value.0..m.value.1]
    decreases |s| - i
  {
    if i == |s| then None
    else if s[i] == '/' && LazyEnd(s, i + 1).Some? then Some((i + 1, LazyEnd(s, i + 1).value))
    else Search(s, i + 1)
  }

  /** `getRepoName(gitUrl)`: the capture of the first match, or the
      "Invalid Git URL" error when the expression does not match. */
  function GetRepoName(gitUrl: string): (r: Result<string, string>)
    ensures r.Ok? ==> r.value != [] && '/' !in r.value
    ensures r.Err? ==> r.error == InvalidGitUrl
  {
    match Search(gitUrl, 0)
    case Some((start, end)) => Ok(gitUrl[start..end])
    case None => Err(InvalidGitUrl)
  }

  /** Index of the last '/' in `s`, if any. */
  function LastSlash(s: string): (k: Option<nat>)
    ensures k.Some? ==> k.value < |s| && s[k.value] == '/' && '/' !in s[k.value + 1..]
    ensures k.None? ==> '/' !in s
  {
    if s == [] then None
    else if s[|s| - 1] == '/' then Some(|s| - 1)
    else
      var k := LastSlash(s[..|s| - 1]);
      assert s == s[..|s| - 1] + [s[|s| - 1]];
      assert k.Some? ==> s[k.value + 1..] == s[..|s| - 1][k.value + 1..] + [s[|s| - 1]];
      k
  }

  /** Removes one trailing ".git", provided something is left. */
  function StripGitSuffix(t: string): string
  {
    if |t| > |GitSuffix| && t[|t| - |GitSuffix|..] == GitSuffix then t[..|t| - |GitSuffix|] else t
  }

  /** The repository name in closed form: the text after the last '/',
      without one trailing ".git"; an error when there is no '/' or
      nothing follows the last one. */
  function RepoNameSpec(gitUrl: string): Result<string, string>
  {
    match LastSlash(gitUrl)
    case None => Err(InvalidGitUrl)
    case Some(k) =>
      if k + 1 == |gitUrl| then Err(InvalidGitUrl) else Ok(StripGitSuffix(gitUrl[k + 1..]))
  }

  /** Where the lazy group stops when nothing after `p` is a '/': just
      before a trailing ".git" if at least one character precedes it,
      otherwise at the end. */
  function LazyTarget(s: string, p: nat): nat
    requires p < |s|
  {
    if p + 1 <= |s| - |GitSuffix| && s[|s| - |GitSuffix|..] == GitSuffix then |s| - |GitSuffix| else |s|
  }

  /** A later '/' stops the lazy group before it can reach the end. */
  lemma {:induction false} LazyEndBlocked(s: string, p: nat, q: nat)
    requires p <= q < |s| && s[q] == '/'
    ensures LazyEnd(s, p) == None
    decreases q - p
  {
    if p < q && s[p] != '/' {
      assert s[p + 1..][q - p - 1] == '/';
      assert '/' !in GitSuffix;
      LazyEndBlocked(s, p + 1, q);
    }
  }

  /** With no '/' ahead, the lazy group ends at `LazyTarget`. */
  lemma {:induction false} LazyEndFree(s: string, p: nat)
    requires p < |s| && '/' !in s[p..]
    ensures LazyEnd(s, p) == Some(LazyTarget(s, p))
    decreases |s| - p
  {
    assert s[p] == s[p..][0];
    if s[p + 1..] == GitSuffix {
      assert |s| - |GitSuffix| == p + 1;
    } else if p + 1 == |s| {
    } else {
      assert s[p + 1..] == s[p..][1..];
      LazyEndFree(s, p + 1);
    }
  }

  /** Without a '/' from `i` on there is no match. */
  lemma {:induction false} SearchNoSlash(s: string, i: nat)
    requires i <= |s| && '/' !in s[i..]
    ensures Search(s, i) == None
    decreases |s| - i
  {
    if i < |s| {
      assert s[i] == s[i..][0];
      assert s[i + 1..] == s[i..][1..];
      SearchNoSlash(s, i + 1);
    }
  }

  /** The search skips every '/' but the last one `k`, and matches there
      exactly when something follows it. */
  lemma {:induction false} SearchFindsLastSlash(s: string, i: nat, k: nat)
    requires i <= k < |s| && s[k] == '/' && '/' !in s[k + 1..]
    ensures Search(s, i) == if k + 1 == |s| then None else Some((k + 1, LazyTarget(s, k + 1)))
    decreases k - i
  {
    if i < k {
      if s[i] == '/' {
        LazyEndBlocked(s, i + 1, k);
      }
      SearchFindsLastSlash(s, i + 1, k);
    } else if k + 1 == |s| {
      assert Search(s, k + 1) == None;
    } else {
      LazyEndFree(s, k + 1);
    }
  }

  /** The regular-expression model and the closed form agree everywhere. */
  lemma GetRepoNameIsLastSegment(gitUrl: string)
    ensures GetRepoName(gitUrl) == RepoNameSpec(gitUrl)
  {
    match LastSlash(gitUrl)
    case None =>
      assert gitUrl[0..] == gitUrl;
      SearchNoSlash(gitUrl, 0);
    case Some(k) =>
      SearchFindsLastSlash(gitUrl, 0, k);
      if k + 1 < |gitUrl| {
        LazyTargetStrips(gitUrl, k + 1);
      }
  }

  /** The capture that ends at `LazyTarget` is the text from `p` on with
      one trailing ".git" stripped. */
  lemma LazyTargetStrips(s: string, p: nat)
    requires p < |s|
    ensures s[p..LazyTarget(s, p)] == StripGitSuffix(s[p..])
  {
    var t, n := s[p..], |s|;
    if |t| > |GitSuffix| {
      assert t[|t| - |GitSuffix|..] == s[n - |GitSuffix|..];
      assert t[..|t| - |GitSuffix|] == s[p..n - |GitSuffix|];
    }
    assert t == s[p..n];
  }

  /** `getRepoName` succeeds exactly when the URL contains a '/' and does
      not end with one. */
  lemma RepoNameDefinedIff(gitUrl: string)
    ensures GetRepoName(gitUrl).Ok? <==> '/' in gitUrl && gitUrl[|gitUrl| - 1] != '/'
  {
    GetRepoNameIsLastSegment(gitUrl);
    match LastSlash(gitUrl)
    case None =>
    case Some(k) =>
      if k + 1 < |gitUrl| {
        assert gitUrl[|gitUrl| - 1] == gitUrl[k + 1..][|gitUrl| - 1 - (k + 1)];
      }
  }

  /** A usual clone URL: the name before ".git" after the last '/'. */
  lemma RepoNameOfCloneUrl()
    ensures GetRepoName("h/o/r.git") == Ok("r")
  {
    var u := "h/o/r.git";
    assert LastSlash(u) == Some(3) by {
      assert u[..8] == "h/o/r.gi" && u[..8][..7] == "h/o/r.g";
      assert u[..8][..7][..6] == "h/o/r." && u[..8][..7][..6][..5] == "h/o/r";
      assert u[..8][..7][..6][..5][..4] == "h/o/";
    }
    assert u[4..] == "r.git";
    assert "r.git"[..1] == "r";
    GetRepoNameIsLastSegment(u);
  }

  /** A name that is only ".git" is kept, since the lazy group must take
      at least one character. */
  lemma RepoNameOfBareGit()
    ensures GetRepoName("h/.git") == Ok(".git")
  {
    var u := "h/.git";
    assert LastSlash(u) == Some(1) by {
      assert u[..5] == "h/.gi" && u[..5][..4] == "h/.g";
      assert u[..5][..4][..3] == "h/." && u[..5][..4][..3][..2] == "h/";
    }
    assert u[2..] == ".git";
    GetRepoNameIsLastSegment(u);
  }

  /** The name is a single segment without '/', but nothing keeps it from
      being "..". */
  lemma RepoNameOfDotDot()
    ensures GetRepoName("h/..") == Ok("..")
  {
    var u := "h/..";
    assert LastSlash(u) == Some(1) by {
      assert u[..3] == "h/." && u[..3][..2] == "h/";
    }
    assert u[2..] == "..";
    GetRepoNameIsLastSegment(u);
  }

  /** A URL that ends with '/' or has no '/' is refused. */
  lemma RepoNameRefused()
    ensures GetRepoName("h/r/") == Err(InvalidGitUrl)
    ensures GetRepoName("r.git") == Err(InvalidGitUrl)
  {
    RepoNameDefinedIff("h/r/");
    RepoNameDefinedIff("r.git");
  }
}
