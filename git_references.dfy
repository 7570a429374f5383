/**
  Repository identity: the remote URL check and the `.git` strip done by
  `calculate_git_references`. The remote URL, the branch name and the tip
  commit are the strings the version-control client reports.
 */
module GitReferences {
  import opened Outcomes

  const GitHubPrefix: string := "https://github.com"
  const GitSuffix: string := ".git"

  predicate EndsWith(s: string, suffix: string) {
    |suffix| <= |s| && s[|s| - |suffix|..] == suffix
  }

  /** The identity triple: plain web URL, branch name, commit hash. */
  datatype References = References(url: string, branch: string, commit: string)

  /** Removes one trailing `.git`, if there is one. */
  function StripGitSuffix(url: string): (r: string)
    ensures r <= url
    ensures EndsWith(url, GitSuffix) ==> |r| == |url| - 4 && r + GitSuffix == url
    ensures !EndsWith(url, GitSuffix) ==> r == url
  {
    if EndsWith(url, GitSuffix) then url[..|url| - 4] else url
  }

  /**
    A GitHub remote keeps its prefix after the strip: the `.git` never
    overlaps the prefix, because the prefix itself ends in `.com`.
   */
  lemma StripKeepsGitHubPrefix(url: string)
    requires GitHubPrefix <= url
    ensures GitHubPrefix <= StripGitSuffix(url)
  {
    if EndsWith(url, GitSuffix) {
      var k := |url| - |GitSuffix|;
      assert url[k] == '.' && url[k + 1] == 'g' by {
        assert url[k..][0] == url[k] && url[k..][1] == url[k + 1];
      }
      assert forall j :: 0 <= j < |GitHubPrefix| ==>
        url[j] == GitHubPrefix[j] && (GitHubPrefix[j] == '.' ==> j == 14);
      assert k >= |GitHubPrefix|;
    }
  }

  /**
    `calculate_git_references`: refuses a remote that is not an HTTPS GitHub
    URL, and otherwise returns the stripped URL with the branch and commit
    unchanged.
   */
  function CalculateGitReferences(remoteUrl: string, branch: string, commit: string): (r: Result<References>)
    ensures r.Failure? <==> !(GitHubPrefix <= remoteUrl)
    ensures r.Failure? ==> r.error == RemoteNotGitHub
    ensures r.Success? ==> r.value.url == StripGitSuffix(remoteUrl)
    ensures r.Success? ==> GitHubPrefix <= r.value.url && r.value.url <= remoteUrl
    ensures r.Success? ==> (EndsWith(remoteUrl, GitSuffix) <==> r.value.url + GitSuffix == remoteUrl)
    ensures r.Success? ==> r.value.branch == branch && r.value.commit == commit
  {
    if !(GitHubPrefix <= remoteUrl) then
      Failure(RemoteNotGitHub)
    else
      StripKeepsGitHubPrefix(remoteUrl);
      Success(References(StripGitSuffix(remoteUrl), branch, commit))
  }
}
