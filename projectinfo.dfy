/** pkg/projectinfo/projectinfo.go: the proxy's name and the short form of a
    git commit hash. */
module ProjectInfo {
  import opened Strs

  /** GetProxyName: the fixed name of the proxy. */
  function GetProxyName(): (name: string)
    ensures name == "edge-proxy"
  {
    "edge-proxy"
  }

  /** normalizeGitCommit: at most the first seven characters of the commit. */
  function NormalizeGitCommit(commit: string): (r: string)
    ensures |r| <= 7
    ensures HasPrefix(commit, r)
    ensures |commit| <= 7 ==> r == commit
    ensures |commit| > 7 ==> |r| == 7
  {
    if |commit| > 7 then commit[..7] else commit
  }

  /** Normalizing a normalized commit changes nothing. */
  lemma NormalizeGitCommitIdempotent(commit: string)
    ensures NormalizeGitCommit(NormalizeGitCommit(commit)) == NormalizeGitCommit(commit)
  {
  }
}
