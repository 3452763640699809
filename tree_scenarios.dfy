/**
 * End-to-end runs of `download_file` that the repository's tests pin down.
 */
module TreeScenarios {
  import opened Wrappers
  import opened Paths
  import opened FileSystem
  import opened Http
  import opened Api
  import opened Env
  import opened Retry
  import opened Tree

  /** The test's `output_path`, "downloaded.txt", has a suffix. */
  lemma DownloadedTxtHasSuffix()
    ensures HasSuffix("downloaded.txt")
  {
    assert LastIndexOf("downloaded.txt", '.') == 10 by {
      assert "downloaded.txt"[..13] == "downloaded.tx";
      assert "downloaded.tx"[..12] == "downloaded.t";
      assert "downloaded.t"[..11] == "downloaded.";
    }
  }

  /** The retried fetch of the integration test: two GETs, the second one saved at `out`. */
  lemma {:induction false} RecoveredFetch(d: Disk, tmp: Path, outName: string, s0: Snap, url: string, token: string,
                                          c: Bytes, later: Reply, quiet: bool)
    requires d.Valid() && tmp in d.dirs && outName != "" && s0.disk == d
    requires !d.Exists(Sub(tmp, outName)) && TmpPath(Sub(tmp, outName)) !in d.dirs
    ensures var f := Fetch(Retrying(MaxRetries(1), quiet), s0, Sub(tmp, outName), url, token,
                           Script([Failed(ConnectionLost), Delivered([c])], later));
            && f.ok && Sub(tmp, outName) in f.after.disk.files && f.after.disk.files[Sub(tmp, outName)] == c
            && f.after.log == s0.log + [RawRequest(url, token), RawRequest(url, token)]
  {
    var script := Script([Failed(ConnectionLost), Delivered([c])], later);
    MakeDirsOfDir(d, tmp);
    assert script.At(0) == Failed(ConnectionLost) && script.At(1) == Delivered([c]);
    RecoversAfterTransients(d, Sub(tmp, outName), MaxRetries(1), script, 1);
    assert Repeat(RawRequest(url, token), 2) == [RawRequest(url, token), RawRequest(url, token)];
  }

  /**
   * tests/test_retry.py, the integration test: the metadata names a file
   * and gives its download URL; the first GET of the content loses the
   * connection and the second delivers it. With `max_retries=1` and
   * `output_path` a fresh name with a suffix ("downloaded.txt") in an
   * existing directory, the call succeeds, the body lands at `output_path`
   * itself, and three GETs were sent: the metadata, then the download URL
   * twice.
   */
  lemma {:induction false} RetryIntegration(owner: string, repo: string, path: string, branch: string, token: string,
                                            fileName: string, url: string, d: Disk, tmp: Path, outName: string,
                                            c: Bytes, later: Reply, quiet: bool)
    requires token != "" && url != "" && outName != "" && HasSuffix(outName)
    requires d.Valid() && tmp in d.dirs
    requires !d.Exists(Sub(tmp, outName)) && TmpPath(Sub(tmp, outName)) !in d.dirs
    ensures var out := Sub(tmp, outName);
            var node := Node(Some(token), FileInfo(Some(fileName), Some(url), Script([Failed(ConnectionLost), Delivered([c])], later)));
            var r := Materialize(owner, repo, path, branch, out, Retrying(MaxRetries(1), quiet), node, Snap(d, [], [], 0));
            && r.ok && out in r.after.disk.files && r.after.disk.files[out] == c
            && r.after.log == [MetadataRequest(owner, repo, path, branch, token), RawRequest(url, token), RawRequest(url, token)]
  {
    var out := Sub(tmp, outName);
    var script := Script([Failed(ConnectionLost), Delivered([c])], later);
    var node := Node(Some(token), FileInfo(Some(fileName), Some(url), script));
    var fetch := Retrying(MaxRetries(1), quiet);
    var s := Snap(d, [], [], 0);
    var s0 := Asked(owner, repo, path, branch, token, s);
    assert TargetOf(out, fileName, d) == out;
    MakeDirsOfDir(d, tmp);
    RecoveredFetch(d, tmp, outName, s0, url, token, c, later, quiet);
    var f := Fetch(fetch, s0, out, url, token, script);
    assert SaveFile(out, fetch, StripSlashes(path), Some(fileName), Some(url), script, token, s0) == f;
    assert Materialize(owner, repo, path, branch, out, fetch, node, s)
        == Respond(owner, repo, path, branch, out, fetch, node, s0) == f;
  }
}
