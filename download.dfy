/**
 * `download_file` as the program runs it: against the mutable world, one
 * step after another, with the loop over a listing's entries keeping
 * `all_success`. Each method is proved to do exactly what the functions of
 * `Tree` say, so everything proved there holds of it.
 */
module Download {
  import opened Wrappers
  import opened Paths
  import opened FileSystem
  import opened Api
  import opened Env
  import opened Transfer
  import opened Retry
  import opened Tree

  /** Fetching a file's content to `dest` with the chosen transfer. */
  method FetchFile(w: World, fetch: Fetcher, dest: Path, url: string, token: string, content: Http.Script)
    returns (ok: bool)
    modifies w
    ensures Done(ok, w.Snapshot()) == Fetch(fetch, old(w.Snapshot()), dest, url, token, content)
  {
    match fetch
    case Direct =>
      var report;
      ok, report := PerformDownloadAndSave(w, url, AuthHeaders(token, RawAccept), dest, content.At(0));
    case Retrying(policy, quiet) =>
      if dest.Here? {
        return false;
      }
      ok := DownloadAndSaveFile(w, RawRequest(url, token), dest, policy, content, quiet);
  }

  /**
   * `download_file(owner, repo, path, branch, out)`: every call it makes
   * meets what `node` says.
   */
  method DownloadFile(w: World, owner: string, repo: string, path: string, branch: string, out: Path,
                      fetch: Fetcher, node: Node)
    returns (ok: bool)
    modifies w
    ensures Done(ok, w.Snapshot()) == Materialize(owner, repo, path, branch, out, fetch, node, old(w.Snapshot()))
    decreases node, 2
  {
    if !HasToken(node.token) {
      return false;
    }
    var token := node.token.value;
    ghost var s := w.Snapshot();
    w.Get(MetadataRequest(owner, repo, path, branch, token));
    ghost var s0 := w.Snapshot();
    assert s0 == Asked(owner, repo, path, branch, token, s);
    assert Materialize(owner, repo, path, branch, out, fetch, node, s) == Respond(owner, repo, path, branch, out, fetch, node, s0);
    match node.meta {
      case MetaFailed(_) =>
        ok := false;
      case OtherShape =>
        ok := false;
      case FileInfo(name, url, content) =>
        ok := SaveFileTo(w, out, fetch, StripSlashes(path), name, url, content, token);
      case Listing(entries) =>
        ok := ListDirectory(w, owner, repo, path, branch, out, fetch, node);
    }
  }

  /** The file branch: the target is chosen, its directory made, and the content fetched. */
  method SaveFileTo(w: World, out: Path, fetch: Fetcher, clean: string, name: Option<string>, url: Option<string>,
                    content: Http.Script, token: string)
    returns (ok: bool)
    modifies w
    ensures Done(ok, w.Snapshot()) == SaveFile(out, fetch, clean, name, url, content, token, old(w.Snapshot()))
  {
    if !Present(url) {
      return false;
    }
    var fileName := name.GetOr(LastSegment(clean));
    var target := FileTarget(out, fileName, out in w.dirs, out in w.files || out in w.dirs, HasSuffix(Name(out)));
    assert target == TargetOf(out, fileName, w.State());
    var made := w.MakeDirs(Parent(target));
    if !made {
      return false;
    }
    ok := FetchFile(w, fetch, target, url.value, token, content);
  }

  /** The directory branch: the base directory is made, then the loop runs. */
  method ListDirectory(w: World, owner: string, repo: string, path: string, branch: string, out: Path,
                       fetch: Fetcher, node: Node)
    returns (ok: bool)
    requires node.meta.Listing?
    modifies w
    ensures match ListDir(owner, repo, path, branch, out, fetch, node, old(w.Snapshot()))
            case None => !ok && w.Snapshot() == old(w.Snapshot())
            case Some(r) => ok == r.ok && w.Snapshot() == r.at
    decreases node, 1
  {
    var base := DirBase(out, StripSlashes(path), out in w.dirs, out in w.files || out in w.dirs, HasSuffix(Name(out)));
    assert base == BaseOf(path, out, w.State());
    var made := w.MakeDirs(base);
    if !made {
      return false;
    }
    ok := DownloadEntries(w, owner, repo, branch, base, fetch, node, node.meta.entries);
  }

  /**
   * The loop over a listing: malformed entries are skipped and clear
   * `all_success`; each other entry is downloaded into `base` by a recursive
   * call, whose failure clears `all_success` without stopping the loop.
   */
  method DownloadEntries(w: World, owner: string, repo: string, branch: string, base: Path, fetch: Fetcher,
                         parent: Node, entries: seq<Entry>)
    returns (allSuccess: bool)
    requires parent.meta == Listing(entries)
    modifies w
    ensures var r := Entries(owner, repo, branch, base, fetch, parent, entries, 0, Walk(true, old(w.Snapshot()), []));
            allSuccess == r.ok && w.Snapshot() == r.at
    decreases parent, 0
  {
    allSuccess := true;
    ghost var visits: seq<Visit> := [];
    ghost var start := Walk(true, w.Snapshot(), []);
    var i := 0;
    while i < |entries|
      invariant i <= |entries| && |visits| == i
      invariant Entries(owner, repo, branch, base, fetch, parent, entries, 0, start)
             == Entries(owner, repo, branch, base, fetch, parent, entries, i, Walk(allSuccess, w.Snapshot(), visits))
    {
      var e := entries[i];
      ghost var before := w.Snapshot();
      if !Present(e.name) || !Present(e.kind) || !Present(e.path) {
        allSuccess := false;
        visits := visits + [Skipped(before)];
      } else {
        var success := DownloadFile(w, owner, repo, e.path.value, branch, base, fetch, e.child);
        visits := visits + [Visited(before, Done(success, w.Snapshot()))];
        if !success {
          allSuccess := false;
        }
      }
      i := i + 1;
    }
  }
}
