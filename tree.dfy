/**
 * `download_file`: fetch the metadata of a repository path, then either save
 * the one file it names or make a local directory and download every entry
 * of the listing into it, recursively, one entry after another.
 *
 * Every call of `download_file` asks the gh CLI for a token and sends one
 * metadata GET; what it gets back is an input, a `Node`. A listing's entries
 * carry the `Node` their own recursive call meets, so a whole run is
 * described by one finite tree of replies.
 */
module Tree {
  import opened Wrappers
  import opened Paths
  import opened FileSystem
  import opened Http
  import opened Api
  import opened Errors
  import opened Env
  import opened Transfer
  import opened Retry

  /** What one call of `download_file` meets: the token it obtains, and the reply to its metadata GET. */
  datatype Node = Node(token: Option<string>, meta: Meta)

  /** The reply to the metadata GET, after `raise_for_status()` and `json()`. */
  datatype Meta =
    | MetaFailed(failure: Failure)
      /** A dict whose "type" is "file"; `content` is what the GETs of its `download_url` receive. */
    | FileInfo(name: Option<string>, downloadUrl: Option<string>, content: Script)
      /** A list: the directory's entries, in the order the API returns them. */
    | Listing(entries: seq<Entry>)
      /** Any other JSON value: a dict of another "type", a string, a number, ... */
    | OtherShape

  /** One item of a listing: its "name", "type" and "path" fields, and what the call for it meets. */
  datatype Entry = Entry(name: Option<string>, kind: Option<string>, path: Option<string>, child: Node)

  /** A JSON field is truthy: present and not the empty string. */
  predicate Present(s: Option<string>) {
    s.Some? && s.value != ""
  }

  /** An entry the loop recurses into rather than skipping. */
  predicate WellFormed(e: Entry) {
    Present(e.name) && Present(e.kind) && Present(e.path)
  }

  /**
   * How a file is fetched: `_perform_download_and_save` (one GET written
   * straight to the target), or the retrying transfer with its policy and
   * its `quiet` flag.
   */
  datatype Fetcher = Direct | Retrying(policy: Policy, quiet: bool)

  /** What a call returned, and the world it left behind. */
  datatype Done = Done(ok: bool, after: Snap)

  /**
   * Where a single file goes, from what `output_path` is on disk: inside it
   * when it is a directory, or when it does not exist, is not already named
   * after the file and has no suffix (it looks like a directory to be); at
   * `output_path` itself otherwise.
   */
  function FileTarget(out: Path, fileName: string, isDir: bool, present: bool, hasSuffix: bool): (t: Path)
    ensures t == out || t == Join(out, fileName)
    ensures isDir ==> t == Join(out, fileName)
    ensures !isDir && present ==> t == out
    ensures !isDir && hasSuffix ==> t == out
    ensures !isDir && Name(out) == fileName ==> t == out
    ensures !present && !hasSuffix && Name(out) != fileName ==> t == Join(out, fileName)
  {
    if isDir || (!present && Name(out) != fileName && !hasSuffix) then Join(out, fileName) else out
  }

  /**
   * Where a directory's entries go: a new directory named after the
   * repository folder inside `output_path`, unless the repository root is
   * requested, `output_path` has a suffix, or it exists as a non-directory.
   */
  function DirBase(out: Path, clean: string, isDir: bool, present: bool, hasSuffix: bool): (b: Path)
    ensures b == out || b == Join(out, LastSegment(clean))
    ensures clean == [] || hasSuffix || (present && !isDir) ==> b == out
    ensures clean != [] && !hasSuffix && (isDir || !present) ==> b == Join(out, LastSegment(clean))
  {
    var name := LastSegment(clean);
    if clean != [] && !hasSuffix && (isDir || !present) then Join(out, name) else out
  }

  /** The GET of a file's `download_url`, with the raw-content headers. */
  function RawRequest(url: string, token: string): (r: Request)
    ensures r.url == url && "Accept" in r.headers && r.headers["Accept"] == RawAccept
  {
    Get(url, AuthHeaders(token, RawAccept))
  }

  /** The content GET is authorised with the same token as the metadata GET. */
  lemma RawRequestCarriesToken(url: string, token: string)
    ensures TokenOf(RawRequest(url, token).headers) == Some(token)
  {
    AuthHeadersCarryToken(token, RawAccept);
  }

  /**
   * Fetching a file's content to `dest`, whose directory already exists.
   * Only GETs of `url` are added to the log, and success leaves a file at
   * `dest`.
   */
  function Fetch(fetch: Fetcher, s: Snap, dest: Path, url: string, token: string, content: Script): (r: Done)
    ensures |s.log| <= |r.after.log| && r.after.log[..|s.log|] == s.log
    ensures forall k :: |s.log| <= k < |r.after.log| ==> r.after.log[k] == RawRequest(url, token)
    ensures r.ok ==> dest in r.after.disk.files
  {
    match fetch
    case Direct =>
      var f := PlainFetch(s.disk, dest, content.At(0));
      Done(f.ok, Snap(f.disk, s.log + (if f.sent then [RawRequest(url, token)] else []), s.sleeps, s.warnings))
    case Retrying(policy, quiet) =>
      if dest.Here? then Done(false, s)
      else
        var t := DownloadAndSave(s.disk, dest, policy, content);
        DownloadAndSaveIsAtomic(s.disk, dest, policy, content);
        Done(t.ok, Snap(t.disk, s.log + Repeat(RawRequest(url, token), t.tries),
                        s.sleeps + t.sleeps, s.warnings + Warnings(quiet, t.sleeps)))
  }

  /**
   * The direct file fetch keeps `_perform_download_and_save`'s result and disk,
   * and fails exactly when `_handle_download_errors` was given an exception:
   * the `OSError` of a parent that cannot be made (nothing sent, nothing
   * changed), or the one the failed GET raised (the report drops out of the
   * snapshot, which records no console output).
   */
  lemma DirectFetchFailureIsReported(s: Snap, dest: Path, url: string, token: string, content: Script)
    ensures var f := PlainFetch(s.disk, dest, content.At(0));
            var r := Fetch(Direct, s, dest, url, token, content);
            && r.ok == f.ok && r.after.disk == f.disk
            && (!r.ok <==> f.report.Some?)
            && (!f.sent ==> r.after == s && f.report == Some(Classify(DiskError)))
  {
  }

  /** A failed GET of the direct fetch is reported on the branch its exception selects. */
  lemma DirectFetchReportsFailedGet(s: Snap, dest: Path, url: string, token: string, content: Script)
    requires content.At(0).Failed? && MakeDirs(s.disk, Parent(dest)).Some?
    requires content.At(0).failure.Truncated? ==> dest.Sub? && dest !in s.disk.dirs
    ensures !Fetch(Direct, s, dest, url, token, content).ok
    ensures PlainFetch(s.disk, dest, content.At(0)).report == Some(Classify(RaisedBy(content.At(0).failure)))
  {
  }

  /** What the loop over a listing did to one entry. */
  datatype Visit = Skipped(at: Snap) | Visited(before: Snap, result: Done)

  /** The world a visit started from, and the world it left. */
  function Before(v: Visit): Snap {
    if v.Skipped? then v.at else v.before
  }

  function After(v: Visit): Snap {
    if v.Skipped? then v.at else v.result.after
  }

  /** The loop's state: `all_success`, the world, and one visit per entry so far. */
  datatype Walk = Walk(ok: bool, at: Snap, visits: seq<Visit>)

  /** The world after a call's metadata GET. */
  function Asked(owner: string, repo: string, path: string, branch: string, token: string, s: Snap): (s0: Snap)
    ensures s0.disk == s.disk && s0.sleeps == s.sleeps && s0.warnings == s.warnings
    ensures s0.log == s.log + [MetadataRequest(owner, repo, path, branch, token)]
  {
    s.(log := s.log + [MetadataRequest(owner, repo, path, branch, token)])
  }

  /**
   * `download_file(owner, repo, path, branch, out)` run against the world
   * `s`, when every call it makes meets what `node` says: without a token
   * nothing happens; otherwise the metadata GET is sent and its reply decides.
   */
  function Materialize(owner: string, repo: string, path: string, branch: string, out: Path,
                       fetch: Fetcher, node: Node, s: Snap): (r: Done)
    ensures !HasToken(node.token) ==> r == Done(false, s)
    decreases node, 3
  {
    if !HasToken(node.token) then Done(false, s)
    else Respond(owner, repo, path, branch, out, fetch, node, Asked(owner, repo, path, branch, node.token.value, s))
  }

  /**
   * What `download_file` does with the reply to its metadata GET: a failed
   * request or a reply of an unexpected shape gives `False` and nothing
   * changes; a file is saved; a listing is downloaded entry by entry.
   */
  function Respond(owner: string, repo: string, path: string, branch: string, out: Path,
                   fetch: Fetcher, node: Node, s0: Snap): (r: Done)
    requires HasToken(node.token)
    ensures node.meta.MetaFailed? || node.meta.OtherShape? ==> r == Done(false, s0)
    decreases node, 2
  {
    match node.meta
    case MetaFailed(_) => Done(false, s0)
    case OtherShape => Done(false, s0)
    case FileInfo(name, url, content) =>
      SaveFile(out, fetch, StripSlashes(path), name, url, content, node.token.value, s0)
    case Listing(_) => Listed(ListDir(owner, repo, path, branch, out, fetch, node, s0), s0)
  }

  /** What `download_file` returns for a listing: `False` when the base directory could not be made, else `all_success`. */
  function Listed(w: Option<Walk>, s0: Snap): Done {
    if w.None? then Done(false, s0) else Done(w.value.ok, w.value.at)
  }

  /** Where a single file goes, as `FileTarget` decides it from the disk. */
  function TargetOf(out: Path, fileName: string, d: Disk): (t: Path)
    ensures t == out || t == Join(out, fileName)
  {
    FileTarget(out, fileName, d.IsDir(out), d.Exists(out), HasSuffix(Name(out)))
  }

  /**
   * The file branch of `download_file`: without a `download_url` nothing is
   * fetched; otherwise the target's directory is made (an `OSError` gives
   * `False`) and the content fetched to the target.
   */
  function SaveFile(out: Path, fetch: Fetcher, clean: string, name: Option<string>, url: Option<string>,
                    content: Script, token: string, s0: Snap): (r: Done)
    ensures !Present(url) ==> r == Done(false, s0)
    ensures |s0.log| <= |r.after.log| && r.after.log[..|s0.log|] == s0.log
    ensures r.ok ==> TargetOf(out, name.GetOr(LastSegment(clean)), s0.disk) in r.after.disk.files
  {
    if !Present(url) then Done(false, s0)
    else
      var target := TargetOf(out, name.GetOr(LastSegment(clean)), s0.disk);
      match MakeDirs(s0.disk, Parent(target))
      case None => Done(false, s0)
      case Some(d1) => Fetch(fetch, s0.(disk := d1), target, url.value, token, content)
  }

  /**
   * The directory branch of `download_file`, once the metadata GET has
   * returned a listing: the base directory is made (an `OSError` gives
   * `None`), then the loop runs over the entries from `all_success = True`.
   */
  function ListDir(owner: string, repo: string, path: string, branch: string, out: Path,
                   fetch: Fetcher, node: Node, s: Snap): (r: Option<Walk>)
    requires node.meta.Listing?
    ensures r.Some? ==> |r.value.visits| == |node.meta.entries|
    decreases node, 1
  {
    var base := BaseOf(path, out, s.disk);
    match MakeDirs(s.disk, base)
    case None => None
    case Some(d1) => Some(Entries(owner, repo, branch, base, fetch, node, node.meta.entries, 0, Walk(true, s.(disk := d1), [])))
  }

  /** The base directory of a listing, as `DirBase` decides it from the disk. */
  function BaseOf(path: string, out: Path, d: Disk): (b: Path)
    ensures b == out || b == Join(out, LastSegment(StripSlashes(path)))
  {
    DirBase(out, StripSlashes(path), d.IsDir(out), d.Exists(out), HasSuffix(Name(out)))
  }

  /**
   * The loop over the entries `entries[i..]` of the listing `parent` meets,
   * from the loop state `acc`: a malformed entry is skipped and makes the
   * result `False`; every other one is downloaded into `base`, from the world
   * the previous entry left.
   */
  function Entries(owner: string, repo: string, branch: string, base: Path, fetch: Fetcher,
                   parent: Node, entries: seq<Entry>, i: nat, acc: Walk): (r: Walk)
    requires parent.meta == Listing(entries) && i <= |entries| && |acc.visits| == i
    ensures |r.visits| == |entries|
    decreases parent, 0, |entries| - i
  {
    if i == |entries| then acc
    else
      var e := entries[i];
      var next :=
        if !WellFormed(e) then Walk(false, acc.at, acc.visits + [Skipped(acc.at)])
        else
          var o := Materialize(owner, repo, e.path.value, branch, base, fetch, e.child, acc.at);
          Walk(acc.ok && o.ok, o.after, acc.visits + [Visited(acc.at, o)]);
      Entries(owner, repo, branch, base, fetch, parent, entries, i + 1, next)
  }

  /** The file branch of `Respond`, spelled out. */
  lemma {:induction false} RespondOnFile(owner: string, repo: string, path: string, branch: string, out: Path,
                      fetch: Fetcher, node: Node, s0: Snap)
    requires HasToken(node.token) && node.meta.FileInfo?
    ensures Respond(owner, repo, path, branch, out, fetch, node, s0)
         == SaveFile(out, fetch, StripSlashes(path), node.meta.name, node.meta.downloadUrl, node.meta.content,
                     node.token.value, s0)
  {
  }

  /** The directory branch of `Respond`, spelled out. */
  lemma {:induction false} RespondOnListing(owner: string, repo: string, path: string, branch: string, out: Path,
                                            fetch: Fetcher, node: Node, s0: Snap)
    requires HasToken(node.token) && node.meta.Listing?
    ensures Respond(owner, repo, path, branch, out, fetch, node, s0)
         == Listed(ListDir(owner, repo, path, branch, out, fetch, node, s0), s0)
  {
  }

  /** `ListDir`, spelled out. */
  lemma {:induction false} ListDirUnfold(owner: string, repo: string, path: string, branch: string, out: Path,
                      fetch: Fetcher, node: Node, s0: Snap)
    requires node.meta.Listing?
    ensures var base := BaseOf(path, out, s0.disk);
            var w := ListDir(owner, repo, path, branch, out, fetch, node, s0);
            && (MakeDirs(s0.disk, base).None? ==> w.None?)
            && (MakeDirs(s0.disk, base).Some? ==>
                  w == Some(Entries(owner, repo, branch, base, fetch, node, node.meta.entries, 0,
                                    Walk(true, s0.(disk := MakeDirs(s0.disk, base).value), []))))
  {
  }

  /** The loop only appends visits. */
  lemma {:induction false} EntriesKeepPrefix(owner: string, repo: string, branch: string, base: Path, fetch: Fetcher,
                                             parent: Node, entries: seq<Entry>, i: nat, acc: Walk)
    requires parent.meta == Listing(entries) && i <= |entries| && |acc.visits| == i
    ensures Entries(owner, repo, branch, base, fetch, parent, entries, i, acc).visits[..i] == acc.visits
    decreases |entries| - i
  {
    if i < |entries| {
      var e := entries[i];
      var next :=
        if !WellFormed(e) then Walk(false, acc.at, acc.visits + [Skipped(acc.at)])
        else
          var o := Materialize(owner, repo, e.path.value, branch, base, fetch, e.child, acc.at);
          Walk(acc.ok && o.ok, o.after, acc.visits + [Visited(acc.at, o)]);
      EntriesKeepPrefix(owner, repo, branch, base, fetch, parent, entries, i + 1, next);
      var r := Entries(owner, repo, branch, base, fetch, parent, entries, i + 1, next);
      assert r.visits[..i] == r.visits[..i + 1][..i];
    }
  }

  /**
   * The loop visits the entries in list order: one visit per entry, a skip
   * exactly for the malformed ones, every other entry downloaded into `base`
   * from the world the previous entry left.
   */
  lemma {:induction false} EntriesVisitInOrder(owner: string, repo: string, branch: string, base: Path, fetch: Fetcher,
                                               parent: Node, entries: seq<Entry>, i: nat, acc: Walk)
    requires parent.meta == Listing(entries) && i <= |entries| && |acc.visits| == i
    ensures var r := Entries(owner, repo, branch, base, fetch, parent, entries, i, acc);
            && (forall j :: i <= j < |entries| ==> (r.visits[j].Skipped? <==> !WellFormed(entries[j])))
            && (forall j :: i <= j < |entries| && r.visits[j].Visited? ==>
                  r.visits[j].result == Materialize(owner, repo, entries[j].path.value, branch, base, fetch,
                                                    entries[j].child, r.visits[j].before))
            && (i < |entries| ==> Before(r.visits[i]) == acc.at)
            && (forall j :: i < j < |entries| ==> Before(r.visits[j]) == After(r.visits[j - 1]))
            && r.at == (if i == |entries| then acc.at else After(r.visits[|entries| - 1]))
    decreases |entries| - i
  {
    if i < |entries| {
      var e := entries[i];
      var next :=
        if !WellFormed(e) then Walk(false, acc.at, acc.visits + [Skipped(acc.at)])
        else
          var o := Materialize(owner, repo, e.path.value, branch, base, fetch, e.child, acc.at);
          Walk(acc.ok && o.ok, o.after, acc.visits + [Visited(acc.at, o)]);
      EntriesVisitInOrder(owner, repo, branch, base, fetch, parent, entries, i + 1, next);
      EntriesKeepPrefix(owner, repo, branch, base, fetch, parent, entries, i + 1, next);
      var r := Entries(owner, repo, branch, base, fetch, parent, entries, i + 1, next);
      assert r.visits[i] == r.visits[..i + 1][i] == next.visits[i];
    }
  }

  /**
   * `all_success` stays `True` exactly when every entry is well-formed and
   * every recursive call returns `True`; a failed entry does not stop its
   * siblings.
   */
  lemma {:induction false} EntriesOk(owner: string, repo: string, branch: string, base: Path, fetch: Fetcher,
                                     parent: Node, entries: seq<Entry>, i: nat, acc: Walk)
    requires parent.meta == Listing(entries) && i <= |entries| && |acc.visits| == i
    ensures var r := Entries(owner, repo, branch, base, fetch, parent, entries, i, acc);
            r.ok <==> acc.ok && forall j :: i <= j < |entries| ==> r.visits[j].Visited? && r.visits[j].result.ok
    decreases |entries| - i
  {
    if i < |entries| {
      var e := entries[i];
      var next :=
        if !WellFormed(e) then Walk(false, acc.at, acc.visits + [Skipped(acc.at)])
        else
          var o := Materialize(owner, repo, e.path.value, branch, base, fetch, e.child, acc.at);
          Walk(acc.ok && o.ok, o.after, acc.visits + [Visited(acc.at, o)]);
      EntriesOk(owner, repo, branch, base, fetch, parent, entries, i + 1, next);
      EntriesKeepPrefix(owner, repo, branch, base, fetch, parent, entries, i + 1, next);
      var r := Entries(owner, repo, branch, base, fetch, parent, entries, i + 1, next);
      assert r.visits[i] == r.visits[..i + 1][i] == next.visits[i];
    }
  }

  /**
   * The loop over a listing ends with `all_success` true exactly when every
   * entry is well-formed and every recursive call returned `True`.
   */
  lemma {:induction false} ListDirOk(owner: string, repo: string, path: string, branch: string, out: Path,
                  fetch: Fetcher, node: Node, s0: Snap)
    requires node.meta.Listing?
    ensures var w := ListDir(owner, repo, path, branch, out, fetch, node, s0);
            w.Some? ==> (w.value.ok <==> forall j :: 0 <= j < |node.meta.entries| ==>
                           WellFormed(node.meta.entries[j]) && w.value.visits[j].Visited? && w.value.visits[j].result.ok)
  {
    var base := BaseOf(path, out, s0.disk);
    ListDirUnfold(owner, repo, path, branch, out, fetch, node, s0);
    if MakeDirs(s0.disk, base).Some? {
      var acc := Walk(true, s0.(disk := MakeDirs(s0.disk, base).value), []);
      EntriesOk(owner, repo, branch, base, fetch, node, node.meta.entries, 0, acc);
      EntriesVisitInOrder(owner, repo, branch, base, fetch, node, node.meta.entries, 0, acc);
    }
  }

  /**
   * A listing's result is `True` exactly when its base directory could be
   * made, every entry is well-formed, and every recursive call returned
   * `True`; when the base directory cannot be made, only the metadata GET
   * was sent and nothing else changed.
   */
  lemma {:induction false} DirectoryOk(owner: string, repo: string, path: string, branch: string, out: Path,
                    fetch: Fetcher, node: Node, s: Snap)
    requires HasToken(node.token) && node.meta.Listing?
    ensures var s0 := Asked(owner, repo, path, branch, node.token.value, s);
            var w := ListDir(owner, repo, path, branch, out, fetch, node, s0);
            var r := Materialize(owner, repo, path, branch, out, fetch, node, s);
            && (w.None? ==> r == Done(false, s0))
            && (r.ok <==> w.Some? && forall j :: 0 <= j < |node.meta.entries| ==>
                              WellFormed(node.meta.entries[j]) && w.value.visits[j].Visited? && w.value.visits[j].result.ok)
  {
    var s0 := Asked(owner, repo, path, branch, node.token.value, s);
    RespondOnListing(owner, repo, path, branch, out, fetch, node, s0);
    ListDirOk(owner, repo, path, branch, out, fetch, node, s0);
  }

  /**
   * A call only appends to the log, and the first request it sends, once it
   * has a token, is its own metadata GET.
   */
  lemma {:induction false} MaterializeLogs(owner: string, repo: string, path: string, branch: string, out: Path,
                                           fetch: Fetcher, node: Node, s: Snap)
    ensures var r := Materialize(owner, repo, path, branch, out, fetch, node, s);
            && |s.log| <= |r.after.log| && r.after.log[..|s.log|] == s.log
            && (HasToken(node.token) ==>
                  |s.log| < |r.after.log| && r.after.log[|s.log|] == MetadataRequest(owner, repo, path, branch, node.token.value))
    decreases node, 3
  {
    if HasToken(node.token) {
      var s0 := Asked(owner, repo, path, branch, node.token.value, s);
      var r := Respond(owner, repo, path, branch, out, fetch, node, s0);
      RespondLogs(owner, repo, path, branch, out, fetch, node, s0);
      assert r.after.log[..|s.log|] == r.after.log[..|s0.log|][..|s.log|];
      assert r.after.log[|s.log|] == r.after.log[..|s0.log|][|s.log|];
    }
  }

  /** Handling the metadata reply only appends to the log. */
  lemma {:induction false} RespondLogs(owner: string, repo: string, path: string, branch: string, out: Path,
                                       fetch: Fetcher, node: Node, s0: Snap)
    requires HasToken(node.token)
    ensures var r := Respond(owner, repo, path, branch, out, fetch, node, s0);
            |s0.log| <= |r.after.log| && r.after.log[..|s0.log|] == s0.log
    decreases node, 2
  {
    match node.meta {
      case FileInfo(name, url, content) =>
        RespondOnFile(owner, repo, path, branch, out, fetch, node, s0);
      case Listing(entries) =>
        RespondOnListing(owner, repo, path, branch, out, fetch, node, s0);
        ListDirLogs(owner, repo, path, branch, out, fetch, node, s0);
      case MetaFailed(_) =>
      case OtherShape =>
    }
  }

  /** The directory branch only appends to the log. */
  lemma {:induction false} ListDirLogs(owner: string, repo: string, path: string, branch: string, out: Path,
                                       fetch: Fetcher, node: Node, s0: Snap)
    requires node.meta.Listing?
    ensures var w := ListDir(owner, repo, path, branch, out, fetch, node, s0);
            w.Some? ==> |s0.log| <= |w.value.at.log| && w.value.at.log[..|s0.log|] == s0.log
    decreases node, 1
  {
    var base := BaseOf(path, out, s0.disk);
    ListDirUnfold(owner, repo, path, branch, out, fetch, node, s0);
    if MakeDirs(s0.disk, base).Some? {
      var acc := Walk(true, s0.(disk := MakeDirs(s0.disk, base).value), []);
      EntriesLogs(owner, repo, branch, base, fetch, node, node.meta.entries, 0, acc);
    }
  }

  /** The loop over a listing only appends to the log. */
  lemma {:induction false} EntriesLogs(owner: string, repo: string, branch: string, base: Path, fetch: Fetcher,
                                       parent: Node, entries: seq<Entry>, i: nat, acc: Walk)
    requires parent.meta == Listing(entries) && i <= |entries| && |acc.visits| == i
    ensures var r := Entries(owner, repo, branch, base, fetch, parent, entries, i, acc);
            |acc.at.log| <= |r.at.log| && r.at.log[..|acc.at.log|] == acc.at.log
    decreases parent, 0, |entries| - i
  {
    if i < |entries| {
      var e := entries[i];
      var next :=
        if !WellFormed(e) then Walk(false, acc.at, acc.visits + [Skipped(acc.at)])
        else
          var o := Materialize(owner, repo, e.path.value, branch, base, fetch, e.child, acc.at);
          Walk(acc.ok && o.ok, o.after, acc.visits + [Visited(acc.at, o)]);
      if WellFormed(e) {
        MaterializeLogs(owner, repo, e.path.value, branch, base, fetch, e.child, acc.at);
      }
      EntriesLogs(owner, repo, branch, base, fetch, parent, entries, i + 1, next);
      var r := Entries(owner, repo, branch, base, fetch, parent, entries, i + 1, next);
      assert r.at.log[..|acc.at.log|] == r.at.log[..|next.at.log|][..|acc.at.log|];
    }
  }

  /**
   * A failed metadata request, a reply of an unexpected shape, and a file
   * without a `download_url` give `False`: only the metadata GET was sent,
   * and nothing was downloaded or written.
   */
  lemma NothingFetchedWithoutDownloadUrl(owner: string, repo: string, path: string, branch: string, out: Path,
                                         fetch: Fetcher, node: Node, s: Snap)
    requires HasToken(node.token)
    requires node.meta.MetaFailed? || node.meta.OtherShape? || (node.meta.FileInfo? && !Present(node.meta.downloadUrl))
    ensures Materialize(owner, repo, path, branch, out, fetch, node, s)
         == Done(false, Asked(owner, repo, path, branch, node.token.value, s))
  {
    var s0 := Asked(owner, repo, path, branch, node.token.value, s);
    assert Materialize(owner, repo, path, branch, out, fetch, node, s) == Respond(owner, repo, path, branch, out, fetch, node, s0);
  }

  /**
   * A file fetched by `_perform_download_and_save` is saved exactly when its
   * directory can be made, the GET delivers a body and the target is not a
   * directory; the target then holds the body. One GET of the download URL
   * follows the metadata GET once the directory exists.
   */
  lemma DirectFileSaved(out: Path, clean: string, name: Option<string>, url: Option<string>,
                        content: Script, token: string, s0: Snap)
    requires Present(url)
    ensures var t := TargetOf(out, name.GetOr(LastSegment(clean)), s0.disk);
            var r := SaveFile(out, Direct, clean, name, url, content, token, s0);
            && (r.ok <==> MakeDirs(s0.disk, Parent(t)).Some? && content.At(0).Delivered? && t.Sub? && t !in s0.disk.dirs)
            && (r.ok ==> r.after.disk.files[t] == Concat(content.At(0).chunks))
            && (MakeDirs(s0.disk, Parent(t)).None? ==> r == Done(false, s0))
            && (MakeDirs(s0.disk, Parent(t)).Some? ==> r.after.log == s0.log + [RawRequest(url.value, token)])
  {
    var t := TargetOf(out, name.GetOr(LastSegment(clean)), s0.disk);
    if MakeDirs(s0.disk, Parent(t)).Some? {
      var d1 := MakeDirs(s0.disk, Parent(t)).value;
      assert MakeDirs(d1, Parent(t)).Some?;
      if t.Sub? {
        assert Depth(t) == Depth(Parent(t)) + 1;
        assert t !in Ancestors(Parent(t));
      }
    }
  }

  /** Fetching a file leaves a well-formed disk well-formed. */
  lemma FetchKeepsValid(fetch: Fetcher, s: Snap, dest: Path, url: string, token: string, content: Script)
    requires s.disk.Valid()
    ensures Fetch(fetch, s, dest, url, token, content).after.disk.Valid()
  {
    match fetch
    case Direct => PlainFetchKeepsValid(s.disk, dest, content.At(0));
    case Retrying(policy, _) =>
      if dest.Sub? {
        DownloadAndSaveKeepsValid(s.disk, dest, policy, content);
      }
  }

  /** The file branch leaves a well-formed disk well-formed. */
  lemma SaveFileKeepsValid(out: Path, fetch: Fetcher, clean: string, name: Option<string>, url: Option<string>,
                           content: Script, token: string, s0: Snap)
    requires s0.disk.Valid()
    ensures SaveFile(out, fetch, clean, name, url, content, token, s0).after.disk.Valid()
  {
    var t := TargetOf(out, name.GetOr(LastSegment(clean)), s0.disk);
    if Present(url) && MakeDirs(s0.disk, Parent(t)).Some? {
      MakeDirsKeepsValid(s0.disk, Parent(t));
      FetchKeepsValid(fetch, s0.(disk := MakeDirs(s0.disk, Parent(t)).value), t, url.value, token, content);
    }
  }

  /**
   * A whole download, file or directory tree, leaves a well-formed disk
   * well-formed: no path becomes both a file and a directory, and nothing
   * appears outside an existing directory.
   */
  lemma {:induction false} MaterializeKeepsValid(owner: string, repo: string, path: string, branch: string, out: Path,
                                                 fetch: Fetcher, node: Node, s: Snap)
    requires s.disk.Valid()
    ensures Materialize(owner, repo, path, branch, out, fetch, node, s).after.disk.Valid()
    decreases node, 3
  {
    if HasToken(node.token) {
      RespondKeepsValid(owner, repo, path, branch, out, fetch, node, Asked(owner, repo, path, branch, node.token.value, s));
    }
  }

  /** Handling the metadata reply leaves a well-formed disk well-formed. */
  lemma {:induction false} RespondKeepsValid(owner: string, repo: string, path: string, branch: string, out: Path,
                                             fetch: Fetcher, node: Node, s0: Snap)
    requires HasToken(node.token) && s0.disk.Valid()
    ensures Respond(owner, repo, path, branch, out, fetch, node, s0).after.disk.Valid()
    decreases node, 2
  {
    match node.meta {
      case FileInfo(name, url, content) =>
        RespondOnFile(owner, repo, path, branch, out, fetch, node, s0);
        SaveFileKeepsValid(out, fetch, StripSlashes(path), name, url, content, node.token.value, s0);
      case Listing(entries) =>
        RespondOnListing(owner, repo, path, branch, out, fetch, node, s0);
        ListDirKeepsValid(owner, repo, path, branch, out, fetch, node, s0);
      case MetaFailed(_) =>
      case OtherShape =>
    }
  }

  /** The directory branch leaves a well-formed disk well-formed. */
  lemma {:induction false} ListDirKeepsValid(owner: string, repo: string, path: string, branch: string, out: Path,
                                             fetch: Fetcher, node: Node, s0: Snap)
    requires node.meta.Listing? && s0.disk.Valid()
    ensures var w := ListDir(owner, repo, path, branch, out, fetch, node, s0);
            w.Some? ==> w.value.at.disk.Valid()
    decreases node, 1
  {
    var base := BaseOf(path, out, s0.disk);
    ListDirUnfold(owner, repo, path, branch, out, fetch, node, s0);
    if MakeDirs(s0.disk, base).Some? {
      MakeDirsKeepsValid(s0.disk, base);
      var acc := Walk(true, s0.(disk := MakeDirs(s0.disk, base).value), []);
      EntriesKeepValid(owner, repo, branch, base, fetch, node, node.meta.entries, 0, acc);
    }
  }

  /** The loop over a listing leaves a well-formed disk well-formed. */
  lemma {:induction false} EntriesKeepValid(owner: string, repo: string, branch: string, base: Path, fetch: Fetcher,
                                            parent: Node, entries: seq<Entry>, i: nat, acc: Walk)
    requires parent.meta == Listing(entries) && i <= |entries| && |acc.visits| == i
    requires acc.at.disk.Valid()
    ensures Entries(owner, repo, branch, base, fetch, parent, entries, i, acc).at.disk.Valid()
    decreases parent, 0, |entries| - i
  {
    if i < |entries| {
      var e := entries[i];
      var next :=
        if !WellFormed(e) then Walk(false, acc.at, acc.visits + [Skipped(acc.at)])
        else
          var o := Materialize(owner, repo, e.path.value, branch, base, fetch, e.child, acc.at);
          Walk(acc.ok && o.ok, o.after, acc.visits + [Visited(acc.at, o)]);
      if WellFormed(e) {
        MaterializeKeepsValid(owner, repo, e.path.value, branch, base, fetch, e.child, acc.at);
      }
      EntriesKeepValid(owner, repo, branch, base, fetch, parent, entries, i + 1, next);
    }
  }
}

