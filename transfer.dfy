/**
 * `_perform_download_and_save`: one GET, streamed straight into the
 * destination file, with every request or filesystem error turned into
 * `False` after `_handle_download_errors` has classified it.
 */
module Transfer {
  import opened Wrappers
  import opened Paths
  import opened FileSystem
  import opened Http
  import opened Errors
  import opened Env

  /**
   * What one plain transfer did: its result, the disk afterwards, whether
   * the GET was sent, and how the error (if any) was reported.
   */
  datatype Fetched = Fetched(ok: bool, disk: Disk, sent: bool, report: Option<Report>)

  /**
   * The transfer as a function of the disk and the reply: the parent
   * directory is made first, then the GET is sent; a delivered body or the
   * part of a body that arrived before the stream broke is written to
   * `dest` itself, chunk after chunk.
   */
  function PlainFetch(d: Disk, dest: Path, reply: Reply): (r: Fetched)
    ensures r.sent <==> MakeDirs(d, Parent(dest)).Some?
    ensures !r.sent ==> r.disk == d && r.report == Some(Classify(DiskError))
    ensures r.ok <==> r.sent && reply.Delivered? && dest.Sub? && dest !in d.dirs
    ensures r.ok <==> r.report.None?
    ensures r.sent ==> r.disk.dirs == d.dirs + Ancestors(Parent(dest))
    ensures r.ok ==> r.disk.files == d.files[dest := Concat(reply.chunks)]
    ensures r.sent && reply.Failed? && !reply.failure.Truncated? ==>
              r.disk.files == d.files && r.report == Some(Classify(RaisedBy(reply.failure)))
    ensures r.sent && reply.Failed? && reply.failure.Truncated? && dest.Sub? && dest !in d.dirs ==>
              r.disk.files == d.files[dest := Concat(reply.failure.partial)]
              && r.report == Some(Classify(RaisedBy(reply.failure)))
    ensures r.sent && (reply.Delivered? || reply.failure.Truncated?) && !(dest.Sub? && dest !in d.dirs) ==>
              r.disk.files == d.files && r.report == Some(Classify(DiskError))
  {
    match MakeDirs(d, Parent(dest))
    case None => Fetched(false, d, false, Some(Classify(DiskError)))
    case Some(d1) =>
      assert Parent(dest) in d1.dirs;
      match reply
      case Failed(f) =>
        if !f.Truncated? then Fetched(false, d1, true, Some(Classify(RaisedBy(f))))
        else (
          match WriteFile(d1, dest, Concat(f.partial))
          case None => Fetched(false, d1, true, Some(Classify(DiskError)))
          case Some(d2) => Fetched(false, d2, true, Some(Classify(RaisedBy(f)))))
      case Delivered(chunks) =>
        match WriteFile(d1, dest, Concat(chunks))
        case None => Fetched(false, d1, true, Some(Classify(DiskError)))
        case Some(d2) => Fetched(true, d2, true, None)
  }

  /** A plain transfer leaves a well-formed disk well-formed. */
  lemma PlainFetchKeepsValid(d: Disk, dest: Path, reply: Reply)
    requires d.Valid()
    ensures PlainFetch(d, dest, reply).disk.Valid()
  {
    if MakeDirs(d, Parent(dest)).Some? {
      MakeDirsKeepsValid(d, Parent(dest));
      var d1 := MakeDirs(d, Parent(dest)).value;
      var body := if reply.Delivered? then reply.chunks else if reply.failure.Truncated? then reply.failure.partial else [];
      FileEditsKeepValid(d1, dest, dest, Concat(body));
    }
  }

  /**
   * `_perform_download_and_save` is not atomic: a stream that breaks
   * part-way leaves the bytes received so far at the destination.
   */
  lemma TruncatedStreamLeavesPartialFile(d: Disk, dest: Path, partial: seq<Bytes>)
    requires d.Valid() && dest.Sub? && dest !in d.dirs && MakeDirs(d, Parent(dest)).Some?
    ensures var r := PlainFetch(d, dest, Failed(Truncated(partial)));
            !r.ok && dest in r.disk.files && r.disk.files[dest] == Concat(partial)
  {
  }

  /**
   * A `RequestException` that `session.get` raises itself comes before the
   * file is opened: no file appears at the destination, and the generic
   * request branch reports it.
   */
  lemma FailedGetOpensNoFile(d: Disk, dest: Path)
    requires MakeDirs(d, Parent(dest)).Some? && dest !in d.files
    ensures var r := PlainFetch(d, dest, Failed(RequestError));
            !r.ok && dest !in r.disk.files && r.report.Some? && r.report.value.category == RequestFailure
  {
    RequestFailuresNeverReachFileBranch(RequestError);
  }

  /** `for chunk in response.iter_content(...): f.write(chunk)` on the open file `p`. */
  method SaveChunks(w: World, p: Path, chunks: seq<Bytes>)
    requires p in w.files
    modifies w`files
    ensures w.files == old(w.files)[p := old(w.files)[p] + Concat(chunks)]
  {
    var i := 0;
    assert old(w.files)[p] + Concat(chunks[..0]) == old(w.files)[p];
    while i < |chunks|
      invariant 0 <= i <= |chunks|
      invariant w.files == old(w.files)[p := old(w.files)[p] + Concat(chunks[..i])]
    {
      ConcatAppend(chunks[..i], [chunks[i]]);
      assert chunks[..i + 1] == chunks[..i] + [chunks[i]];
      assert old(w.files)[p] + Concat(chunks[..i + 1]) == old(w.files)[p] + Concat(chunks[..i]) + chunks[i];
      w.Append(p, chunks[i]);
      i := i + 1;
    }
    assert chunks[..i] == chunks;
  }

  /**
   * `_perform_download_and_save(url, headers, dest, ...)` against the world,
   * with the reply that the GET receives as an input.
   */
  method PerformDownloadAndSave(w: World, url: string, headers: map<string, string>, dest: Path, reply: Reply)
    returns (ok: bool, report: Option<Report>)
    modifies w
    ensures var r := PlainFetch(old(w.State()), dest, reply);
            ok == r.ok && report == r.report && w.State() == r.disk
            && w.log == old(w.log) + (if r.sent then [Get(url, headers)] else [])
    ensures w.warnings == old(w.warnings) && w.sleeps == old(w.sleeps)
  {
    var made := w.MakeDirs(Parent(dest));
    if !made {
      return false, Some(Classify(DiskError));
    }
    w.Get(Get(url, headers));
    match reply
    case Failed(f) =>
      if !f.Truncated? {
        return false, Some(Classify(RaisedBy(f)));
      }
      var isOpen := w.Open(dest);
      if !isOpen {
        return false, Some(Classify(DiskError));
      }
      SaveChunks(w, dest, f.partial);
      assert [] + Concat(f.partial) == Concat(f.partial);
      return false, Some(Classify(RaisedBy(f)));
    case Delivered(chunks) =>
      var isOpen := w.Open(dest);
      if !isOpen {
        return false, Some(Classify(DiskError));
      }
      SaveChunks(w, dest, chunks);
      assert [] + Concat(chunks) == Concat(chunks);
      return true, None;
  }
}
