/**
 * The retry behaviour tests/test_minimal_retry.py and tests/test_retry.py
 * pin down, one lemma per test. Each holds for every disk on which the
 * destination is fresh, for every body `c`, and for whatever a GET past the
 * scripted ones would get. `tries` is the number of GETs (`call_count`),
 * `sleeps` the arguments `time.sleep` received.
 */
module RetryScenarios {
  import opened Paths
  import opened FileSystem
  import opened Http
  import opened Retry

  /** test_minimal_retry.py: a dropped connection, then the body. */
  lemma RetryOnNetworkError(d: Disk, dest: Path, c: Bytes, later: Reply)
    requires Fresh(d, dest)
    ensures var r := DownloadAndSave(d, dest, FixedThree(), Script([Failed(ConnectionLost), Delivered([c])], later));
            r.ok && r.disk.files[dest] == c && r.tries == 2 && r.sleeps == [1]
  {
    var script := Script([Failed(ConnectionLost), Delivered([c])], later);
    assert script.At(0) == Failed(ConnectionLost) && script.At(1) == Delivered([c]);
    RecoversAfterTransients(d, dest, FixedThree(), script, 1);
  }

  /** test_minimal_retry.py: two GETs raise `ChunkedEncodingError`, then the body; back-offs of 1 and 2 seconds. */
  lemma RetryOnIncompleteRead(d: Disk, dest: Path, c: Bytes, later: Reply)
    requires Fresh(d, dest)
    ensures var r := DownloadAndSave(d, dest, FixedThree(),
                                     Script([Failed(RequestError), Failed(RequestError), Delivered([c])], later));
            r.ok && r.disk.files[dest] == c && r.tries == 3 && r.sleeps == [1, 2]
  {
    var script := Script([Failed(RequestError), Failed(RequestError), Delivered([c])], later);
    assert script.At(0) == Failed(RequestError) && script.At(1) == Failed(RequestError);
    assert script.At(2) == Delivered([c]);
    RecoversAfterTransients(d, dest, FixedThree(), script, 2);
    assert Backoff(2) == [1, 2];
  }

  /** test_minimal_retry.py: a 404 is retried. */
  lemma RetryOn404(d: Disk, dest: Path, c: Bytes, later: Reply)
    requires Fresh(d, dest)
    ensures var r := DownloadAndSave(d, dest, FixedThree(), Script([Failed(HttpStatus(404)), Delivered([c])], later));
            r.ok && r.disk.files[dest] == c && r.tries == 2 && r.sleeps == [1]
  {
    var script := Script([Failed(HttpStatus(404)), Delivered([c])], later);
    assert script.At(0) == Failed(HttpStatus(404)) && script.At(1) == Delivered([c]);
    RecoversAfterTransients(d, dest, FixedThree(), script, 1);
  }

  /** test_minimal_retry.py: a 401 ends the transfer after one GET, and no file appears. */
  lemma NoRetryOn401(d: Disk, dest: Path)
    requires Fresh(d, dest) && dest !in d.files
    ensures var r := DownloadAndSave(d, dest, FixedThree(), Script([], Failed(HttpStatus(401))));
            !r.ok && !r.disk.Exists(dest) && r.tries == 1
  {
    var script := Script([], Failed(HttpStatus(401)));
    StopsOnFatal(d, dest, FixedThree(), script, 0);
    FreshIsReady(d, dest);
  }

  /** test_minimal_retry.py: without `quiet`, the one retry prints one warning. */
  lemma RetryWarnsWhenNotQuiet(d: Disk, dest: Path, c: Bytes, later: Reply)
    requires Fresh(d, dest)
    ensures var r := DownloadAndSave(d, dest, FixedThree(), Script([Failed(ConnectionLost), Delivered([c])], later));
            r.ok && Warnings(false, r.sleeps) == 1 && r.sleeps == [1]
  {
    RetryOnNetworkError(d, dest, c, later);
  }

  /** test_minimal_retry.py: a 429 is retried. */
  lemma RetryOn429(d: Disk, dest: Path, c: Bytes, later: Reply)
    requires Fresh(d, dest)
    ensures var r := DownloadAndSave(d, dest, FixedThree(), Script([Failed(HttpStatus(429)), Delivered([c])], later));
            r.ok && r.disk.files[dest] == c && r.tries == 2
  {
    var script := Script([Failed(HttpStatus(429)), Delivered([c])], later);
    assert script.At(0) == Failed(HttpStatus(429)) && script.At(1) == Delivered([c]);
    RecoversAfterTransients(d, dest, FixedThree(), script, 1);
  }

  /** test_minimal_retry.py: connection errors throughout; three GETs, back-offs of 1 and 2 seconds, no file. */
  lemma FailsAfterThreeAttempts(d: Disk, dest: Path)
    requires Fresh(d, dest) && dest !in d.files
    ensures var r := DownloadAndSave(d, dest, FixedThree(), Script([], Failed(ConnectionLost)));
            !r.ok && !r.disk.Exists(dest) && r.tries == 3 && r.sleeps == [1, 2]
  {
    GivesUpAtCap(d, dest, FixedThree(), Script([], Failed(ConnectionLost)));
    FreshIsReady(d, dest);
    assert Backoff(2) == [1, 2];
  }

  /** test_retry.py: two connection errors, then the body, with `max_retries=2`. */
  lemma RetriesConnectionErrors(d: Disk, dest: Path, c: Bytes, later: Reply)
    requires Fresh(d, dest)
    ensures var r := DownloadAndSave(d, dest, MaxRetries(2),
                                     Script([Failed(ConnectionLost), Failed(ConnectionLost), Delivered([c])], later));
            r.ok && r.disk.files[dest] == c && r.tries == 3
  {
    var script := Script([Failed(ConnectionLost), Failed(ConnectionLost), Delivered([c])], later);
    assert script.At(0) == Failed(ConnectionLost) && script.At(1) == Failed(ConnectionLost);
    assert script.At(2) == Delivered([c]);
    RecoversAfterTransients(d, dest, MaxRetries(2), script, 2);
  }

  /** test_retry.py: one GET raises `ChunkedEncodingError`, then the body, with `max_retries=2`. */
  lemma RetriesChunkedEncodingError(d: Disk, dest: Path, c: Bytes, later: Reply)
    requires Fresh(d, dest)
    ensures var r := DownloadAndSave(d, dest, MaxRetries(2), Script([Failed(RequestError), Delivered([c])], later));
            r.ok && r.disk.files[dest] == c && r.tries == 2
  {
    var script := Script([Failed(RequestError), Delivered([c])], later);
    assert script.At(0) == Failed(RequestError) && script.At(1) == Delivered([c]);
    RecoversAfterTransients(d, dest, MaxRetries(2), script, 1);
  }

  /** test_retry.py: a 502 and a 503, then the body, with `max_retries=2`. */
  lemma RetriesServerErrors(d: Disk, dest: Path, c: Bytes, later: Reply)
    requires Fresh(d, dest)
    ensures var r := DownloadAndSave(d, dest, MaxRetries(2),
                                     Script([Failed(HttpStatus(502)), Failed(HttpStatus(503)), Delivered([c])], later));
            r.ok && r.disk.files[dest] == c && r.tries == 3
  {
    var script := Script([Failed(HttpStatus(502)), Failed(HttpStatus(503)), Delivered([c])], later);
    assert script.At(0) == Failed(HttpStatus(502)) && script.At(1) == Failed(HttpStatus(503));
    assert script.At(2) == Delivered([c]);
    RecoversAfterTransients(d, dest, MaxRetries(2), script, 2);
  }

  /** test_retry.py: a timeout, then the body, with `max_retries=1`. */
  lemma RetriesTimeout(d: Disk, dest: Path, c: Bytes, later: Reply)
    requires Fresh(d, dest)
    ensures var r := DownloadAndSave(d, dest, MaxRetries(1), Script([Failed(TimedOut), Delivered([c])], later));
            r.ok && r.disk.files[dest] == c && r.tries == 2
  {
    var script := Script([Failed(TimedOut), Delivered([c])], later);
    assert script.At(0) == Failed(TimedOut) && script.At(1) == Delivered([c]);
    RecoversAfterTransients(d, dest, MaxRetries(1), script, 1);
  }

  /** test_retry.py: connection errors throughout; `max_retries + 1` GETs and no file, for every `max_retries`. */
  lemma FailsAfterMaxRetries(d: Disk, dest: Path, maxRetries: nat)
    requires Fresh(d, dest) && dest !in d.files
    ensures var r := DownloadAndSave(d, dest, MaxRetries(maxRetries), Script([], Failed(ConnectionLost)));
            !r.ok && !r.disk.Exists(dest) && r.tries == maxRetries + 1
  {
    GivesUpAtCap(d, dest, MaxRetries(maxRetries), Script([], Failed(ConnectionLost)));
    FreshIsReady(d, dest);
  }

  /** test_retry.py: with `max_retries`, a 404 is final after one GET. */
  lemma NoRetryOn404(d: Disk, dest: Path)
    requires Fresh(d, dest) && dest !in d.files
    ensures var r := DownloadAndSave(d, dest, MaxRetries(2), Script([], Failed(HttpStatus(404))));
            !r.ok && !r.disk.Exists(dest) && r.tries == 1
  {
    StopsOnFatal(d, dest, MaxRetries(2), Script([], Failed(HttpStatus(404))), 0);
    FreshIsReady(d, dest);
  }

  /** test_retry.py: a stream that breaks after some bytes leaves neither the file nor its temporary file. */
  lemma TempFileCleanedUpOnError(d: Disk, dest: Path, partial: Bytes)
    requires Fresh(d, dest) && dest !in d.files
    ensures var r := DownloadAndSave(d, dest, MaxRetries(0), Script([], Failed(Truncated([partial]))));
            !r.ok && !r.disk.Exists(dest) && !r.disk.Exists(TmpPath(dest))
  {
    GivesUpAtCap(d, dest, MaxRetries(0), Script([], Failed(Truncated([partial]))));
    FreshIsReady(d, dest);
  }
}
