/**
 * `_download_and_save_file`: the retrying transfer of one file. Each attempt
 * sends the GET and streams the body into `<dest>.tmp`; a complete body is
 * renamed onto `dest`, anything else removes the temporary file. A transient
 * failure is followed by a `2**attempt` back-off and another attempt, up to
 * the policy's cap; any other failure ends the transfer at once.
 *
 * The function is not in gh_download/__init__.py; its behaviour is the one
 * tests/test_minimal_retry.py and tests/test_retry.py pin down, and those two
 * disagree on the cap and on 404, so both are instances of one `Policy`.
 */
module Retry {
  import opened Paths
  import opened FileSystem
  import opened Http
  import opened Env
  import opened Transfer

  /** `2**n`. */
  function Pow2(n: nat): (r: nat)
    ensures r >= 1
  {
    if n == 0 then 1 else 2 * Pow2(n - 1)
  }

  /** The back-off delays before retries 1..n: `[2**0, 2**1, ..., 2**(n-1)]`. */
  function Backoff(n: nat): (s: seq<nat>)
    ensures |s| == n
    ensures forall j :: 0 <= j < n ==> s[j] == Pow2(j)
  {
    if n == 0 then [] else Backoff(n - 1) + [Pow2(n - 1)]
  }

  /** `n` copies of `x`: the GETs an n-attempt transfer sends. */
  function Repeat<T>(x: T, n: nat): (s: seq<T>)
    ensures |s| == n
    ensures forall j :: 0 <= j < n ==> s[j] == x
  {
    if n == 0 then [] else Repeat(x, n - 1) + [x]
  }

  /** How many attempts a transfer may make, and which HTTP statuses are worth retrying. */
  datatype Policy = Policy(attempts: nat, retryStatuses: set<int>)

  /** tests/test_minimal_retry.py: three attempts in all, and 404 is retried. */
  function FixedThree(): (p: Policy)
    ensures p.attempts == 3 && 404 in p.retryStatuses && 429 in p.retryStatuses && 401 !in p.retryStatuses
  {
    Policy(3, {404, 429, 500, 502, 503, 504})
  }

  /** tests/test_retry.py: the first attempt plus `max_retries` more, and 404 is final. */
  function MaxRetries(maxRetries: nat): (p: Policy)
    ensures p.attempts == maxRetries + 1 && 404 !in p.retryStatuses
    ensures 502 in p.retryStatuses && 503 in p.retryStatuses
  {
    Policy(maxRetries + 1, {429, 500, 502, 503, 504})
  }

  /**
   * Whether a failed GET is worth another attempt: broken connections,
   * timeouts, other request errors and truncated streams always are, an HTTP
   * error only when its status is one the policy retries.
   */
  predicate Transient(p: Policy, f: Failure) {
    match f
    case HttpStatus(code) => code in p.retryStatuses
    case _ => true
  }

  /** How one attempt ended. */
  datatype Step = Saved | Retryable | Fatal

  /** The destination's directory exists, and neither the destination nor its temporary file is a directory. */
  predicate Ready(dirs: set<Path>, dest: Path)
    requires dest.Sub?
  {
    Parent(dest) in dirs && dest !in dirs && TmpPath(dest) !in dirs
  }

  /**
   * How an attempt ends, which depends on the reply and on the directories
   * only: a complete body is saved when the temporary file can be written
   * and renamed; a truncated body whose temporary file cannot even be opened
   * is an `OSError`; otherwise the policy decides.
   */
  function StepOf(dirs: set<Path>, dest: Path, p: Policy, reply: Reply): (step: Step)
    requires dest.Sub?
    ensures step == Saved ==> reply.Delivered?
    ensures step == Retryable ==> reply.Failed? && Transient(p, reply.failure)
  {
    match reply
    case Delivered(_) => if Ready(dirs, dest) then Saved else Fatal
    case Failed(f) =>
      if f.Truncated? && (Parent(dest) !in dirs || TmpPath(dest) in dirs) then Fatal
      else if Transient(p, f) then Retryable
      else Fatal
  }

  /** Once the directories are in place, the reply alone decides how an attempt ends. */
  lemma StepOfWhenReady(dirs: set<Path>, dest: Path, p: Policy, reply: Reply)
    requires dest.Sub? && Ready(dirs, dest)
    ensures reply.Delivered? ==> StepOf(dirs, dest, p, reply) == Saved
    ensures reply.Failed? && Transient(p, reply.failure) ==> StepOf(dirs, dest, p, reply) == Retryable
    ensures reply.Failed? && !Transient(p, reply.failure) ==> StepOf(dirs, dest, p, reply) == Fatal
  {
  }

  datatype Attempted = Attempted(step: Step, disk: Disk)

  /**
   * One attempt on the disk: the body goes to the temporary file, which is
   * renamed onto `dest` when the body is complete and removed otherwise.
   */
  function Attempt(d: Disk, dest: Path, p: Policy, reply: Reply): (a: Attempted)
    requires dest.Sub?
    ensures a.step == StepOf(d.dirs, dest, p, reply)
    ensures a.disk.dirs == d.dirs && TmpPath(dest) !in a.disk.files
    ensures a.step == Saved ==> a.disk.files == (d.files - {TmpPath(dest)})[dest := Concat(reply.chunks)]
    ensures a.step != Saved ==> a.disk.files == d.files - {TmpPath(dest)}
  {
    var tmp := TmpPath(dest);
    match reply
    case Delivered(chunks) =>
      (match WriteFile(d, tmp, Concat(chunks))
       case None => Attempted(Fatal, Remove(d, tmp))
       case Some(d1) =>
         match Rename(d1, tmp, dest)
         case None => Attempted(Fatal, Remove(d1, tmp))
         case Some(d2) =>
           assert d2.files == (d.files - {tmp})[dest := Concat(chunks)];
           Attempted(Saved, d2))
    case Failed(f) =>
      if f.Truncated? then
        match WriteFile(d, tmp, Concat(f.partial))
        case None => Attempted(Fatal, Remove(d, tmp))
        case Some(d1) =>
          assert d1.files - {tmp} == d.files - {tmp};
          Attempted(if Transient(p, f) then Retryable else Fatal, Remove(d1, tmp))
      else
        Attempted(if Transient(p, f) then Retryable else Fatal, Remove(d, tmp))
  }

  /** Whether a run of attempts saved the file, how many GETs it sent and the back-offs it slept. */
  datatype Tally = Tally(ok: bool, tries: nat, sleeps: seq<nat>)

  /** The back-off after a retried attempt `k`: `2**k`, unless `k` was the last attempt allowed. */
  function Pause(p: Policy, k: nat): (s: seq<nat>)
    ensures |s| <= 1 && (|s| == 1 <==> k + 1 < p.attempts)
    ensures s != [] ==> s[0] == Pow2(k)
  {
    if k + 1 < p.attempts then [Pow2(k)] else []
  }

  /**
   * Attempts `k`, `k + 1`, ... until one saves the file, one fails for good,
   * or the policy's cap is reached; every retried attempt except the last
   * one allowed is followed by a back-off of `2**k`.
   */
  function Attempts(dirs: set<Path>, dest: Path, p: Policy, script: Script, k: nat): (r: Tally)
    requires dest.Sub?
    ensures k >= p.attempts ==> r == Tally(false, 0, [])
    ensures k < p.attempts ==> 1 <= r.tries <= p.attempts - k && |r.sleeps| == r.tries - 1
    ensures r.ok ==> r.tries > 0 && script.At(k + r.tries - 1).Delivered?
    decreases p.attempts - k
  {
    if k >= p.attempts then Tally(false, 0, [])
    else
      match StepOf(dirs, dest, p, script.At(k))
      case Saved => Tally(true, 1, [])
      case Fatal => Tally(false, 1, [])
      case Retryable =>
        var rest := Attempts(dirs, dest, p, script, k + 1);
        Tally(rest.ok, rest.tries + 1, Pause(p, k) + rest.sleeps)
  }

  /** The back-offs of a run from attempt `k` double each time, starting from `2**k`. */
  lemma {:induction false} AttemptsDouble(dirs: set<Path>, dest: Path, p: Policy, script: Script, k: nat)
    requires dest.Sub?
    ensures forall j :: 0 <= j < |Attempts(dirs, dest, p, script, k).sleeps| ==>
              Attempts(dirs, dest, p, script, k).sleeps[j] == Pow2(k + j)
    decreases p.attempts - k
  {
    if k < p.attempts && StepOf(dirs, dest, p, script.At(k)) == Retryable {
      AttemptsDouble(dirs, dest, p, script, k + 1);
      var rest := Attempts(dirs, dest, p, script, k + 1);
      var r := Attempts(dirs, dest, p, script, k);
      assert r.sleeps == Pause(p, k) + rest.sleeps;
      if k + 1 < p.attempts {
        forall j | 0 <= j < |r.sleeps| ensures r.sleeps[j] == Pow2(k + j) {
          if j > 0 {
            assert r.sleeps[j] == rest.sleeps[j - 1] == Pow2(k + 1 + (j - 1));
          }
        }
      } else {
        assert r.sleeps == [];
      }
    }
  }

  /** A retried attempt: the rest of the run follows its back-off. */
  lemma AttemptsRetry(dirs: set<Path>, dest: Path, p: Policy, script: Script, k: nat)
    requires dest.Sub? && k < p.attempts && StepOf(dirs, dest, p, script.At(k)) == Retryable
    ensures var rest := Attempts(dirs, dest, p, script, k + 1);
            Attempts(dirs, dest, p, script, k) == Tally(rest.ok, rest.tries + 1, Pause(p, k) + rest.sleeps)
  {
  }

  /** Every attempt of a run before its last one was retried. */
  lemma {:induction false} AttemptsRetriedBefore(dirs: set<Path>, dest: Path, p: Policy, script: Script, k: nat)
    requires dest.Sub?
    ensures var r := Attempts(dirs, dest, p, script, k);
            forall j :: k <= j < k + r.tries - 1 ==> StepOf(dirs, dest, p, script.At(j)) == Retryable
    decreases p.attempts - k
  {
    if k < p.attempts && StepOf(dirs, dest, p, script.At(k)) == Retryable {
      AttemptsRetry(dirs, dest, p, script, k);
      AttemptsRetriedBefore(dirs, dest, p, script, k + 1);
      var rest := Attempts(dirs, dest, p, script, k + 1);
      forall j | k < j < k + 1 + rest.tries - 1
        ensures StepOf(dirs, dest, p, script.At(j)) == Retryable
      {
      }
    }
  }

  /** A run saved the file exactly when its last attempt did. */
  lemma {:induction false} AttemptsEnd(dirs: set<Path>, dest: Path, p: Policy, script: Script, k: nat)
    requires dest.Sub?
    ensures var r := Attempts(dirs, dest, p, script, k);
            r.tries > 0 ==> (r.ok <==> StepOf(dirs, dest, p, script.At(k + r.tries - 1)) == Saved)
    decreases p.attempts - k
  {
    if k < p.attempts {
      if StepOf(dirs, dest, p, script.At(k)) == Retryable {
        AttemptsRetry(dirs, dest, p, script, k);
        var rest := Attempts(dirs, dest, p, script, k + 1);
        if rest.tries == 0 {
          assert !Attempts(dirs, dest, p, script, k).ok && Attempts(dirs, dest, p, script, k).tries == 1;
        } else {
          AttemptsEnd(dirs, dest, p, script, k + 1);
          assert k + Attempts(dirs, dest, p, script, k).tries - 1 == k + 1 + rest.tries - 1;
        }
      } else {
        AttemptsStop(dirs, dest, p, script, k);
      }
    }
  }

  /** A run stopped short of the cap only on an attempt that was not retried. */
  lemma {:induction false} AttemptsStopEarly(dirs: set<Path>, dest: Path, p: Policy, script: Script, k: nat)
    requires dest.Sub?
    ensures var r := Attempts(dirs, dest, p, script, k);
            r.tries > 0 && k + r.tries < p.attempts ==> StepOf(dirs, dest, p, script.At(k + r.tries - 1)) != Retryable
    decreases p.attempts - k
  {
    if k < p.attempts {
      if StepOf(dirs, dest, p, script.At(k)) == Retryable {
        AttemptsRetry(dirs, dest, p, script, k);
        var rest := Attempts(dirs, dest, p, script, k + 1);
        if rest.tries == 0 {
          assert !Attempts(dirs, dest, p, script, k).ok && Attempts(dirs, dest, p, script, k).tries == 1;
        } else {
          AttemptsStopEarly(dirs, dest, p, script, k + 1);
          assert k + Attempts(dirs, dest, p, script, k).tries - 1 == k + 1 + rest.tries - 1;
        }
      } else {
        AttemptsStop(dirs, dest, p, script, k);
      }
    }
  }

  /**
   * The files once a run has ended: every attempt removes the temporary
   * file, and a saving attempt has renamed it onto `dest` first.
   */
  function Settle(files: map<Path, Bytes>, dest: Path, script: Script, t: Tally): (r: map<Path, Bytes>)
    requires dest.Sub?
    requires t.ok ==> t.tries > 0 && script.At(t.tries - 1).Delivered?
  {
    if t.ok then (files - {TmpPath(dest)})[dest := Concat(script.At(t.tries - 1).chunks)]
    else if t.tries > 0 then files - {TmpPath(dest)}
    else files
  }

  /** What a whole transfer did: its tally and the disk afterwards. */
  datatype Run = Run(ok: bool, disk: Disk, tries: nat, sleeps: seq<nat>)

  /**
   * The whole transfer: the destination's directory is made first (an
   * `OSError` there ends it before any GET), then the attempts run.
   */
  function DownloadAndSave(d: Disk, dest: Path, p: Policy, script: Script): (r: Run)
    requires dest.Sub?
    ensures MakeDirs(d, Parent(dest)).None? ==> r == Run(false, d, 0, [])
    ensures MakeDirs(d, Parent(dest)).Some? ==> r.disk.dirs == d.dirs + Ancestors(Parent(dest))
    ensures r.tries <= p.attempts
    ensures r.ok ==> r.tries > 0 && script.At(r.tries - 1).Delivered?
    ensures r.tries > 0 ==> |r.sleeps| == r.tries - 1
    ensures r.sleeps == Backoff(|r.sleeps|)
  {
    match MakeDirs(d, Parent(dest))
    case None => Run(false, d, 0, [])
    case Some(d1) =>
      var t := Attempts(d1.dirs, dest, p, script, 0);
      AttemptsDouble(d1.dirs, dest, p, script, 0);
      assert forall j :: 0 <= j < |t.sleeps| ==> t.sleeps[j] == Pow2(j);
      assert t.sleeps == Backoff(|t.sleeps|);
      Run(t.ok, Disk(Settle(d1.files, dest, script, t), d1.dirs), t.tries, t.sleeps)
  }

  /**
   * A transfer is all or nothing at the destination: it holds the body of the
   * saving attempt, or what it held before; the temporary file is gone once
   * any GET was sent.
   */
  lemma DownloadAndSaveIsAtomic(d: Disk, dest: Path, p: Policy, script: Script)
    requires dest.Sub?
    ensures var r := DownloadAndSave(d, dest, p, script);
            (r.ok ==> dest in r.disk.files && r.disk.files[dest] == Concat(script.At(r.tries - 1).chunks))
            && (!r.ok ==> (dest in r.disk.files <==> dest in d.files))
            && (!r.ok && dest in d.files ==> r.disk.files[dest] == d.files[dest])
            && (r.tries > 0 ==> TmpPath(dest) !in r.disk.files)
  {
    assert TmpPath(dest) != dest;
  }

  /** A transfer leaves a well-formed disk well-formed. */
  lemma DownloadAndSaveKeepsValid(d: Disk, dest: Path, p: Policy, script: Script)
    requires d.Valid() && dest.Sub?
    ensures DownloadAndSave(d, dest, p, script).disk.Valid()
  {
    if MakeDirs(d, Parent(dest)).Some? {
      MakeDirsKeepsValid(d, Parent(dest));
      var d1 := MakeDirs(d, Parent(dest)).value;
      var t := Attempts(d1.dirs, dest, p, script, 0);
      if t.ok {
        AttemptsEnd(d1.dirs, dest, p, script, 0);
        assert Ready(d1.dirs, dest);
      }
    }
  }

  /** The back-offs of `k` retried attempts are `[1, 2, 4, ...]`, none after the last one allowed. */
  lemma {:induction false} PausesAreBackoff(p: Policy, k: nat)
    requires k <= p.attempts
    ensures Pauses(p, k) == Backoff(if k == p.attempts && k > 0 then k - 1 else k)
  {
    if k > 0 {
      PausesAreBackoff(p, k - 1);
      if k == p.attempts {
        assert Pauses(p, k) == Backoff(k - 1) + [];
      }
    }
  }

  /**
   * The destination can be downloaded to: its directory can be made, and
   * neither it nor its temporary file is a directory.
   */
  predicate Fresh(d: Disk, dest: Path) {
    dest.Sub? && MakeDirs(d, Parent(dest)).Some? && dest !in d.dirs && TmpPath(dest) !in d.dirs
  }

  /** On a fresh destination, the directories the attempts see are ready for them. */
  lemma FreshIsReady(d: Disk, dest: Path)
    requires Fresh(d, dest)
    ensures Ready(MakeDirs(d, Parent(dest)).value.dirs, dest)
  {
    assert Depth(dest) > Depth(Parent(dest));
    assert Depth(TmpPath(dest)) > Depth(Parent(dest));
  }

  /** Transient failures before attempt `n`, on directories that are ready, are all retried. */
  lemma TransientsAreRetried(dirs: set<Path>, dest: Path, p: Policy, script: Script, n: nat)
    requires dest.Sub? && Ready(dirs, dest)
    requires forall j :: 0 <= j < n ==> script.At(j).Failed? && Transient(p, script.At(j).failure)
    ensures forall j :: 0 <= j < n ==> StepOf(dirs, dest, p, script.At(j)) == Retryable
  {
    forall j | 0 <= j < n ensures StepOf(dirs, dest, p, script.At(j)) == Retryable {
      StepOfWhenReady(dirs, dest, p, script.At(j));
    }
  }

  /** Transient failures followed by a complete body, within the cap: the attempts save after `n + 1` GETs. */
  lemma RecoveredTally(d: Disk, dest: Path, p: Policy, script: Script, n: nat)
    requires Fresh(d, dest) && n < p.attempts
    requires forall j :: 0 <= j < n ==> script.At(j).Failed? && Transient(p, script.At(j).failure)
    requires script.At(n).Delivered?
    ensures Attempts(MakeDirs(d, Parent(dest)).value.dirs, dest, p, script, 0) == Tally(true, n + 1, Pauses(p, n))
  {
    var dirs := MakeDirs(d, Parent(dest)).value.dirs;
    FreshIsReady(d, dest);
    TransientsAreRetried(dirs, dest, p, script, n);
    StepOfWhenReady(dirs, dest, p, script.At(n));
    RunStoppedAt(dirs, dest, p, script, n);
  }

  /**
   * Transient failures followed by a complete body, within the cap: the file
   * is saved with that body after `n + 1` GETs and back-offs of 1, 2, 4, ...
   * seconds between them.
   */
  lemma RecoversAfterTransients(d: Disk, dest: Path, p: Policy, script: Script, n: nat)
    requires Fresh(d, dest) && n < p.attempts
    requires forall j :: 0 <= j < n ==> script.At(j).Failed? && Transient(p, script.At(j).failure)
    requires script.At(n).Delivered?
    ensures var r := DownloadAndSave(d, dest, p, script);
            r.ok && r.tries == n + 1 && r.sleeps == Backoff(n)
            && dest in r.disk.files && r.disk.files[dest] == Concat(script.At(n).chunks)
            && TmpPath(dest) !in r.disk.files
  {
    var d1 := MakeDirs(d, Parent(dest)).value;
    var t := Tally(true, n + 1, Pauses(p, n));
    var r := DownloadAndSave(d, dest, p, script);
    assert r.ok && r.tries == n + 1 && r.sleeps == Backoff(n) by {
      RecoveredTally(d, dest, p, script, n);
      PausesAreBackoff(p, n);
    }
    assert r.disk.files == Settle(d1.files, dest, script, t) by {
      RecoveredTally(d, dest, p, script, n);
    }
    assert TmpPath(dest) != dest;
  }

  /**
   * Transient failures at every allowed attempt: the transfer gives up after
   * the cap, having slept before every retry, and the destination is as it was.
   */
  lemma GivesUpAtCap(d: Disk, dest: Path, p: Policy, script: Script)
    requires Fresh(d, dest) && p.attempts > 0
    requires forall j :: 0 <= j < p.attempts ==> script.At(j).Failed? && Transient(p, script.At(j).failure)
    ensures var r := DownloadAndSave(d, dest, p, script);
            !r.ok && r.tries == p.attempts && r.sleeps == Backoff(p.attempts - 1)
            && (dest in r.disk.files <==> dest in d.files) && TmpPath(dest) !in r.disk.files
  {
    var dirs := MakeDirs(d, Parent(dest)).value.dirs;
    FreshIsReady(d, dest);
    TransientsAreRetried(dirs, dest, p, script, p.attempts);
    RunExhausted(dirs, dest, p, script);
    PausesAreBackoff(p, p.attempts);
    DownloadAndSaveIsAtomic(d, dest, p, script);
  }

  /**
   * A failure that is not transient ends the transfer at that attempt, with
   * the destination as it was.
   */
  lemma StopsOnFatal(d: Disk, dest: Path, p: Policy, script: Script, n: nat)
    requires Fresh(d, dest) && n < p.attempts
    requires forall j :: 0 <= j < n ==> script.At(j).Failed? && Transient(p, script.At(j).failure)
    requires script.At(n).Failed? && !Transient(p, script.At(n).failure)
    ensures var r := DownloadAndSave(d, dest, p, script);
            !r.ok && r.tries == n + 1 && r.sleeps == Backoff(n)
            && (dest in r.disk.files <==> dest in d.files) && TmpPath(dest) !in r.disk.files
  {
    var dirs := MakeDirs(d, Parent(dest)).value.dirs;
    FreshIsReady(d, dest);
    TransientsAreRetried(dirs, dest, p, script, n);
    StepOfWhenReady(dirs, dest, p, script.At(n));
    RunStoppedAt(dirs, dest, p, script, n);
    PausesAreBackoff(p, n);
    DownloadAndSaveIsAtomic(d, dest, p, script);
  }

  /**
   * On a fresh destination a saved file comes from the last GET, which got a
   * complete body, and every GET before it failed transiently.
   */
  lemma SavedAfterTransients(d: Disk, dest: Path, p: Policy, script: Script)
    requires Fresh(d, dest)
    ensures var r := DownloadAndSave(d, dest, p, script);
            r.ok ==> 0 < r.tries <= p.attempts && script.At(r.tries - 1).Delivered?
                     && forall j :: 0 <= j < r.tries - 1 ==> script.At(j).Failed? && Transient(p, script.At(j).failure)
  {
    var dirs := MakeDirs(d, Parent(dest)).value.dirs;
    var t := Attempts(dirs, dest, p, script, 0);
    FreshIsReady(d, dest);
    if t.ok {
      AttemptsRetriedBefore(dirs, dest, p, script, 0);
      AttemptsEnd(dirs, dest, p, script, 0);
      forall j | 0 <= j < t.tries - 1 ensures script.At(j).Failed? && Transient(p, script.At(j).failure) {
        assert StepOf(dirs, dest, p, script.At(j)) == Retryable;
      }
    }
  }

  /**
   * On a fresh destination the transfer saves the file exactly when some
   * allowed attempt gets a complete body and every attempt before it failed
   * transiently.
   */
  lemma SavedIffRecovered(d: Disk, dest: Path, p: Policy, script: Script)
    requires Fresh(d, dest)
    ensures DownloadAndSave(d, dest, p, script).ok <==>
            exists n :: 0 <= n < p.attempts && script.At(n).Delivered?
                        && forall j :: 0 <= j < n ==> script.At(j).Failed? && Transient(p, script.At(j).failure)
  {
    var r := DownloadAndSave(d, dest, p, script);
    if r.ok {
      SavedAfterTransients(d, dest, p, script);
      var n := r.tries - 1;
      assert 0 <= n < p.attempts && script.At(n).Delivered?
             && forall j :: 0 <= j < n ==> script.At(j).Failed? && Transient(p, script.At(j).failure);
    }
    if exists n :: 0 <= n < p.attempts && script.At(n).Delivered?
                   && forall j :: 0 <= j < n ==> script.At(j).Failed? && Transient(p, script.At(j).failure) {
      var n :| 0 <= n < p.attempts && script.At(n).Delivered?
               && forall j :: 0 <= j < n ==> script.At(j).Failed? && Transient(p, script.At(j).failure);
      RecoversAfterTransients(d, dest, p, script, n);
    }
  }

  /** A transfer touches no file but the destination and its temporary file. */
  lemma DownloadAndSaveTouchesOnlyDest(d: Disk, dest: Path, p: Policy, script: Script, q: Path)
    requires dest.Sub? && q != dest && q != TmpPath(dest)
    ensures var r := DownloadAndSave(d, dest, p, script);
            (q in r.disk.files <==> q in d.files) && (q in d.files ==> r.disk.files[q] == d.files[q])
  {
  }

  /** The retry warnings a transfer prints: one per retry, none when quiet. */
  function Warnings(quiet: bool, sleeps: seq<nat>): (n: nat)
    ensures n <= |sleeps|
    ensures !quiet ==> n == |sleeps|
    ensures quiet ==> n == 0
  {
    if quiet then 0 else |sleeps|
  }

  /** One attempt against the world: the GET, then the temporary file and its rename or removal. */
  method TryOnce(w: World, req: Request, dest: Path, p: Policy, reply: Reply) returns (step: Step)
    requires dest.Sub?
    modifies w
    ensures step == StepOf(old(w.dirs), dest, p, reply) && w.dirs == old(w.dirs)
    ensures w.files == if step == Saved then (old(w.files) - {TmpPath(dest)})[dest := Concat(reply.chunks)]
                       else old(w.files) - {TmpPath(dest)}
    ensures w.log == old(w.log) + [req] && w.warnings == old(w.warnings) && w.sleeps == old(w.sleeps)
  {
    w.Get(req);
    match reply
    case Delivered(chunks) =>
      step := SaveBody(w, dest, p, chunks);
    case Failed(f) =>
      step := DiscardBody(w, dest, p, f);
  }

  /** A complete body: streamed into the temporary file, which then replaces `dest`. */
  method SaveBody(w: World, dest: Path, p: Policy, chunks: seq<Bytes>) returns (step: Step)
    requires dest.Sub?
    modifies w`files
    ensures var a := Attempt(old(w.State()), dest, p, Delivered(chunks)); step == a.step && w.State() == a.disk
  {
    var tmp := TmpPath(dest);
    var isOpen := w.Open(tmp);
    if !isOpen {
      w.Remove(tmp);
      return Fatal;
    }
    SaveChunks(w, tmp, chunks);
    assert [] + Concat(chunks) == Concat(chunks);
    var moved := w.Rename(tmp, dest);
    if !moved {
      w.Remove(tmp);
      return Fatal;
    }
    return Saved;
  }

  /** A failed GET: whatever reached the temporary file is removed, and the policy judges the failure. */
  method DiscardBody(w: World, dest: Path, p: Policy, f: Failure) returns (step: Step)
    requires dest.Sub?
    modifies w`files
    ensures var a := Attempt(old(w.State()), dest, p, Failed(f)); step == a.step && w.State() == a.disk
  {
    var tmp := TmpPath(dest);
    if f.Truncated? {
      var isOpen := w.Open(tmp);
      if !isOpen {
        w.Remove(tmp);
        return Fatal;
      }
      SaveChunks(w, tmp, f.partial);
    }
    w.Remove(tmp);
    step := if Transient(p, f) then Retryable else Fatal;
  }

  /**
   * `_download_and_save_file(url, headers, dest, ..., quiet)` against the
   * world, the replies of its successive GETs being `script`.
   */
  method DownloadAndSaveFile(w: World, req: Request, dest: Path, p: Policy, script: Script, quiet: bool)
    returns (ok: bool)
    requires dest.Sub?
    modifies w
    ensures var r := DownloadAndSave(old(w.State()), dest, p, script);
            ok == r.ok && w.State() == r.disk && w.log == old(w.log) + Repeat(req, r.tries)
            && w.sleeps == old(w.sleeps) + r.sleeps && w.warnings == old(w.warnings) + Warnings(quiet, r.sleeps)
  {
    var made := w.MakeDirs(Parent(dest));
    if !made {
      assert old(w.log) + [] == old(w.log) && old(w.sleeps) + [] == old(w.sleeps);
      return false;
    }
    ok := RunAttempts(w, req, dest, p, script, quiet);
  }

  /** One round of the loop: an attempt, then the warning and the back-off when it is retried. */
  method Round(w: World, req: Request, dest: Path, p: Policy, reply: Reply, k: nat, quiet: bool) returns (step: Step)
    requires dest.Sub?
    modifies w
    ensures step == StepOf(old(w.dirs), dest, p, reply) && w.dirs == old(w.dirs)
    ensures w.files == if step == Saved then (old(w.files) - {TmpPath(dest)})[dest := Concat(reply.chunks)]
                       else old(w.files) - {TmpPath(dest)}
    ensures w.log == old(w.log) + [req]
    ensures step == Retryable ==>
              w.sleeps == old(w.sleeps) + Pause(p, k) && w.warnings == old(w.warnings) + Warnings(quiet, Pause(p, k))
    ensures step != Retryable ==> w.sleeps == old(w.sleeps) && w.warnings == old(w.warnings)
  {
    step := TryOnce(w, req, dest, p, reply);
    if step == Retryable && k + 1 < p.attempts {
      if !quiet {
        w.Warn();
      }
      w.Sleep(Pow2(k));
    }
    if step == Retryable && k + 1 >= p.attempts {
      assert w.sleeps + [] == w.sleeps;
    }
  }

  /** The back-offs after the retried attempts `0..k-1`. */
  function Pauses(p: Policy, k: nat): (s: seq<nat>)
  {
    if k == 0 then [] else Pauses(p, k - 1) + Pause(p, k - 1)
  }

  /** The last attempt of a run: one that saves the file or fails for good. */
  lemma AttemptsStop(dirs: set<Path>, dest: Path, p: Policy, script: Script, k: nat)
    requires dest.Sub? && k < p.attempts && StepOf(dirs, dest, p, script.At(k)) != Retryable
    ensures Attempts(dirs, dest, p, script, k) == Tally(StepOf(dirs, dest, p, script.At(k)) == Saved, 1, [])
  {
  }

  /**
   * A run whose first `k` attempts were retried is those `k` attempts and
   * their back-offs, followed by the run from attempt `k`.
   */
  lemma {:induction false} AttemptsAfterRetries(dirs: set<Path>, dest: Path, p: Policy, script: Script, k: nat)
    requires dest.Sub? && k <= p.attempts
    requires forall j :: 0 <= j < k ==> StepOf(dirs, dest, p, script.At(j)) == Retryable
    ensures var t := Attempts(dirs, dest, p, script, 0); var rest := Attempts(dirs, dest, p, script, k);
            t.ok == rest.ok && t.tries == k + rest.tries && t.sleeps == Pauses(p, k) + rest.sleeps
  {
    if k == 0 {
      assert [] + Attempts(dirs, dest, p, script, 0).sleeps == Attempts(dirs, dest, p, script, 0).sleeps;
    } else {
      AttemptsAfterRetries(dirs, dest, p, script, k - 1);
      var rest := Attempts(dirs, dest, p, script, k);
      assert Attempts(dirs, dest, p, script, k - 1) == Tally(rest.ok, rest.tries + 1, Pause(p, k - 1) + rest.sleeps);
      assert Pauses(p, k - 1) + (Pause(p, k - 1) + rest.sleeps) == Pauses(p, k) + rest.sleeps;
    }
  }

  /**
   * The attempt loop: attempt, and on a retryable failure warn, back off and
   * go again. It stops after `k` attempts: with `step` the way the last one
   * ended, every earlier one retried.
   */
  method AttemptLoop(w: World, req: Request, dest: Path, p: Policy, script: Script, quiet: bool)
    returns (step: Step, k: nat)
    requires dest.Sub?
    modifies w
    ensures k <= p.attempts && w.dirs == old(w.dirs)
    ensures step == Retryable ==>
              k == p.attempts && forall j :: 0 <= j < k ==> StepOf(old(w.dirs), dest, p, script.At(j)) == Retryable
    ensures step != Retryable ==>
              0 < k && StepOf(old(w.dirs), dest, p, script.At(k - 1)) == step
              && forall j :: 0 <= j < k - 1 ==> StepOf(old(w.dirs), dest, p, script.At(j)) == Retryable
    ensures w.files == if k == 0 then old(w.files)
                       else if step == Saved then (old(w.files) - {TmpPath(dest)})[dest := Concat(script.At(k - 1).chunks)]
                       else old(w.files) - {TmpPath(dest)}
    ensures w.log == old(w.log) + Repeat(req, k)
    ensures w.sleeps == old(w.sleeps) + Pauses(p, if step == Retryable then k else k - 1)
    ensures w.warnings == old(w.warnings) + Warnings(quiet, Pauses(p, if step == Retryable then k else k - 1))
  {
    ghost var dirs := w.dirs;
    ghost var cleared := old(w.files) - {TmpPath(dest)};
    assert cleared - {TmpPath(dest)} == cleared;
    k := 0;
    step := Retryable;
    while step == Retryable && k < p.attempts
      invariant k <= p.attempts && w.dirs == dirs
      invariant step == Retryable ==> forall j :: 0 <= j < k ==> StepOf(dirs, dest, p, script.At(j)) == Retryable
      invariant step != Retryable ==>
                  0 < k && StepOf(dirs, dest, p, script.At(k - 1)) == step
                  && forall j :: 0 <= j < k - 1 ==> StepOf(dirs, dest, p, script.At(j)) == Retryable
      invariant w.files == if k == 0 then old(w.files)
                           else if step == Saved then cleared[dest := Concat(script.At(k - 1).chunks)]
                           else cleared
      invariant w.log == old(w.log) + Repeat(req, k)
      invariant w.sleeps == old(w.sleeps) + Pauses(p, if step == Retryable then k else k - 1)
      invariant w.warnings == old(w.warnings) + Warnings(quiet, Pauses(p, if step == Retryable then k else k - 1))
      decreases p.attempts - k, if step == Retryable then 1 else 0
    {
      step := Round(w, req, dest, p, script.At(k), k, quiet);
      assert w.log == old(w.log) + Repeat(req, k + 1);
      k := k + 1;
    }
  }

  /** A run that stops at attempt `n`, every attempt before it retried. */
  lemma RunStoppedAt(dirs: set<Path>, dest: Path, p: Policy, script: Script, n: nat)
    requires dest.Sub? && n < p.attempts
    requires forall j :: 0 <= j < n ==> StepOf(dirs, dest, p, script.At(j)) == Retryable
    requires StepOf(dirs, dest, p, script.At(n)) != Retryable
    ensures Attempts(dirs, dest, p, script, 0) == Tally(StepOf(dirs, dest, p, script.At(n)) == Saved, n + 1, Pauses(p, n))
  {
    AttemptsAfterRetries(dirs, dest, p, script, n);
    AttemptsStop(dirs, dest, p, script, n);
    assert Pauses(p, n) + [] == Pauses(p, n);
  }

  /** A run whose every allowed attempt is retried uses them all and fails. */
  lemma RunExhausted(dirs: set<Path>, dest: Path, p: Policy, script: Script)
    requires dest.Sub?
    requires forall j :: 0 <= j < p.attempts ==> StepOf(dirs, dest, p, script.At(j)) == Retryable
    ensures Attempts(dirs, dest, p, script, 0) == Tally(false, p.attempts, Pauses(p, p.attempts))
  {
    AttemptsAfterRetries(dirs, dest, p, script, p.attempts);
    assert Pauses(p, p.attempts) + [] == Pauses(p, p.attempts);
  }

  /** `_download_and_save_file`'s attempts, once the destination's directory exists. */
  method RunAttempts(w: World, req: Request, dest: Path, p: Policy, script: Script, quiet: bool)
    returns (ok: bool)
    requires dest.Sub?
    modifies w
    ensures var t := Attempts(old(w.dirs), dest, p, script, 0);
            ok == t.ok && w.dirs == old(w.dirs) && w.files == Settle(old(w.files), dest, script, t)
            && w.log == old(w.log) + Repeat(req, t.tries)
            && w.sleeps == old(w.sleeps) + t.sleeps && w.warnings == old(w.warnings) + Warnings(quiet, t.sleeps)
  {
    var step, k := AttemptLoop(w, req, dest, p, script, quiet);
    if step == Retryable {
      RunExhausted(old(w.dirs), dest, p, script);
    } else {
      RunStoppedAt(old(w.dirs), dest, p, script, k - 1);
    }
    ok := step == Saved;
  }
}
