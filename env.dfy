/**
 * The mutable world a download runs against: the local filesystem, the GETs
 * sent so far (what a mocked session's `get.call_args_list` records), the
 * retry warnings printed, and the delays `time.sleep` was asked for.
 */
module Env {
  import opened Wrappers
  import opened Paths
  import opened FileSystem
  import opened Http

  /** What an observer sees of the world at one moment: disk, GETs sent, back-offs slept, warnings printed. */
  datatype Snap = Snap(disk: Disk, log: seq<Request>, sleeps: seq<nat>, warnings: nat)

  class World {
    var files: map<Path, Bytes>
    var dirs: set<Path>
    var log: seq<Request>
    var warnings: nat
    ghost var sleeps: seq<nat>

    /** The filesystem part of the world, as a value. */
    function State(): Disk
      reads this
    {
      Disk(files, dirs)
    }

    /** The whole observable state, as a value. */
    ghost function Snapshot(): Snap
      reads this
    {
      Snap(State(), log, sleeps, warnings)
    }

    constructor (d: Disk)
      ensures State() == d && log == [] && warnings == 0 && sleeps == []
    {
      files := d.files;
      dirs := d.dirs;
      log := [];
      warnings := 0;
      sleeps := [];
    }

    /** `session.get(url, headers=...)`: the request goes on the log; its reply is an input of the caller. */
    method Get(r: Request)
      modifies this`log
      ensures log == old(log) + [r]
    {
      log := log + [r];
    }

    /** `p.mkdir(parents=True, exist_ok=True)`. */
    method MakeDirs(p: Path) returns (ok: bool)
      modifies this`dirs
      ensures ok == FileSystem.MakeDirs(old(State()), p).Some?
      ensures State() == FileSystem.MakeDirs(old(State()), p).GetOr(old(State()))
    {
      if Ancestors(p) !! files.Keys {
        dirs := dirs + Ancestors(p);
        ok := true;
      } else {
        ok := false;
      }
    }

    /** `p.open("wb")`: creates or truncates `p`. */
    method Open(p: Path) returns (ok: bool)
      modifies this`files
      ensures ok == WriteFile(old(State()), p, []).Some?
      ensures State() == WriteFile(old(State()), p, []).GetOr(old(State()))
    {
      if p !in dirs && Parent(p) in dirs {
        files := files[p := []];
        ok := true;
      } else {
        ok := false;
      }
    }

    /** `f.write(chunk)` on the open file `p`. */
    method Append(p: Path, chunk: Bytes)
      requires p in files
      modifies this`files
      ensures files == old(files)[p := old(files)[p] + chunk]
    {
      files := files[p := files[p] + chunk];
    }

    /** `p.unlink(missing_ok=True)`. */
    method Remove(p: Path)
      modifies this`files
      ensures State() == FileSystem.Remove(old(State()), p)
    {
      files := files - {p};
    }

    /** `src.replace(dst)`. */
    method Rename(src: Path, dst: Path) returns (ok: bool)
      modifies this`files
      ensures ok == FileSystem.Rename(old(State()), src, dst).Some?
      ensures State() == FileSystem.Rename(old(State()), src, dst).GetOr(old(State()))
    {
      if src in files && dst !in dirs && Parent(dst) in dirs {
        files := (files - {src})[dst := files[src]];
        ok := true;
      } else {
        ok := false;
      }
    }

    /** `time.sleep(seconds)`: only the request to wait is recorded. */
    method Sleep(seconds: nat)
      modifies this`sleeps
      ensures sleeps == old(sleeps) + [seconds]
    {
      sleeps := sleeps + [seconds];
    }

    /** The "Transient error" retry warning on the console. */
    method Warn()
      modifies this`warnings
      ensures warnings == old(warnings) + 1
    {
      warnings := warnings + 1;
    }
  }
}
