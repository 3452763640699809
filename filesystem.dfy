/**
 * The local filesystem as a value: regular files with their bytes and a set of
 * directories, with the operations the downloader performs on them and the
 * conditions under which the operating system refuses each one (an `OSError`).
 *
 * `MakeDirs`, `WriteFile`, `Remove` and `Rename` are the primitives: their
 * contracts are the operating system's contract as this model takes it, not
 * something the downloader's code establishes, and their bodies only write
 * that contract out as a value. What the downloader promises is proved on
 * top of them (`MakeDirsKeepsValid`, `FileEditsKeepValid` and the modules
 * that use this one).
 */
module FileSystem {
  import opened Wrappers
  import opened Paths

  type Byte = b: int | 0 <= b < 256
  type Bytes = seq<Byte>

  /** The bytes of a streamed body: its chunks written one after another. */
  function Concat(chunks: seq<Bytes>): (r: Bytes)
    ensures chunks == [] ==> r == []
    ensures |chunks| == 1 ==> r == chunks[0]
  {
    if chunks == [] then [] else Concat(chunks[..|chunks| - 1]) + chunks[|chunks| - 1]
  }

  /** Writing the chunks of `a`, then those of `b`, writes the chunks of `a + b`. */
  lemma {:induction false} ConcatAppend(a: seq<Bytes>, b: seq<Bytes>)
    ensures Concat(a + b) == Concat(a) + Concat(b)
    decreases |b|
  {
    if b == [] {
      assert a + b == a;
    } else {
      var b' := b[..|b| - 1];
      assert (a + b)[..|a + b| - 1] == a + b';
      ConcatAppend(a, b');
    }
  }

  datatype Disk = Disk(files: map<Path, Bytes>, dirs: set<Path>) {

    /**
     * What every real filesystem satisfies: nothing is both a file and a
     * directory, the current directory exists, and everything that exists
     * sits in an existing directory.
     */
    ghost predicate Valid() {
      && files.Keys !! dirs
      && Here in dirs
      && (forall p :: p in dirs ==> Parent(p) in dirs)
      && (forall p :: p in files ==> Parent(p) in dirs)
    }

    /** `Path.exists()`. */
    predicate Exists(p: Path) {
      p in files || p in dirs
    }

    /** `Path.is_dir()`. */
    predicate IsDir(p: Path) {
      p in dirs
    }
  }

  /** Every ancestor of a directory of a valid disk is a directory too. */
  lemma {:induction false} AncestorsAreDirs(d: Disk, p: Path)
    requires d.Valid() && p in d.dirs
    ensures Ancestors(p) <= d.dirs
  {
    if p.Sub? {
      assert Parent(p) == p.dir;
      AncestorsAreDirs(d, p.dir);
    }
  }

  /**
   * `p.mkdir(parents=True, exist_ok=True)`: fails when `p` or one of its
   * ancestors is a regular file; otherwise `p` and all its ancestors are
   * directories afterwards and nothing else changes.
   */
  function MakeDirs(d: Disk, p: Path): (r: Option<Disk>)
    ensures r.Some? <==> Ancestors(p) !! d.files.Keys
    ensures r.Some? ==> r.value.files == d.files && r.value.dirs == d.dirs + Ancestors(p)
    ensures r.Some? ==> p in r.value.dirs && d.dirs <= r.value.dirs
  {
    if Ancestors(p) !! d.files.Keys then Some(Disk(d.files, d.dirs + Ancestors(p))) else None
  }

  /** The parent of an ancestor is an ancestor. */
  lemma {:induction false} AncestorsClosed(p: Path, q: Path)
    requires q in Ancestors(p)
    ensures Parent(q) in Ancestors(p)
  {
    if p.Sub? && q != p {
      AncestorsClosed(p.dir, q);
    }
  }

  /** Making directories keeps a disk well-formed. */
  lemma MakeDirsKeepsValid(d: Disk, p: Path)
    requires d.Valid() && MakeDirs(d, p).Some?
    ensures MakeDirs(d, p).value.Valid()
  {
    var e := MakeDirs(d, p).value;
    forall q | q in e.dirs ensures Parent(q) in e.dirs {
      if q in Ancestors(p) {
        AncestorsClosed(p, q);
      }
    }
  }

  /** An existing directory can always be made again, and nothing changes. */
  lemma MakeDirsOfDir(d: Disk, p: Path)
    requires d.Valid() && p in d.dirs
    ensures MakeDirs(d, p) == Some(d)
  {
    AncestorsAreDirs(d, p);
    assert d.dirs + Ancestors(p) == d.dirs;
  }

  /**
   * `open(p, "wb")` followed by writing `data`: fails when `p` is a directory
   * or its parent is missing; otherwise only `p` changes and holds `data`.
   */
  function WriteFile(d: Disk, p: Path, data: Bytes): (r: Option<Disk>)
    ensures r.Some? <==> p !in d.dirs && Parent(p) in d.dirs
    ensures r.Some? ==> r.value.dirs == d.dirs && r.value.files == d.files[p := data]
  {
    if p !in d.dirs && Parent(p) in d.dirs then Some(Disk(d.files[p := data], d.dirs)) else None
  }

  /** `p.unlink(missing_ok=True)`: afterwards no file is at `p`; nothing else changes. */
  function Remove(d: Disk, p: Path): (r: Disk)
    ensures p !in r.files && r.dirs == d.dirs && r.files == d.files - {p}
  {
    Disk(d.files - {p}, d.dirs)
  }

  /**
   * `src.replace(dst)`: fails when `src` is not a file or `dst` is a directory
   * or has no parent directory; otherwise `dst` holds what `src` held and
   * `src` is gone.
   */
  function Rename(d: Disk, src: Path, dst: Path): (r: Option<Disk>)
    ensures r.Some? <==> src in d.files && dst !in d.dirs && Parent(dst) in d.dirs
    ensures r.Some? ==> r.value.dirs == d.dirs && r.value.files == (d.files - {src})[dst := d.files[src]]
  {
    if src in d.files && dst !in d.dirs && Parent(dst) in d.dirs then
      Some(Disk((d.files - {src})[dst := d.files[src]], d.dirs))
    else None
  }

  /** Writing, removing and renaming files keep a disk well-formed. */
  lemma FileEditsKeepValid(d: Disk, p: Path, q: Path, data: Bytes)
    requires d.Valid()
    ensures WriteFile(d, p, data).Some? ==> WriteFile(d, p, data).value.Valid()
    ensures Remove(d, p).Valid()
    ensures Rename(d, p, q).Some? ==> Rename(d, p, q).value.Valid()
  {
  }
}
