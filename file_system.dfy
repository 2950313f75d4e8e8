/** The part of Node's file system the cache uses: one cache directory, the
    files in it, and the three operations `readFile`, `mkdir` (recursive) and
    `writeFile`. Failures other than a missing file come from a fixed table of
    faults, standing for permissions, full disks and the like. */
module FileSystem {
  import opened Wrappers

  /** The error code Node gives a read of a path that does not exist. */
  const ENOENT: string := "ENOENT"

  /** An error thrown by a file-system call, identified by its `code`. */
  datatype FsError = FsError(code: string)

  /** How a `writeFile` of one path fails. `OpenFault`: opening the path
      fails, and the file is untouched. `DataFault`: the open (which creates
      or truncates the file) succeeds, then the call fails after `written`
      bytes, leaving those bytes in the file (a full disk, an I/O error). */
  datatype WriteFault = OpenFault(code: string) | DataFault(code: string, written: nat)
  {
    function Code(): string
    {
      match this
      case OpenFault(c) => c
      case DataFault(c, _) => c
    }
  }

  /** Which calls fail and how: reads of the paths in `read` (with the code
      given), the creation of the missing directory when `mkdir` is set, and
      writes of the paths in `write`. */
  datatype Faults = Faults(read: map<string, string>, mkdir: Option<string>, write: map<string, WriteFault>)

  /** A path that is absent reads as ENOENT; a read fault is some other error. */
  ghost predicate ValidFaults(f: Faults)
  {
    forall p | p in f.read :: f.read[p] != ENOENT
  }

  /** The cache directory: whether it exists, and the bytes of each file. */
  datatype Disk = Disk(dirExists: bool, files: map<string, seq<bv8>>)

  /** Files only live in a directory that exists. */
  ghost predicate Consistent(d: Disk)
  {
    d.files != map[] ==> d.dirExists
  }

  /** `fs.readFile(path)`: the stored bytes, the path's fault, or ENOENT
      for a path with no file. */
  function ReadFile(f: Faults, d: Disk, path: string): (r: Result<seq<bv8>, FsError>)
    ensures r.Ok? <==> path !in f.read && path in d.files
    ensures r.Ok? ==> r.value == d.files[path]
    ensures r.Err? ==> r.error.code == if path in f.read then f.read[path] else ENOENT
  {
    if path in f.read then Err(FsError(f.read[path]))
    else if path in d.files then Ok(d.files[path])
    else Err(FsError(ENOENT))
  }

  /** `readFileIfExists(path)`: the bytes, `null` (None) when the read failed
      with ENOENT, and any other failure rethrown. */
  function ReadIfExists(f: Faults, d: Disk, path: string): (r: Result<Option<seq<bv8>>, FsError>)
    ensures r.Err? ==> r.error.code != ENOENT
  {
    match ReadFile(f, d, path)
    case Ok(bytes) => Ok(Some(bytes))
    case Err(e) => if e.code == ENOENT then Ok(None) else Err(e)
  }

  /** `fs.mkdir(cacheDir, { recursive: true })`: nothing to do when the
      directory exists, otherwise create it unless creation is faulted. */
  function MakeDir(f: Faults, d: Disk): (r: Result<Disk, FsError>)
    ensures r.Ok? ==> r.value == d.(dirExists := true)
    ensures r.Err? <==> !d.dirExists && f.mkdir.Some?
    ensures r.Err? ==> r.error == FsError(f.mkdir.value)
  {
    if d.dirExists then Ok(d)
    else if f.mkdir.Some? then Err(FsError(f.mkdir.value))
    else Ok(d.(dirExists := true))
  }

  /** The directory after a write, and whether the write succeeded. */
  datatype Written = Written(disk: Disk, status: Result<(), FsError>)

  function Min(a: nat, b: nat): nat
  {
    if a < b then a else b
  }

  /** `fs.writeFile(path, data)`: open the path for writing (creating or
      truncating the file), then write the bytes. A missing directory fails
      the open with ENOENT. A fault after the open leaves the bytes written
      so far as the file's contents. */
  function Write(f: Faults, d: Disk, path: string, data: seq<bv8>): (w: Written)
    ensures w.disk.dirExists == d.dirExists
    ensures forall p :: p != path ==> (p in w.disk.files <==> p in d.files)
    ensures forall p :: p != path && p in d.files ==> w.disk.files[p] == d.files[p]
    ensures w.status.Ok? <==> d.dirExists && path !in f.write
    ensures w.status.Ok? ==> path in w.disk.files && w.disk.files[path] == data
    ensures w.status.Err? ==>
              w.status.error.code == if !d.dirExists then ENOENT else f.write[path].Code()
    ensures w.disk.files != d.files ==>
              path in w.disk.files && w.disk.files[path] <= data && d.dirExists &&
              (path in f.write ==> f.write[path].DataFault?)
    ensures d.dirExists && path in f.write && f.write[path].DataFault? ==>
              w.disk.files == d.files[path := data[..Min(f.write[path].written, |data|)]]
  {
    if !d.dirExists then Written(d, Err(FsError(ENOENT)))
    else if path !in f.write then Written(d.(files := d.files[path := data]), Ok(()))
    else match f.write[path]
      case OpenFault(code) => Written(d, Err(FsError(code)))
      case DataFault(code, n) =>
        Written(d.(files := d.files[path := data[..Min(n, |data|)]]), Err(FsError(code)))
  }

  /** A write through a temporary file renamed onto `path` once complete:
      whatever fails, `path` is either untouched or holds all of `data`. */
  function WriteAtomic(f: Faults, d: Disk, path: string, data: seq<bv8>): (w: Written)
    ensures w.status.Ok? <==> d.dirExists && path !in f.write
    ensures w.status.Ok? ==> w.disk == d.(files := d.files[path := data])
    ensures w.status.Err? ==> w.disk == d
    ensures w.status.Err? ==>
              w.status.error.code == if !d.dirExists then ENOENT else f.write[path].Code()
  {
    if !d.dirExists then Written(d, Err(FsError(ENOENT)))
    else if path in f.write then Written(d, Err(FsError(f.write[path].Code())))
    else Written(d.(files := d.files[path := data]), Ok(()))
  }

  /** What `readFileIfExists` reports, in terms of the directory: an error
      exactly for a faulted path, `null` exactly for a path with no file, the
      stored bytes otherwise. */
  lemma ReadIfExistsCases(f: Faults, d: Disk, path: string)
    requires ValidFaults(f)
    ensures ReadIfExists(f, d, path).Err? <==> path in f.read
    ensures ReadIfExists(f, d, path) == Ok(None) <==> path !in f.read && path !in d.files
    ensures path !in f.read && path in d.files ==> ReadIfExists(f, d, path) == Ok(Some(d.files[path]))
  {
  }

  /** The directory the cache writes to, updated in place by the calls. */
  class CacheDirectory {
    const root: string
    const faults: Faults
    var dirExists: bool
    var files: map<string, seq<bv8>>

    function State(): Disk
      reads this
    {
      Disk(dirExists, files)
    }

    ghost predicate Valid()
      reads this
    {
      ValidFaults(faults) && Consistent(State())
    }

    constructor (root: string, faults: Faults, dirExists: bool, files: map<string, seq<bv8>>)
      requires ValidFaults(faults) && Consistent(Disk(dirExists, files))
      ensures Valid()
      ensures this.root == root && this.faults == faults
      ensures State() == Disk(dirExists, files)
    {
      this.root := root;
      this.faults := faults;
      this.dirExists := dirExists;
      this.files := files;
    }

    /** `readFileIfExists`: read, and turn ENOENT alone into `null`. */
    method ReadFileIfExists(path: string) returns (r: Result<Option<seq<bv8>>, FsError>)
      requires Valid()
      ensures r == ReadIfExists(faults, State(), path)
      ensures r.Err? <==> path in faults.read
      ensures r.Ok? && r.value.Some? <==> path !in faults.read && path in files
      ensures r.Ok? && r.value.Some? ==> r.value.value == files[path]
    {
      match ReadFile(faults, State(), path)
      case Ok(bytes) =>
        r := Ok(Some(bytes));
      case Err(e) =>
        if e.code == ENOENT {
          r := Ok(None);
        } else {
          r := Err(e);
        }
    }

    /** `fs.mkdir(cacheDir, { recursive: true })`. */
    method Mkdir() returns (r: Result<(), FsError>)
      requires Valid()
      modifies this`dirExists
      ensures Valid()
      ensures match MakeDir(faults, old(State()))
              case Ok(d) => r == Ok(()) && State() == d
              case Err(e) => r == Err(e) && State() == old(State())
    {
      if !dirExists {
        if faults.mkdir.Some? {
          return Err(FsError(faults.mkdir.value));
        }
        dirExists := true;
      }
      r := Ok(());
    }

    /** `fs.writeFile(path, data)`. */
    method WriteFile(path: string, data: seq<bv8>) returns (r: Result<(), FsError>)
      requires Valid()
      modifies this`files
      ensures Valid()
      ensures var w := Write(faults, old(State()), path, data);
              r == w.status && State() == w.disk
    {
      if !dirExists {
        return Err(FsError(ENOENT));
      }
      if path !in faults.write {
        files := files[path := data];
        return Ok(());
      }
      match faults.write[path]
      case OpenFault(code) =>
        r := Err(FsError(code));
      case DataFault(code, n) =>
        files := files[path := data[..Min(n, |data|)]];
        r := Err(FsError(code));
    }
  }
}
