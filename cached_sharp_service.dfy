/** `cachedSharpService.transform` (src/lib/cached-sharp-service.mjs, lines
    17-45): a decorator over the sharp image service that looks the request
    up in a content-addressed cache directory, and on a miss calls sharp and
    stores its bytes. Each call is one sequential step over the directory. */
module CachedSharpService {
  import opened Wrappers
  import opened JsValue
  import opened CacheKey
  import opened FileSystem

  /** The directory the service stores its entries in. */
  const CacheDir: string := ".astro/image-cache"

  /** `{ data, format }`, what both services return. */
  datatype Image = Image(data: seq<bv8>, format: Value)

  /** What a failing `transform` throws: a file-system error, or whatever the
      wrapped service threw, passed on untouched. */
  datatype Failure = FsFailure(code: string) | BackendFailure(reason: string)

  /** The wrapped `sharpService.transform`, which may fail. */
  type Backend = (seq<bv8>, Fields, Value) -> Result<Image, string>

  /** The arguments `(inputBuffer, transformOptions, config)` of one call. */
  datatype Request = Request(input: seq<bv8>, options: Fields, config: Value)

  /** The effect of one call: what it returns or throws, the directory after
      it, and whether it called the wrapped service. */
  datatype Outcome = Outcome(result: Result<Image, Failure>, disk: Disk, backendCalled: bool)

  function PathOf(root: string, kd: KeyDerivation, req: Request): string
  {
    CachePath(root, kd, req.input, req.options, req.config)
  }

  /** One call of `transform` against directory `disk`, storing the result
      with `Write` as the code does, or with `WriteAtomic` when `atomic`. */
  function Step(kd: KeyDerivation, backend: Backend, root: string, f: Faults, disk: Disk, req: Request, atomic: bool): Outcome
  {
    var format := ResolveFormat(req.options);
    var path := PathOf(root, kd, req);
    match ReadIfExists(f, disk, path)
    case Err(e) => Outcome(Err(FsFailure(e.code)), disk, false)
    case Ok(Some(bytes)) => Outcome(Ok(Image(bytes, format)), disk, false)
    case Ok(None) =>
      match backend(req.input, req.options, req.config)
      case Err(reason) => Outcome(Err(BackendFailure(reason)), disk, true)
      case Ok(image) =>
        match MakeDir(f, disk)
        case Err(e) => Outcome(Err(FsFailure(e.code)), disk, true)
        case Ok(made) =>
          var w := if atomic then WriteAtomic(f, made, path, image.data) else Write(f, made, path, image.data);
          match w.status
          case Err(e) => Outcome(Err(FsFailure(e.code)), w.disk, true)
          case Ok(_) => Outcome(Ok(image), w.disk, true)
  }

  /** One call of `transform`, as the code does it. The wrapped service is
      called exactly on a miss; a call that does not reach it changes nothing;
      a result from the cache carries the resolved format, and one from the
      service is the service's own; a failure of the service is thrown as it
      is, with nothing stored. */
  function Run(kd: KeyDerivation, backend: Backend, root: string, f: Faults, disk: Disk, req: Request): (o: Outcome)
    ensures o.backendCalled <==> ReadIfExists(f, disk, PathOf(root, kd, req)) == Ok(None)
    ensures !o.backendCalled ==> o.disk == disk
    ensures o.result.Ok? && !o.backendCalled ==> o.result.value.format == ResolveFormat(req.options)
    ensures o.result.Ok? && o.backendCalled ==> backend(req.input, req.options, req.config) == Ok(o.result.value)
    ensures o.result.Err? && o.result.error.BackendFailure? ==>
              o.disk == disk && backend(req.input, req.options, req.config) == Err(o.result.error.reason)
  {
    Step(kd, backend, root, f, disk, req, false)
  }

  /** The same call with the entry written atomically (through a temporary
      file renamed into place). */
  function RunAtomic(kd: KeyDerivation, backend: Backend, root: string, f: Faults, disk: Disk, req: Request): Outcome
  {
    Step(kd, backend, root, f, disk, req, true)
  }

  /** A hit: the stored bytes come back under the resolved format, the wrapped
      service is not called, and the directory is left as it was. */
  lemma HitReturnsStored(kd: KeyDerivation, backend: Backend, root: string, f: Faults, disk: Disk, req: Request)
    requires ValidFaults(f)
    requires PathOf(root, kd, req) !in f.read && PathOf(root, kd, req) in disk.files
    ensures Run(kd, backend, root, f, disk, req)
         == Outcome(Ok(Image(disk.files[PathOf(root, kd, req)], ResolveFormat(req.options))), disk, false)
  {
  }

  /** A read that fails other than with ENOENT is thrown as it is: no call of
      the wrapped service, no directory, no write. */
  lemma ReadErrorPropagates(kd: KeyDerivation, backend: Backend, root: string, f: Faults, disk: Disk, req: Request)
    requires ValidFaults(f)
    requires PathOf(root, kd, req) in f.read
    ensures var code := f.read[PathOf(root, kd, req)];
            code != ENOENT &&
            Run(kd, backend, root, f, disk, req) == Outcome(Err(FsFailure(code)), disk, false)
  {
  }

  /** A miss calls the wrapped service with the caller's own arguments. Its
      failure is thrown untouched and leaves the directory as it was. Its
      success is written at the cache path and returned unchanged, format
      included, unless creating the directory fails (that error is thrown and
      nothing changes) or the write fails (that error is thrown, and the file
      holds whatever part of the bytes was written before the fault). */
  lemma MissCallsBackend(kd: KeyDerivation, backend: Backend, root: string, f: Faults, disk: Disk, req: Request)
    requires ValidFaults(f)
    requires PathOf(root, kd, req) !in f.read && PathOf(root, kd, req) !in disk.files
    ensures var o := Run(kd, backend, root, f, disk, req);
            var path := PathOf(root, kd, req);
            o.backendCalled &&
            match backend(req.input, req.options, req.config)
            case Err(reason) => o == Outcome(Err(BackendFailure(reason)), disk, true)
            case Ok(image) =>
              if !disk.dirExists && f.mkdir.Some? then
                o == Outcome(Err(FsFailure(f.mkdir.value)), disk, true)
              else if path !in f.write then
                o == Outcome(Ok(image), Disk(true, disk.files[path := image.data]), true)
              else
                o.result == Err(FsFailure(f.write[path].Code())) && o.disk.dirExists &&
                o.disk.files == match f.write[path]
                                case OpenFault(_) => disk.files
                                case DataFault(_, n) => disk.files[path := image.data[..Min(n, |image.data|)]]
  {
  }

  /** Existing entries are never replaced or removed, and a created directory
      stays. A call changes the files only at its own cache path, only when
      that path held no file, and only after the wrapped service succeeded;
      what it leaves there is a prefix of the service's bytes, and all of
      them when the call succeeds. */
  lemma StoreOnlyGrows(kd: KeyDerivation, backend: Backend, root: string, f: Faults, disk: Disk, req: Request)
    requires ValidFaults(f) && Consistent(disk)
    ensures var o := Run(kd, backend, root, f, disk, req);
            var path := PathOf(root, kd, req);
            var served := backend(req.input, req.options, req.config);
            Consistent(o.disk) &&
            (disk.dirExists ==> o.disk.dirExists) &&
            (forall p :: p in disk.files ==> p in o.disk.files && o.disk.files[p] == disk.files[p]) &&
            (forall p :: p != path ==> (p in o.disk.files <==> p in disk.files)) &&
            (o.disk.files != disk.files ==>
               o.backendCalled && path !in disk.files && path in o.disk.files &&
               served.Ok? && o.disk.files[path] <= served.value.data) &&
            (o.result.Ok? && o.backendCalled ==> path in o.disk.files && o.disk.files[path] == o.result.value.data)
  {
  }

  /** Miss, then hit: after a call that stored a fresh result, the same call
      again returns the same bytes from the cache under the resolved format,
      without calling the wrapped service and without touching the directory. */
  lemma MissThenHit(kd: KeyDerivation, backend: Backend, root: string, f: Faults, disk: Disk, req: Request)
    requires ValidFaults(f)
    requires Run(kd, backend, root, f, disk, req).backendCalled
    requires Run(kd, backend, root, f, disk, req).result.Ok?
    ensures var first := Run(kd, backend, root, f, disk, req);
            Run(kd, backend, root, f, first.disk, req)
              == Outcome(Ok(Image(first.result.value.data, ResolveFormat(req.options))), first.disk, false)
  {
  }

  /** The hit reports the format the options resolve to, while the miss
      before it reported the wrapped service's own format: the two calls agree
      on the format exactly when the service echoes the resolved format. */
  lemma HitFormatMatchesMissIff(kd: KeyDerivation, backend: Backend, root: string, f: Faults, disk: Disk, req: Request)
    requires ValidFaults(f)
    requires Run(kd, backend, root, f, disk, req).backendCalled
    requires Run(kd, backend, root, f, disk, req).result.Ok?
    ensures var first := Run(kd, backend, root, f, disk, req);
            var second := Run(kd, backend, root, f, first.disk, req);
            second.result.Ok? &&
            (second.result == first.result <==> first.result.value.format == ResolveFormat(req.options))
  {
  }

  /** As the code is written, a write interrupted after the file was opened
      leaves the bytes written so far at the cache path; the identical next
      call takes that truncated file for a hit and returns it, never calling
      the wrapped service again. */
  lemma InterruptedWriteServedAsHit(kd: KeyDerivation, backend: Backend, root: string, f: Faults, disk: Disk, req: Request)
    requires ValidFaults(f)
    requires PathOf(root, kd, req) !in f.read && PathOf(root, kd, req) !in disk.files
    requires backend(req.input, req.options, req.config).Ok?
    requires disk.dirExists || f.mkdir.None?
    requires PathOf(root, kd, req) in f.write && f.write[PathOf(root, kd, req)].DataFault?
    requires f.write[PathOf(root, kd, req)].written < |backend(req.input, req.options, req.config).value.data|
    ensures var data := backend(req.input, req.options, req.config).value.data;
            var n := f.write[PathOf(root, kd, req)].written;
            var first := Run(kd, backend, root, f, disk, req);
            first.result.Err? &&
            Run(kd, backend, root, f, first.disk, req)
              == Outcome(Ok(Image(data[..n], ResolveFormat(req.options))), first.disk, false) &&
            data[..n] != data
  {
    var data := backend(req.input, req.options, req.config).value.data;
    var n := f.write[PathOf(root, kd, req)].written;
    assert |data[..n]| < |data|;
  }

  /** With the entry written atomically, a call that fails stores nothing,
      and a call that succeeds after calling the service stores exactly the
      bytes it returns. */
  lemma AtomicStoresOnlyOnSuccess(kd: KeyDerivation, backend: Backend, root: string, f: Faults, disk: Disk, req: Request)
    requires ValidFaults(f)
    ensures var o := RunAtomic(kd, backend, root, f, disk, req);
            o.disk.files == disk.files ||
            (o.result.Ok? && o.backendCalled &&
             o.disk.files == disk.files[PathOf(root, kd, req) := o.result.value.data])
  {
  }

  /** With the entry written atomically, a miss that fails leaves the next
      identical call a miss again: the retry calls the wrapped service
      instead of serving a damaged file. */
  lemma AtomicRetryAfterFailedWrite(kd: KeyDerivation, backend: Backend, root: string, f: Faults, disk: Disk, req: Request)
    requires ValidFaults(f)
    requires PathOf(root, kd, req) !in f.read && PathOf(root, kd, req) !in disk.files
    requires RunAtomic(kd, backend, root, f, disk, req).result.Err?
    ensures var first := RunAtomic(kd, backend, root, f, disk, req);
            first.disk.files == disk.files &&
            RunAtomic(kd, backend, root, f, first.disk, req).backendCalled
  {
  }

  /** The service the site's image pipeline calls. */
  class CachedSharpService {
    const dir: CacheDirectory
    const derivation: KeyDerivation
    const backend: Backend
    /** Every call made to the wrapped service, in order. */
    ghost var backendCalls: seq<Request>

    constructor (dir: CacheDirectory, derivation: KeyDerivation, backend: Backend)
      requires dir.root == CacheDir
      ensures this.dir == dir && this.derivation == derivation && this.backend == backend
      ensures backendCalls == []
    {
      this.dir := dir;
      this.derivation := derivation;
      this.backend := backend;
      backendCalls := [];
    }

    /** `transform(inputBuffer, transformOptions, config)`. */
    method Transform(input: seq<bv8>, options: Fields, config: Value) returns (r: Result<Image, Failure>)
      requires dir.Valid()
      modifies this`backendCalls, dir`dirExists, dir`files
      ensures dir.Valid()
      ensures var req := Request(input, options, config);
              var o := Run(derivation, backend, dir.root, dir.faults, old(dir.State()), req);
              r == o.result && dir.State() == o.disk &&
              backendCalls == old(backendCalls) + if o.backendCalled then [req] else []
    {
      var format := ResolveFormat(options);
      var cachePath := CachePath(dir.root, derivation, input, options, config);
      var cached := dir.ReadFileIfExists(cachePath);
      if cached.Err? {
        return Err(FsFailure(cached.error.code));
      }
      if cached.value.Some? {
        return Ok(Image(cached.value.value, format));
      }

      var result := backend(input, options, config);
      backendCalls := backendCalls + [Request(input, options, config)];
      if result.Err? {
        return Err(BackendFailure(result.error));
      }

      var made := dir.Mkdir();
      if made.Err? {
        return Err(FsFailure(made.error.code));
      }
      var written := dir.WriteFile(cachePath, result.value.data);
      if written.Err? {
        return Err(FsFailure(written.error.code));
      }
      r := Ok(result.value);
    }
  }
}
