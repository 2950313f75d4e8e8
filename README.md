# Content-addressed image-transform cache

This project models `cachedSharpService`. That is the image service the site's
build plugs into its asset pipeline. It decorates the sharp image service with
an on-disk cache under `.astro/image-cache`. A call `transform(inputBuffer,
transformOptions, config)` does the following:

- It resolves the output format. The default is `"jpeg"`.
- It hashes the input bytes together with the JSON text of
  `{...transformOptions, format, serviceConfig}`, where `serviceConfig`
  defaults to `{}`.
- It looks for `<cacheDir>/<key>.<format>`.
- On a hit, it returns the stored bytes under the resolved format.
- On a miss, it calls sharp, creates the directory, writes sharp's bytes and
  returns sharp's result unchanged.

Modules:

- `Wrappers` defines `Option` and `Result`. `Result` stands for a JavaScript
  value returned or thrown.
- `JsValue` defines JavaScript values. An object is an ordered list of
  properties, because JSON.stringify, and so the cache key, follows property
  order. The module models object spread with a property set afterwards,
  `??`, `?.`, and the text a template literal inserts.
- `CacheKey` covers the pure part: the format default, the service
  configuration default, the hashed object, the bytes fed to SHA-1 and the
  cache path. SHA-1 and JSON.stringify are the two opaque deterministic
  functions of `KeyDerivation`.
- `FileSystem` defines the directory as a value `Disk` (exists?, files). It
  gives `readFile`, `mkdir({recursive: true})` and `writeFile` as functions
  over a `Disk`. Failures other than a missing file come from a fixed table of
  `Faults`. The class `CacheDirectory` holds the same state in fields that its
  methods update in place.
- `CachedSharpService` has two parts. `Run` is one call as a function from the
  old directory to the result, the new directory and whether sharp was called.
  The class method `Transform` performs the call step by step and is proved
  equal to `Run`. It also appends each sharp call to a ghost log. The lemmas
  state the hit, miss, error and miss-then-hit behaviour of `Run`. `RunAtomic`
  is the same call with an atomic write, the corrected behaviour of
  "## Findings".

Three behaviours of the code are worth knowing, since a reader might expect
otherwise:

- An explicit `format: "jpeg"` hashes the same object as an omitted format
  only when it occupies the slot the omitted format would get. That slot is
  the end of the options, or an existing `undefined`/`null` `format` property.
  `format: "jpeg"` written before other options changes the hashed object
  (`FormatSlotMatters`). Unless `undefined`-valued properties are involved
  (JSON.stringify drops them), that changes the serialised text and so the
  key. Whether the key should instead ignore property order is left open.
- A hit reports the format the options resolve to. The miss that stored the
  entry reported sharp's own format. The two agree exactly when sharp echoes
  the requested format (`HitFormatMatchesMissIff`).
- A stored file is a hit even when it is empty. A Node Buffer is always truthy,
  so the code's `if (cached)` fails only for `null`. This is also why a
  truncated file left by an interrupted write is served as a hit (see
  "## Findings").

## Model

| member | source | states |
|---|---|---|
| JsValue.GetAssign | src/lib/cached-sharp-service.mjs:24-28 | after `{...o, [k]: v}`, property `k` reads `v` and every other property reads as in `o` |
| JsValue.KeysAssign | src/lib/cached-sharp-service.mjs:24-28 | spreading then setting `k` keeps the property order of `o`; `k` keeps its slot if present and is appended last otherwise |
| JsValue.AssignAppends | src/lib/cached-sharp-service.mjs:24-28 | setting a property the object lacks appends it at the end |
| JsValue.AssignAssign | src/lib/cached-sharp-service.mjs:24-28 | setting a property twice equals setting it once to the last value |
| JsValue.OptionalGet | src/lib/cached-sharp-service.mjs:27 | `v?.k` is defined only when `v` is an object with property `k`, and on an object it reads that property |
| JsValue.ToText | src/lib/cached-sharp-service.mjs:31 | the template literal inserts a string format as it is, and an integer as decimal digits (with a leading `-` when negative) that read back as its value |
| CacheKey.ResolveFormat | src/lib/cached-sharp-service.mjs:20 | the resolved format is never nullish; it is `"jpeg"` when `format` is absent, undefined or null, and is the given value otherwise |
| CacheKey.ServiceConfig | src/lib/cached-sharp-service.mjs:27 | the hashed service configuration is never nullish; it is `{}` when `config?.service?.config` is nullish and is that value otherwise |
| CacheKey.KeyObject | src/lib/cached-sharp-service.mjs:24-28 | the hashed object's `format` is the resolved format and its `serviceConfig` the resolved service configuration, and it has at most two properties more than the options |
| CacheKey.HashInput | src/lib/cached-sharp-service.mjs:21-29 | the hashed bytes are the whole input buffer followed by exactly the JSON text of the hashed object |
| CacheKey.Key | src/lib/cached-sharp-service.mjs:21-30 | the key is fixed by the input bytes and the hashed object: any options and config giving the same hashed object give the same key |
| CacheKey.ConfigMattersOnlyThroughServiceConfig | src/lib/cached-sharp-service.mjs:27-31 | configs that agree on `config?.service?.config ?? {}` give the same key and the same cache path |
| CacheKey.CachePath | src/lib/cached-sharp-service.mjs:31 | the entry lies directly under the cache directory, is named by the key, and has the resolved format as its extension |
| CacheKey.KeyObjectValues | src/lib/cached-sharp-service.mjs:24-28 | every option other than `format` and `serviceConfig` reads in the hashed object as in the options |
| CacheKey.KeyObjectOrder | src/lib/cached-sharp-service.mjs:24-28 | the hashed object's property order is the options' order, with `format` and `serviceConfig` appended only if missing |
| CacheKey.DefaultFormatSameObject | src/lib/cached-sharp-service.mjs:20-28 | options whose format is absent or nullish resolve to `"jpeg"` and hash exactly like the same options with `"jpeg"` written into that slot |
| CacheKey.DefaultFormatSameEntry | src/lib/cached-sharp-service.mjs:20-31 | options whose format is absent or nullish name the same cache path as the same options with `"jpeg"` written into that slot |
| CacheKey.OmittedFormatIsJpeg | src/lib/cached-sharp-service.mjs:20-31 | omitting `format` names the same cache path as appending `format: "jpeg"` |
| CacheKey.FormatSlotMatters | src/lib/cached-sharp-service.mjs:23-29 | `{format: "jpeg", width: 200}` and `{width: 200}` agree on every property yet hand different objects to JSON.stringify |
| CacheKey.DistinctRequestsDistinctObjects | src/lib/cached-sharp-service.mjs:21-30 | requests that differ in any other option, the resolved format or the resolved service config hash different objects |
| FileSystem.ReadFile | src/lib/cached-sharp-service.mjs:10 | `fs.readFile` returns the stored bytes exactly for a present, unfaulted path; otherwise it throws the path's fault, or ENOENT |
| FileSystem.ReadIfExists | src/lib/cached-sharp-service.mjs:8-15 | `readFileIfExists` never throws ENOENT; it turns that error into `null` |
| FileSystem.ReadIfExistsCases | src/lib/cached-sharp-service.mjs:8-15 | the read throws exactly for a faulted path, gives `null` exactly for a path with no file, and gives the stored bytes otherwise |
| FileSystem.MakeDir | src/lib/cached-sharp-service.mjs:40 | recursive mkdir succeeds exactly when the directory exists or can be created, and afterwards it exists; on failure it throws the creation fault |
| FileSystem.Write | src/lib/cached-sharp-service.mjs:41 | writeFile succeeds exactly when the directory exists and the path is unfaulted, leaving the data at the path; it throws ENOENT or the path's fault otherwise; other paths never change, and a failure after the open leaves a prefix of the data |
| FileSystem.WriteAtomic | src/lib/cached-sharp-service.mjs:41 | the corrected write: on success the path holds the data, on any failure the directory is unchanged, with the same errors as writeFile |
| FileSystem.CacheDirectory.ReadFileIfExists | src/lib/cached-sharp-service.mjs:8-15 | reading the directory in place agrees with `ReadIfExists`: an error exactly for a faulted path, and the stored bytes exactly for a present file |
| FileSystem.CacheDirectory.Mkdir | src/lib/cached-sharp-service.mjs:40 | the in-place mkdir changes the directory exactly as `MakeDir` says |
| FileSystem.CacheDirectory.WriteFile | src/lib/cached-sharp-service.mjs:41 | the in-place write changes the files exactly as `Write` says |
| CachedSharpService.Run | src/lib/cached-sharp-service.mjs:19-44 | the service is called exactly on a miss; a call that does not reach it changes nothing; a cached result carries the resolved format and a fresh one is the service's own; a service failure is thrown as is with nothing stored |
| CachedSharpService.HitReturnsStored | src/lib/cached-sharp-service.mjs:32-36 | on a hit the result is the stored bytes with the resolved format; sharp is not called and the directory is unchanged |
| CachedSharpService.ReadErrorPropagates | src/lib/cached-sharp-service.mjs:32 | a read error other than ENOENT is thrown as is, with no sharp call, no mkdir and no write |
| CachedSharpService.MissCallsBackend | src/lib/cached-sharp-service.mjs:38-43 | a miss calls sharp; sharp's failure is thrown and nothing changes; a mkdir failure throws the mkdir error and nothing changes; otherwise the directory exists, and either the data is stored and sharp's result returned unchanged, or the write's error is thrown with the path untouched (open fault) or holding the bytes written before the fault |
| CachedSharpService.StoreOnlyGrows | src/lib/cached-sharp-service.mjs:32-43 | a call never replaces or removes an entry and never removes the directory; it changes only its own path, only when that held no file, only after sharp succeeded, leaving a prefix of sharp's bytes, and all of them on success |
| CachedSharpService.MissThenHit | src/lib/cached-sharp-service.mjs:32-43 | after a call that stored a fresh result, the identical call returns the same bytes from the cache without calling sharp or changing the directory |
| CachedSharpService.HitFormatMatchesMissIff | src/lib/cached-sharp-service.mjs:35-43 | the hit after a miss returns the same result as the miss if and only if sharp returned the resolved format |
| CachedSharpService.InterruptedWriteServedAsHit | src/lib/cached-sharp-service.mjs:32-41 | a write interrupted after `n` of the bytes makes the call fail, and the identical next call returns the truncated `n` bytes as a hit without calling sharp |
| CachedSharpService.AtomicStoresOnlyOnSuccess | src/lib/cached-sharp-service.mjs:38-43 | with an atomic write, a failing call stores nothing and a successful miss stores exactly the bytes it returns |
| CachedSharpService.AtomicRetryAfterFailedWrite | src/lib/cached-sharp-service.mjs:32-43 | with an atomic write, after a failed miss the files are unchanged and the identical retry calls sharp again |
| CachedSharpService.CachedSharpService.Transform | src/lib/cached-sharp-service.mjs:19-44 | the step-by-step call returns, and leaves the directory, as `Run` says; the sharp call log gains exactly the original `(inputBuffer, transformOptions, config)` when, and only when, sharp is called |

## Findings

| source | as written | input that shows it | evidently intended | confidence | as-written member | corrected member |
|---|---|---|---|---|---|---|
| src/lib/cached-sharp-service.mjs:41 | `fs.writeFile` writes straight to `cachePath`. It creates or truncates the file first, so a failure mid-write (a full disk, say) leaves a truncated file. Line 34 then serves that file as a hit on every later call. | a miss whose sharp result has 1000 bytes, with the write failing with ENOSPC after n < 1000 bytes: the call throws, and the identical next call returns those n bytes as a hit | a failed call leaves no entry, so a retry calls sharp again (for instance, write to a temporary file and rename it into place) | not executed | CachedSharpService.InterruptedWriteServedAsHit | CachedSharpService.AtomicRetryAfterFailedWrite |

The corrected behaviour is `RunAtomic`, the same call with `WriteAtomic`;
`AtomicStoresOnlyOnSuccess` also holds of it. `Transform` and the other
lemmas describe the code as written.

## Left out

- SHA-1 and JSON.stringify are not modelled byte for byte. They are arbitrary
  deterministic functions, so nothing is claimed about collisions. Keys are
  therefore shown to differ only in what they hash. The model also omits
  JSON.stringify dropping `undefined`-valued properties and ordering
  integer-like property names first.
- The sharp service is an arbitrary, possibly failing function. Its pixel work
  is not modelled. The other members that `...sharpService` copies onto the
  decorator are not modelled either, because the decorator passes them through
  untouched.
- Calls are single sequential steps. Async suspension and same-key races
  between concurrent calls are not modelled.
- CacheKey.CachePath: `path.join` is modelled as concatenation with `/`. That
  matches Node only for formats without `/` or `..` segments, which
  `path.join` would normalise.
- Numbers are integers and arrays are not modelled, so floating-point and
  array option values are not covered. An object's property list may name a
  property twice, which no JavaScript object does; lookups and updates use the
  first occurrence.
- JsValue.ToText: only integers are printed, in plain decimal. JavaScript
  prints numbers from 1e21 upward in exponent form (`1e+21`), and prints
  fractions; neither is modelled.
- Reading a property of a primitive value (such as a string `config`) gives
  `undefined`.
- File-system faults are a fixed table per path. Read faults never use the
  code ENOENT. A write fault is an open failure (the file is untouched) or a
  failure after some bytes (the file keeps those bytes). The model does not
  cover a failure while closing the file. A failing mkdir of an existing
  directory is not modelled, because recursive mkdir accepts an existing
  directory.
- src/content/config.ts (the content-collection schemas) and astro.config.mjs
  (plugin wiring) hold no logic and are not part of this model.
