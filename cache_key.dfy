/** How `transform` names a cache entry: the resolved output format, the
    object that is serialised and hashed together with the input bytes, and
    the path `<cacheDir>/<key>.<format>` (src/lib/cached-sharp-service.mjs,
    lines 20-31). */
module CacheKey {
  import opened JsValue

  /** The format used when the options give none. */
  const DefaultFormat: Value := Str("jpeg")

  /** SHA-1 and JSON.stringify are not modelled bit by bit: they are the two
      deterministic functions the key is built from. `sha1Hex` maps the bytes
      fed to the hash to its hexadecimal digest; `stringify` maps a value to
      the bytes of its JSON text. */
  datatype KeyDerivation = KeyDerivation(sha1Hex: seq<bv8> -> string, stringify: Value -> seq<bv8>)

  /** `transformOptions.format ?? "jpeg"`. */
  function ResolveFormat(options: Fields): (f: Value)
    ensures !Nullish(f)
    ensures f == DefaultFormat || f == Get(options, "format")
    ensures Nullish(Get(options, "format")) ==> f == DefaultFormat
    ensures !Nullish(Get(options, "format")) ==> f == Get(options, "format")
  {
    Coalesce(Get(options, "format"), DefaultFormat)
  }

  /** `config?.service?.config ?? {}`. */
  function ServiceConfig(config: Value): (c: Value)
    ensures !Nullish(c)
    ensures Nullish(OptionalGet(OptionalGet(config, "service"), "config")) ==> c == Obj([])
    ensures !Nullish(OptionalGet(OptionalGet(config, "service"), "config")) ==>
              c == OptionalGet(OptionalGet(config, "service"), "config")
  {
    Coalesce(OptionalGet(OptionalGet(config, "service"), "config"), Obj([]))
  }

  /** The object `{...transformOptions, format, serviceConfig}` that is hashed. */
  function KeyObject(options: Fields, config: Value): (o: Fields)
    ensures Get(o, "format") == ResolveFormat(options)
    ensures Get(o, "serviceConfig") == ServiceConfig(config)
    ensures |options| <= |o| <= |options| + 2
  {
    var once := Assign(options, "format", ResolveFormat(options));
    GetAssign(once, "serviceConfig", ServiceConfig(config), "format");
    GetAssign(options, "format", ResolveFormat(options), "format");
    GetAssign(once, "serviceConfig", ServiceConfig(config), "serviceConfig");
    Assign(once, "serviceConfig", ServiceConfig(config))
  }

  /** The bytes fed to the hash: the input buffer, then the JSON text. */
  function HashInput(kd: KeyDerivation, input: seq<bv8>, options: Fields, config: Value): (h: seq<bv8>)
    ensures |h| >= |input| && h[..|input|] == input
    ensures h[|input|..] == kd.stringify(Obj(KeyObject(options, config)))
  {
    input + kd.stringify(Obj(KeyObject(options, config)))
  }

  /** The hex digest naming the entry. It is fixed by the input bytes and the
      hashed object alone. */
  function Key(kd: KeyDerivation, input: seq<bv8>, options: Fields, config: Value): (key: string)
    ensures forall o2: Fields, c2: Value :: KeyObject(o2, c2) == KeyObject(options, config) ==>
              kd.sha1Hex(HashInput(kd, input, o2, c2)) == key
  {
    kd.sha1Hex(HashInput(kd, input, options, config))
  }

  /** `join(cacheDir, `${cacheKey}.${format}`)`: the entry sits directly in
      the cache directory, is named by the key, and has the resolved format
      as its extension. */
  function CachePath(root: string, kd: KeyDerivation, input: seq<bv8>, options: Fields, config: Value): (p: string)
    ensures |p| > |root|
    ensures p[..|root| + 1] == root + "/"
    ensures var ext := "." + ToText(ResolveFormat(options));
            |p| >= |ext| && p[|p| - |ext|..] == ext
    ensures p == root + "/" + Key(kd, input, options, config) + "." + ToText(ResolveFormat(options))
  {
    var name := Key(kd, input, options, config) + "." + ToText(ResolveFormat(options));
    assert (root + "/" + name)[..|root| + 1] == root + "/";
    root + "/" + name
  }

  /** Besides the resolved format and service configuration, the hashed
      object carries every option unchanged. */
  lemma KeyObjectValues(options: Fields, config: Value)
    ensures forall k :: k != "format" && k != "serviceConfig" ==>
              Get(KeyObject(options, config), k) == Get(options, k)
  {
    var once := Assign(options, "format", ResolveFormat(options));
    forall k | k != "format" && k != "serviceConfig"
      ensures Get(KeyObject(options, config), k) == Get(options, k)
    {
      GetAssign(once, "serviceConfig", ServiceConfig(config), k);
      GetAssign(options, "format", ResolveFormat(options), k);
    }
  }

  /** The hashed object lists its properties in the options' own order, with
      `format` and `serviceConfig` appended only when the options lacked them. */
  lemma KeyObjectOrder(options: Fields, config: Value)
    ensures var ks := Keys(options);
            var withFormat := if "format" in ks then ks else ks + ["format"];
            Keys(KeyObject(options, config)) ==
              if "serviceConfig" in withFormat then withFormat else withFormat + ["serviceConfig"]
  {
    KeysAssign(options, "format", ResolveFormat(options));
    KeysAssign(Assign(options, "format", ResolveFormat(options)), "serviceConfig", ServiceConfig(config));
  }

  /** Options whose `format` is absent, `undefined` or `null` are hashed
      exactly like the same options with `format: "jpeg"` written into that
      slot. */
  lemma DefaultFormatSameObject(options: Fields, config: Value)
    requires Nullish(Get(options, "format"))
    ensures ResolveFormat(Assign(options, "format", DefaultFormat)) == DefaultFormat
    ensures KeyObject(Assign(options, "format", DefaultFormat), config) == KeyObject(options, config)
  {
    GetAssign(options, "format", DefaultFormat, "format");
    AssignAssign(options, "format", DefaultFormat, DefaultFormat);
  }

  /** Options whose `format` is absent, `undefined` or `null` name the same
      cache entry as the same options with `format: "jpeg"` in that slot. */
  lemma DefaultFormatSameEntry(root: string, kd: KeyDerivation, input: seq<bv8>, options: Fields, config: Value)
    requires Nullish(Get(options, "format"))
    ensures CachePath(root, kd, input, Assign(options, "format", DefaultFormat), config)
         == CachePath(root, kd, input, options, config)
  {
    DefaultFormatSameObject(options, config);
  }

  /** The call shape the default is meant for: options without a `format`
      property and the same options with `format: "jpeg"` added last name the
      same cache entry. */
  lemma OmittedFormatIsJpeg(root: string, kd: KeyDerivation, input: seq<bv8>, options: Fields, config: Value)
    requires "format" !in Keys(options)
    ensures CachePath(root, kd, input, options + [("format", Str("jpeg"))], config)
         == CachePath(root, kd, input, options, config)
  {
    AssignAppends(options, "format", DefaultFormat);
    DefaultFormatSameEntry(root, kd, input, options, config);
  }

  /** The serialisation follows property order, so `format: "jpeg"` written
      BEFORE another option is hashed differently from the omitted format:
      the two requests agree on every property yet hand different objects
      to JSON.stringify. */
  lemma FormatSlotMatters(config: Value)
    ensures var omitted := [("width", Num(200))];
            var first := [("format", Str("jpeg")), ("width", Num(200))];
            (forall k :: Get(Assign(omitted, "format", DefaultFormat), k) == Get(first, k)) &&
            KeyObject(omitted, config) != KeyObject(first, config)
  {
    var omitted := [("width", Num(200))];
    var first := [("format", Str("jpeg")), ("width", Num(200))];
    KeyObjectOrder(omitted, config);
    KeyObjectOrder(first, config);
    KeysCons(first);
    KeysCons(first[1..]);
    KeysCons(omitted);
    assert Keys(KeyObject(omitted, config))[0] == "width";
    assert Keys(KeyObject(first, config))[0] == "format";
  }

  /** The config reaches the key only through `config?.service?.config`:
      configs that agree there give the same key and the same cache path. */
  lemma ConfigMattersOnlyThroughServiceConfig(root: string, kd: KeyDerivation, input: seq<bv8>, options: Fields, c1: Value, c2: Value)
    requires ServiceConfig(c1) == ServiceConfig(c2)
    ensures Key(kd, input, options, c1) == Key(kd, input, options, c2)
    ensures CachePath(root, kd, input, options, c1) == CachePath(root, kd, input, options, c2)
  {
  }

  /** Two requests that differ in any option other than `format` and
      `serviceConfig`, or in the resolved format, or in the resolved service
      configuration, hand different objects to the hash. */
  lemma DistinctRequestsDistinctObjects(o1: Fields, c1: Value, o2: Fields, c2: Value)
    requires (exists k :: k != "format" && k != "serviceConfig" && Get(o1, k) != Get(o2, k))
          || ResolveFormat(o1) != ResolveFormat(o2)
          || ServiceConfig(c1) != ServiceConfig(c2)
    ensures KeyObject(o1, c1) != KeyObject(o2, c2)
  {
    KeyObjectValues(o1, c1);
    KeyObjectValues(o2, c2);
  }
}
