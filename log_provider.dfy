/**
 * The LogProvider registry: a process-wide cache from provider class name
 * to provider instance, filled on demand by a loader that may fail, and
 * emptied by `clear`.
 *
 * The reflective loader is abstracted into a `Loader`: what each class
 * name on the class path turns out to be when it is loaded. Instances
 * carry a serial number so that object identity is observable: two
 * providers are the same instance exactly when they are equal.
 */
module Provider {
  import opened Wrappers

  /** The provider class used when no configuration names one. */
  const DEFAULT_LOG_FQCN: string := "com.gabstudios.logging.impl.JavaLogProviderImpl"

  /** What a provider's `getService()` returns. */
  datatype ServiceKind = JavaLogService | OtherService(className: string)

  /**
   * What loading a class that is on the class path leads to:
   * - a LogProvider subclass with a public no-argument constructor, whose
   *   instances return `service`;
   * - a class whose construction fails in a way `loadLogProvider` catches
   *   (inaccessible, abstract, no such constructor, the constructor throws);
   * - a class that is instantiated but is not a LogProvider, so the cast
   *   throws a ClassCastException, which is not caught;
   * - a class whose static initialization fails, so `Class.forName`
   *   throws a linkage error, which is not caught either.
   */
  datatype ClassDef = LogProviderClass(service: ServiceKind) | NotInstantiable | NotALogProvider | FailsToInitialize

  /** The class path: class names that are present, with what loading them leads to. */
  type Loader = map<string, ClassDef>

  /** A class name the loader turns into a provider instance. */
  predicate Loadable(loader: Loader, className: string)
  {
    className in loader && loader[className].LogProviderClass?
  }

  /**
   * The provider classes of the library's class path: only the default
   * provider. Other classes a real class path holds (the JDK's, say) are
   * not listed.
   */
  const StandardClasspath: Loader := map[DEFAULT_LOG_FQCN := LogProviderClass(JavaLogService)]

  /** A provider instance: its class, its service, and which load created it. */
  datatype Provider = Provider(className: string, service: ServiceKind, serial: nat)

  /**
   * What a failed load raises: the library's own exception for the seven
   * caught cases, or the uncaught ClassCastException or linkage error.
   */
  datatype ProviderError =
    | LogProviderSysException(className: string)
    | ClassCastException(className: string)
    | LinkageError(className: string)

  /** The provider's `getService()`. */
  function GetService(p: Provider): ServiceKind
  {
    p.service
  }

  /**
   * The class name to resolve: the configuration value, or the default
   * when the value is unset (null) or empty. The result is never empty.
   */
  function ResolveId(config: Option<string>): (id: string)
    ensures id != ""
    ensures config.None? || config == Some("") ==> id == DEFAULT_LOG_FQCN
    ensures config.Some? && config.value != "" ==> id == config.value
  {
    if config.None? || |config.value| == 0 then DEFAULT_LOG_FQCN else config.value
  }

  /** One invocation of the loader; a successful one creates instance number `serial`. */
  function LoadLogProvider(loader: Loader, className: string, serial: nat): (r: Result<Provider, ProviderError>)
    ensures r.Ok? <==> Loadable(loader, className)
    ensures r.Ok? ==> r.value == Provider(className, loader[className].service, serial)
    ensures className !in loader || loader[className] == NotInstantiable ==>
              r == Err(LogProviderSysException(className))
    ensures className in loader && loader[className] == NotALogProvider ==> r == Err(ClassCastException(className))
    ensures className in loader && loader[className] == FailsToInitialize ==> r == Err(LinkageError(className))
  {
    if className !in loader then Err(LogProviderSysException(className))
    else
      match loader[className]
      case LogProviderClass(service) => Ok(Provider(className, service, serial))
      case NotInstantiable => Err(LogProviderSysException(className))
      case NotALogProvider => Err(ClassCastException(className))
      case FailsToInitialize => Err(LinkageError(className))
  }

  /** The registry's state: the cache, and how many times the loader has run. */
  datatype Registry = Registry(cache: map<string, Provider>, loads: nat)

  /**
   * The registry invariant: every cached provider is an instance of the
   * class it is cached under, loaded by this loader, created by an earlier
   * load; distinct entries are distinct instances.
   */
  ghost predicate Consistent(s: Registry, loader: Loader)
  {
    && (forall k :: k in s.cache ==>
          && Loadable(loader, k)
          && s.cache[k].className == k
          && s.cache[k].service == loader[k].service
          && s.cache[k].serial < s.loads)
    && (forall k1, k2 :: k1 in s.cache && k2 in s.cache && k1 != k2 ==> s.cache[k1].serial != s.cache[k2].serial)
  }

  /**
   * `getProvider()`: resolve the class name, return the cached instance on a
   * hit; on a miss run the loader and cache its instance only if it loaded.
   */
  function Lookup(s: Registry, loader: Loader, config: Option<string>): (out: (Result<Provider, ProviderError>, Registry))
    ensures var id := ResolveId(config);
      && (id in s.cache ==> out == (Ok(s.cache[id]), s))
      && (id !in s.cache && Loadable(loader, id) ==>
            && out.0 == Ok(Provider(id, loader[id].service, s.loads))
            && out.1 == Registry(s.cache[id := out.0.value], s.loads + 1))
      && (id !in s.cache && !Loadable(loader, id) ==>
            && out.0 == LoadLogProvider(loader, id, s.loads) && out.0.Err?
            && out.1 == Registry(s.cache, s.loads + 1))
    ensures forall k :: k != ResolveId(config) ==>
              (k in out.1.cache <==> k in s.cache) && (k in s.cache ==> out.1.cache[k] == s.cache[k])
  {
    var id := ResolveId(config);
    if id in s.cache then (Ok(s.cache[id]), s)
    else
      var loaded := LoadLogProvider(loader, id, s.loads);
      if loaded.Err? then (loaded, Registry(s.cache, s.loads + 1))
      else (loaded, Registry(s.cache[id := loaded.value], s.loads + 1))
  }

  /** `clear()`: drop every cached provider. */
  function ClearCache(s: Registry): (s': Registry)
    ensures s'.cache == map[] && s'.loads == s.loads
  {
    Registry(map[], s.loads)
  }

  /** A lookup keeps the registry consistent. */
  lemma LookupConsistent(s: Registry, loader: Loader, config: Option<string>)
    requires Consistent(s, loader)
    ensures Consistent(Lookup(s, loader, config).1, loader)
  {
  }

  /** The operations a client can perform on the registry. */
  datatype Op = GetProvider(config: Option<string>) | Clear

  /** The registry after a sequence of operations. */
  function Run(s: Registry, loader: Loader, ops: seq<Op>): Registry
    decreases |ops|
  {
    if ops == [] then s
    else
      var s' := match ops[0]
        case GetProvider(config) => Lookup(s, loader, config).1
        case Clear => ClearCache(s);
      Run(s', loader, ops[1..])
  }

  /** Any sequence of lookups and clears keeps the registry consistent. */
  lemma {:induction false} RunConsistent(s: Registry, loader: Loader, ops: seq<Op>)
    requires Consistent(s, loader)
    ensures Consistent(Run(s, loader, ops), loader)
    ensures Run(s, loader, ops).loads >= s.loads
    decreases |ops|
  {
    if ops != [] {
      match ops[0]
      case GetProvider(config) =>
        LookupConsistent(s, loader, config);
        RunConsistent(Lookup(s, loader, config).1, loader, ops[1..]);
      case Clear =>
        RunConsistent(ClearCache(s), loader, ops[1..]);
    }
  }

  /** The results and the final registry of `n` consecutive lookups with one configuration. */
  function Repeat(s: Registry, loader: Loader, config: Option<string>, n: nat)
    : (out: (seq<Result<Provider, ProviderError>>, Registry))
    decreases n
  {
    if n == 0 then ([], s)
    else
      var first := Lookup(s, loader, config);
      var rest := Repeat(first.1, loader, config, n - 1);
      ([first.0] + rest.0, rest.1)
  }

  /**
   * Consecutive lookups with one configuration and no clear in between
   * all return the first one's result. When that result is a provider, the
   * loader ran at most once and the later lookups changed nothing; when it
   * is the load failure, nothing was cached and every lookup ran the loader again.
   */
  lemma {:induction false} RepeatedLookups(s: Registry, loader: Loader, config: Option<string>, n: nat)
    requires n > 0
    ensures var out := Repeat(s, loader, config, n);
      && |out.0| == n
      && (forall i :: 0 <= i < n ==> out.0[i] == out.0[0])
      && out.0[0] == Lookup(s, loader, config).0
      && (out.0[0].Ok? ==> out.1 == Lookup(s, loader, config).1 && out.1.loads <= s.loads + 1)
      && (out.0[0].Err? ==> out.1 == Registry(s.cache, s.loads + n))
    decreases n
  {
    var first := Lookup(s, loader, config);
    var id := ResolveId(config);
    if n > 1 {
      RepeatedLookups(first.1, loader, config, n - 1);
      var rest := Repeat(first.1, loader, config, n - 1);
      if first.0.Ok? {
        assert id in first.1.cache && first.1.cache[id] == first.0.value;
        assert Lookup(first.1, loader, config) == (first.0, first.1);
      }
      var out := Repeat(s, loader, config, n);
      assert out.0 == [first.0] + rest.0;
      forall i | 0 <= i < n ensures out.0[i] == out.0[0] {
        if i > 0 { assert out.0[i] == rest.0[i - 1]; }
      }
    }
  }

  /**
   * After `clear()` the next lookup is a miss: the loader runs again and,
   * when it succeeds, hands out a fresh instance of the same class, distinct
   * from the one callers obtained before the clear.
   */
  lemma ClearForcesReload(s: Registry, loader: Loader, config: Option<string>)
    requires Consistent(s, loader)
    ensures var before := Lookup(s, loader, config);
            var after := Lookup(ClearCache(before.1), loader, config);
      && after.1.loads == before.1.loads + 1
      && (before.0.Ok? ==> after.0.Ok? && after.0.value.className == before.0.value.className
                           && after.0.value != before.0.value)
  {
  }

  /**
   * With no configuration (unset or empty) and a class path whose default
   * class is the Java log provider, `getProvider()` succeeds and its
   * service is the Java log service.
   */
  lemma DefaultProviderServesJava(s: Registry, loader: Loader, config: Option<string>)
    requires Consistent(s, loader)
    requires DEFAULT_LOG_FQCN in loader && loader[DEFAULT_LOG_FQCN] == LogProviderClass(JavaLogService)
    requires config.None? || config == Some("")
    ensures Lookup(s, loader, config).0.Ok?
    ensures GetService(Lookup(s, loader, config).0.value) == JavaLogService
  {
  }

  /**
   * A configured class name the class path does not hold makes
   * `getProvider()` fail, with no fallback to the default whatever the
   * default is, and leaves the cache as it was.
   */
  lemma UnknownProviderFails(s: Registry, loader: Loader, name: string)
    requires Consistent(s, loader)
    requires name != "" && name !in loader
    ensures Lookup(s, loader, Some(name)) ==
            (Err(LogProviderSysException(name)), Registry(s.cache, s.loads + 1))
  {
  }

  /**
   * A configured class that is on the class path but is not a LogProvider
   * (such as `java.lang.Object`) makes `getProvider()` throw the uncaught
   * ClassCastException, and leaves the cache as it was.
   */
  lemma NonProviderClassEscapes(s: Registry, loader: Loader, name: string)
    requires Consistent(s, loader)
    requires name != "" && name in loader && loader[name] == NotALogProvider
    ensures Lookup(s, loader, Some(name)) ==
            (Err(ClassCastException(name)), Registry(s.cache, s.loads + 1))
  {
  }

  /**
   * The process-wide registry `LOG_PROVIDER_MAP`, with the loader it uses
   * and a counter of loader runs.
   */
  class LogProviderRegistry {
    const loader: Loader
    var cache: map<string, Provider>
    var loads: nat

    /** The registry's abstract state. */
    function State(): Registry
      reads this
    {
      Registry(cache, loads)
    }

    ghost predicate Valid()
      reads this
    {
      Consistent(State(), loader)
    }

    /** The static initializer: an empty cache. */
    constructor (loader: Loader)
      ensures this.loader == loader && cache == map[] && loads == 0 && Valid()
    {
      this.loader := loader;
      cache := map[];
      loads := 0;
    }

    /** `getProvider()`, with the configuration property passed in. */
    method GetProvider(config: Option<string>) returns (r: Result<Provider, ProviderError>)
      requires Valid()
      modifies this
      ensures Valid()
      ensures (r, State()) == Lookup(old(State()), loader, config)
    {
      LookupConsistent(State(), loader, config);
      var id: string;
      if config.None? || |config.value| == 0 {
        id := DEFAULT_LOG_FQCN;
      } else {
        id := config.value;
      }
      if id in cache {
        return Ok(cache[id]);
      }
      var loaded := LoadLogProvider(loader, id, loads);
      loads := loads + 1;
      if loaded.Err? {
        return loaded;
      }
      cache := cache[id := loaded.value];
      return loaded;
    }

    /** `clear()`. */
    method Clear()
      requires Valid()
      modifies this
      ensures Valid()
      ensures State() == ClearCache(old(State()))
    {
      cache := map[];
    }
  }
}

/**
 * What a client can conclude from the registry's contracts alone, on the
 * standard class path: default reuse and reload after `clear()`, as in the
 * set-up and tear-down of the service tests, and a missing provider class.
 */
module ProviderScenario {
  import opened Wrappers
  import opened Provider

  /** Unset and empty configurations share one instance; after `clear()` a new one is loaded. */
  method DefaultReuseAndReload()
  {
    var registry := new LogProviderRegistry(StandardClasspath);

    var p1 := registry.GetProvider(None);
    assert p1.Ok? && GetService(p1.value) == JavaLogService;
    var p2 := registry.GetProvider(Some(""));
    assert p2 == p1 && registry.loads == 1;

    registry.Clear();
    var p3 := registry.GetProvider(None);
    assert p3.Ok? && p3 != p1 && registry.loads == 2;
  }

  /** A configured class that is not on the class path fails and is not cached. */
  method MissingClassFails()
  {
    var registry := new LogProviderRegistry(StandardClasspath);
    var p1 := registry.GetProvider(None);
    var bad := registry.GetProvider(Some("com.gabstudios.logging.impl.JavaLogProviderImpl2"));
    assert bad == Err(LogProviderSysException("com.gabstudios.logging.impl.JavaLogProviderImpl2"));
    assert registry.cache.Keys == {DEFAULT_LOG_FQCN};
  }
}
