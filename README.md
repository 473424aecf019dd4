# gab-logging: log-call pipeline and provider registry, in Dafny

This project models the two decision-making parts of the gab-logging Java library:

* **`JavaLogServiceImpl`**, the log service. Each of its nine public log methods does three things in order.
  1. It validates its arguments: origin class name, then method name, then message, then the throwable on the overloads that take one.
  2. It asks the `java.util.logging` logger whether a *gate* level is enabled for the origin.
  3. If the gate level is enabled, it emits exactly one record `(level, sourceClass, sourceMethod, message[, thrown])`.

  The severity ladder includes the custom `SECURITY` level, whose rank is SEVERE + 1000 = 2000. The security methods gate on WARNING but emit at SECURITY. The model reproduces this: a security record is emitted exactly when WARNING is enabled for the origin (`LogService.SecurityDroppedAboveWarning` shows what follows).
* **`LogProvider`**, the process-wide provider registry. It is a map from provider class name to provider instance:
  * `getProvider()` resolves the class name from configuration, falling back to `DEFAULT_LOG_FQCN` when the value is null or empty;
  * on a hit it returns the cached instance;
  * on a miss it invokes the loader and caches the result only if loading succeeded;
  * `clear()` empties the map.

## Files

* `wrappers.dfy`: `Option`, `Result` and `Outcome`. `None` stands for a Java `null`; `Err`/`Fail` stand for a thrown exception.
* `levels.dfy`: module `Levels`. Defines the `Level` enumeration, its numeric `Rank`, the ladder, and the `isLoggable` comparison.
* `log_service.dfy`: module `LogService`. Holds:
  * validation (`CheckText`, `Validate`);
  * `GateLevel` and `EmitLevel`;
  * the pure specification `Effect` of one call;
  * `Replay` of a call sequence;
  * the class `JavaLogServiceImpl`, whose nine log methods append to the backend's record stream `emitted` in place.

  Module `LogServiceScenario` exercises sample calls and rejections against the contracts: an enabled warning, a debug call below the threshold, an oversized method name, a null throwable, and security calls that are dropped or emitted.
* `log_provider.dfy`: module `Provider`. Holds the pure registry step functions (`Lookup`, `ClearCache`), the invariant `Consistent`, its lemmas, and the class `LogProviderRegistry`. The class's `GetProvider` and `Clear` update the cache and a load counter in place. Module `ProviderScenario` works on `StandardClasspath`. It covers default reuse and reload after `clear()`, as in the `setUp`/`tearDown` of `LogServiceTest`, and the missing class of `LogProviderNegativeTest`. The empty configuration `Some("")` it also passes is a case of the model's own.

## Modelling decisions

* **Backend.** A `java.util.logging` backend becomes `Thresholds`: a threshold rank per origin (class name), plus a root threshold that every other origin inherits. `isLoggable(level)` is `Rank(level) >= threshold`. `logp` appends a `LogRecord` to `emitted`.
* **Null strings.** The method name and the message are `Option<string>`, so a null argument is a validation failure, as it is for `testNotNullEmpty`. The origin is the calling class's name, a plain string.
* **Lengths are Java lengths.** `String.length()` counts UTF-16 code units, so the model measures strings with `Utf16Length`: one unit per character of the Basic Multilingual Plane, two per supplementary character. Dafny strings cannot hold unpaired surrogates (see "## Left out").
* **Maximum lengths are inclusive** (≤ 64 and ≤ 256), as the constant names `METHOD_NAME_MAX_LENGTH` and `MESSAGE_NAME_MAX_LENGTH` say. The doc comments say "less than 64" / "less than 256". The `Validate` library that draws the boundary is not part of this model.
* **Validation error.** The `ValidationException` is modelled as `ValidationError`. It names the failing argument and whether that argument was null/empty or too long, or it is `NullThrowable`.
* **Nine methods, one body.** The Java method bodies are copies of one straight-line body. They differ only in their gate and emit levels and, on the three throwable overloads, in the null check of `thrown` and the `logp` overload that passes it. The model keeps one body, `JavaLogServiceImpl.Log`, and nine entry points that pass their `Kind` and overload.
* **No sanitizer.** The shipped code has no sanitizer hook. Method name and message reach the backend unchanged, and the model keeps it that way.
* **Loader.** The reflective loader becomes a `Loader`: a map from the class names on the class path to what loading them leads to (`ClassDef`).
  * A missing class, or one whose construction fails in a caught way, raises `LogProviderSysException`. The seven `catch` branches are collapsed into this one error.
  * A class that is instantiated but is not a `LogProvider` fails the cast at `LogProvider.java:79` with an uncaught `ClassCastException`.
  * A class whose static initialization fails makes `Class.forName` throw an uncaught linkage error.
  * In every failure case the `put` at line 64 is skipped, so the cache is unchanged.
* **Instance identity.** Every loaded provider carries a serial number, the value of the load counter when it was loaded. Equal providers are therefore the same instance, and a reload after `clear()` is a different instance.
* **Load counter.** The counter `loads` counts loader invocations, including failed ones. The source caches nothing on failure.
* **`getService()`.** `JavaLogProviderImpl` is not part of this model. `StandardClasspath` records what its tests show: the default class loads, and its `getService()` is the Java log service. `DefaultProviderServesJava`, `UnknownProviderFails` and `NonProviderClassEscapes` hold for every class path, not only this one.

## Model

| member | source | states |
|---|---|---|
| Levels.SecurityRank | src/main/java/com/gabstudios/logging/impl/JavaLogServiceImpl.java:59-68 | SECURITY's rank is SEVERE's rank plus 1000, that is 2000 |
| Levels.LadderDescends | src/main/java/com/gabstudios/logging/impl/JavaLogServiceImpl.java:33-45 | the ladder SECURITY > SEVERE > WARNING > INFO > CONFIG > FINE > FINER > FINEST lists every level and is strictly descending in rank |
| Levels.SecurityAboveStandard | src/main/java/com/gabstudios/logging/impl/JavaLogServiceImpl.java:36-38 | every standard level ranks at most SEVERE, and SEVERE is strictly below SECURITY |
| Levels.RankInjective | src/main/java/com/gabstudios/logging/impl/JavaLogServiceImpl.java:36-45 | two levels have the same rank exactly when they are the same level, so the order is strict and total |
| LogService.Utf16Length | src/main/java/com/gabstudios/logging/impl/JavaLogServiceImpl.java:148-151 | the Java length of a string lies between its number of characters and twice that number, and is zero exactly for the empty string |
| LogService.Utf16LengthBmp | src/main/java/com/gabstudios/logging/impl/JavaLogServiceImpl.java:148-151 | a string with no supplementary characters has a Java length equal to its number of characters |
| LogService.Utf16LengthSupplementary | src/main/java/com/gabstudios/logging/impl/JavaLogServiceImpl.java:148-151 | a string of supplementary characters has a Java length of twice its number of characters |
| LogService.CheckText | src/main/java/com/gabstudios/logging/impl/JavaLogServiceImpl.java:148-151 | one string check passes exactly for a non-null, non-empty string of at most max UTF-16 units; otherwise it reports null/empty or too long |
| LogService.Validate | src/main/java/com/gabstudios/logging/impl/JavaLogServiceImpl.java:147-151 | validation passes exactly when all arguments are valid; the first failing check, in the order origin, method name, message, throwable, decides the error; lengths are UTF-16 lengths |
| LogService.SupplementaryCountsTwice | src/main/java/com/gabstudios/logging/impl/JavaLogServiceImpl.java:148-151 | a method name of 40 supplementary characters (80 UTF-16 units) is too long, while a message of 64 of them (128 units) is accepted |
| LogService.GateLevel | src/main/java/com/gabstudios/logging/impl/JavaLogServiceImpl.java:155-398 | the gate level is never SECURITY; it equals the emit level for every kind except Security, which gates on WARNING (lines 301, 334) |
| LogService.EmitLevel | src/main/java/com/gabstudios/logging/impl/JavaLogServiceImpl.java:155-398 | a record is emitted at SECURITY exactly for the Security methods; every other kind emits at a standard level no higher than SEVERE, and never at FINE or FINER |
| LogService.LevelMapping | src/main/java/com/gabstudios/logging/LogService.java:25-33 | distinct kinds emit at distinct levels; the emit levels rise in the documented order of the methods (debug, configuration, message, warning, failure, security), in both directions; no kind gates above its emit level |
| LogService.Effect | src/main/java/com/gabstudios/logging/impl/JavaLogServiceImpl.java:147-158 | a call fails exactly when its arguments are invalid, with the error Validate reports; it emits exactly when they are valid and the gate level is enabled; the record carries the emit level, the origin as source class, the method name and message unchanged, and the throwable only on throwable overloads |
| LogService.SecurityGatesOnWarning | src/main/java/com/gabstudios/logging/impl/JavaLogServiceImpl.java:299-304 | a valid security call never fails and emits a SECURITY record exactly when WARNING is enabled for its origin |
| LogService.SecurityDroppedAboveWarning | src/main/java/com/gabstudios/logging/impl/JavaLogServiceImpl.java:332-337 | when the origin's threshold lies above WARNING and at most SECURITY, a valid security call emits nothing, although SECURITY would pass that threshold |
| LogService.EffectAdmissible | src/main/java/com/gabstudios/logging/impl/JavaLogServiceImpl.java:242-247 | a record that reaches the backend has a non-empty source class, method name and message within bounds, and a level that passes its origin's threshold |
| LogService.ValidCallsSucceed | src/test/java/com/gabstudios/logging/LogServiceTest.java:51-214 | a call with valid arguments returns normally whatever the backend thresholds, and emits at most one record |
| LogService.ReplayAdmissible | src/main/java/com/gabstudios/logging/impl/JavaLogServiceImpl.java:147-158 | after any sequence of calls the backend holds exactly one record per call that was valid and enabled, and every record is admissible |
| LogService.JavaLogServiceImpl.constructor | src/main/java/com/gabstudios/logging/impl/JavaLogServiceImpl.java:129-132 | a new service writes to a backend with the given thresholds and no records yet |
| LogService.JavaLogServiceImpl.Log | src/main/java/com/gabstudios/logging/impl/JavaLogServiceImpl.java:147-158 | the shared body returns the validation outcome of Effect and appends exactly Effect's record, if any, to the backend; a failed validation leaves it unchanged |
| LogService.JavaLogServiceImpl.LogConfiguration | src/main/java/com/gabstudios/logging/impl/JavaLogServiceImpl.java:144-159 | validates, gates on CONFIG, emits at CONFIG with no throwable |
| LogService.JavaLogServiceImpl.LogDebug | src/main/java/com/gabstudios/logging/impl/JavaLogServiceImpl.java:172-187 | validates, gates on FINEST, emits at FINEST with no throwable |
| LogService.JavaLogServiceImpl.LogFailure | src/main/java/com/gabstudios/logging/impl/JavaLogServiceImpl.java:200-216 | validates, gates on SEVERE, emits at SEVERE with no throwable |
| LogService.JavaLogServiceImpl.LogFailureThrown | src/main/java/com/gabstudios/logging/impl/JavaLogServiceImpl.java:231-248 | validates including a non-null throwable, gates on SEVERE, emits at SEVERE with the throwable |
| LogService.JavaLogServiceImpl.LogMessage | src/main/java/com/gabstudios/logging/impl/JavaLogServiceImpl.java:261-276 | validates, gates on INFO, emits at INFO with no throwable |
| LogService.JavaLogServiceImpl.LogSecurity | src/main/java/com/gabstudios/logging/impl/JavaLogServiceImpl.java:289-305 | validates, gates on WARNING, emits at SECURITY with no throwable |
| LogService.JavaLogServiceImpl.LogSecurityThrown | src/main/java/com/gabstudios/logging/impl/JavaLogServiceImpl.java:320-338 | validates including a non-null throwable, gates on WARNING, emits at SECURITY with the throwable |
| LogService.JavaLogServiceImpl.LogWarning | src/main/java/com/gabstudios/logging/impl/JavaLogServiceImpl.java:351-367 | validates, gates on WARNING, emits at WARNING with no throwable |
| LogService.JavaLogServiceImpl.LogWarningThrown | src/main/java/com/gabstudios/logging/impl/JavaLogServiceImpl.java:382-400 | validates including a non-null throwable, gates on WARNING, emits at WARNING with the throwable |
| Provider.ResolveId | src/main/java/com/gabstudios/logging/LogProvider.java:54-58 | the resolved class name is DEFAULT_LOG_FQCN when the configuration is null or empty, otherwise the configuration value itself; it is never empty |
| Provider.LoadLogProvider | src/main/java/com/gabstudios/logging/LogProvider.java:73-111 | loading succeeds exactly for a LogProvider class that can be instantiated, giving an instance of it; a missing or non-instantiable class raises LogProviderSysException, a class that is not a LogProvider raises the uncaught ClassCastException, and a failing static initializer raises an uncaught linkage error |
| Provider.Lookup | src/main/java/com/gabstudios/logging/LogProvider.java:52-68 | hit: the cached instance, registry unchanged, loader not run; miss that loads: the new instance, cached under the id, load counter up by one; miss that fails: the loader's error, cache unchanged; every other key keeps its value |
| Provider.ClearCache | src/main/java/com/gabstudios/logging/LogProvider.java:124-127 | clear leaves the cache empty and the load count as it was |
| Provider.LookupConsistent | src/main/java/com/gabstudios/logging/LogProvider.java:60-65 | a lookup keeps the registry consistent: each cached instance belongs to its key's class, was loaded earlier, and distinct keys hold distinct instances |
| Provider.RunConsistent | src/main/java/com/gabstudios/logging/LogProvider.java:38-43 | every sequence of getProvider and clear calls keeps the registry consistent and never decreases the load count |
| Provider.RepeatedLookups | src/main/java/com/gabstudios/logging/LogProvider.java:60-67 | repeated lookups with one configuration and no clear return the first result; after a success the loader ran at most once; after a failure nothing is cached and each lookup reruns the loader |
| Provider.ClearForcesReload | src/main/java/com/gabstudios/logging/LogProvider.java:124-127 | after clear the next lookup runs the loader again and, after a success, returns a new instance of the same class, distinct from the earlier one |
| Provider.DefaultProviderServesJava | src/test/java/com/gabstudios/logging/LogProviderTest.java:54-86 | with no configuration and any class path whose default class is the Java log provider, getProvider succeeds and its service is the Java log service |
| Provider.UnknownProviderFails | src/test/java/com/gabstudios/logging/LogProviderNegativeTest.java:49-64 | on any class path, a configured class name the class path lacks makes getProvider fail with LogProviderSysException, with no fallback to the default whatever the default is, and leaves the cache unchanged |
| Provider.NonProviderClassEscapes | src/main/java/com/gabstudios/logging/LogProvider.java:77-110 | a configured class that is on the class path but is not a LogProvider (such as java.lang.Object) makes getProvider throw the uncaught ClassCastException from the cast, and leaves the cache unchanged |
| Provider.LogProviderRegistry.constructor | src/main/java/com/gabstudios/logging/LogProvider.java:38-43 | the registry starts with an empty cache and no loads |
| Provider.LogProviderRegistry.GetProvider | src/main/java/com/gabstudios/logging/LogProvider.java:52-68 | getProvider returns what Lookup returns and leaves the registry in Lookup's new state, keeping it consistent |
| Provider.LogProviderRegistry.Clear | src/main/java/com/gabstudios/logging/LogProvider.java:124-127 | clear empties the cache in place and keeps the registry consistent |

## Left out

* The internals of `java.util.logging` are not modelled: `Logger.getLogger`, the logger hierarchy, handlers, `logp`'s formatting and the resource bundle `sun.util.logging.resources.logging`. The logger tree is reduced to one threshold per origin plus a root threshold. Thresholds are fixed for the lifetime of a service object, because `Logger.setLevel` is backend configuration and not part of this library.
* `Level.OFF` and `Level.ALL` are not levels of the enumeration. They are plain threshold ranks: `Integer.MAX_VALUE` passes no level, and `Integer.MIN_VALUE` passes every level.
* Java's 32-bit `int` is not modelled. Every rank and threshold used here fits in it.
* Reflection in `loadLogProvider` (`Class.forName(...).getDeclaredConstructor().newInstance()`) becomes the `Loader` map. The exception messages and wrapped causes of `LogProviderSysException` are not modelled, and neither are its constructors.
* Provider.LoadLogProvider: the uncaught linkage errors of `Class.forName` are merged into one `LinkageError`. The model does not tell `ExceptionInInitializerError` on the first load from `NoClassDefFoundError` on later ones.
* `System.getProperty` is not modelled. The configuration value is a parameter of `GetProvider`.
* The `com.gabstudios.validate.Validate` library is not part of this model. Its checks are written directly as `CheckText` and `Validate`.
* A null `clazz` is not modelled. It throws `NullPointerException` at `clazz.getName()` before validation; the model takes the class name as a string.
* The commented-out JSON message builder (`JavaLogServiceImpl.java:84-122`) is dead code and is not modelled.
* `LogService.java` is an interface with no logic. It is not modelled beyond the method order in its doc comment (`KindOrder`).
* `JavaLogProviderImpl` is not part of this model. Only its class name and the service it hands out appear, in `StandardClasspath`.
* `StandardClasspath` lists only the provider classes of the class path. The other classes a real class path holds, such as the JDK's, are not listed; on a loader that lists them as `NotALogProvider`, a lookup raises `ClassCastException` (`NonProviderClassEscapes`).
* Strings holding unpaired UTF-16 surrogates are not modelled. Java allows them, but a Dafny `string` cannot hold them, because its `char` is a Unicode scalar value. Java counts each such surrogate as one unit, as `Utf16Length` counts a Basic Multilingual Plane character.
* Concurrency is not modelled. `LOG_PROVIDER_MAP` is an unsynchronized `HashMap`, and the model is single-threaded.
