/**
 * The log-call pipeline of JavaLogServiceImpl: argument validation, the
 * gate-level check against the backend threshold, and emission of one
 * record to the backend.
 *
 * The java.util.logging backend is abstracted into a per-origin threshold
 * (`Thresholds`) and the sequence of records `logp` has received.
 */
module LogService {
  import opened Wrappers
  import Levels

  /** Longest accepted method name. */
  const METHOD_NAME_MAX_LENGTH: nat := 64

  /** Longest accepted message. */
  const MESSAGE_NAME_MAX_LENGTH: nat := 256

  /** The six families of log methods. */
  datatype Kind = Debug | Configuration | Message | Warning | Failure | Security

  /** The attached failure cause of a record. */
  datatype Throwable = Throwable(detail: string)

  /**
   * Which overload was called: the three-argument one, or the one that
   * also takes a throwable (`None` is a null throwable). Only Warning,
   * Failure and Security have the second.
   */
  datatype Overload = Plain | WithThrowable(thrown: Option<Throwable>)

  /**
   * One call of a log method. The origin is the calling class's name;
   * the method name and message may be null (`None`).
   */
  datatype Call = Call(kind: Kind, origin: string, methodName: Option<string>,
                       message: Option<string>, overload: Overload)

  /** The record handed to `logp`: level, source class, source method, message, thrown. */
  datatype LogRecord = LogRecord(level: Levels.Level, sourceClass: string, sourceMethod: string,
                                 message: string, thrown: Option<Throwable>)

  /** The argument a validation failure is about. */
  datatype Field = OriginName | MethodName | MessageText

  /** The validation exception raised for bad arguments. */
  datatype ValidationError = NullOrEmpty(field: Field) | TooLong(field: Field, max: nat) | NullThrowable

  /** A character outside the Basic Multilingual Plane takes two UTF-16 code units. */
  predicate Supplementary(c: char)
  {
    c as int >= 0x1_0000
  }

  /**
   * Java's `String.length()`: the number of UTF-16 code units, one per
   * character of the Basic Multilingual Plane and two per supplementary
   * character.
   */
  function Utf16Length(s: string): (n: nat)
    ensures |s| <= n <= 2 * |s|
    ensures n == 0 <==> s == []
  {
    if s == [] then 0 else Utf16Length(s[1..]) + (if Supplementary(s[0]) then 2 else 1)
  }

  /** A string of Basic Multilingual Plane characters is as long in Java as it has characters. */
  lemma {:induction false} Utf16LengthBmp(s: string)
    requires forall i :: 0 <= i < |s| ==> !Supplementary(s[i])
    ensures Utf16Length(s) == |s|
  {
    if s != [] {
      Utf16LengthBmp(s[1..]);
    }
  }

  /** A string of supplementary characters is twice as long in Java as it has characters. */
  lemma {:induction false} Utf16LengthSupplementary(s: string)
    requires forall i :: 0 <= i < |s| ==> Supplementary(s[i])
    ensures Utf16Length(s) == 2 * |s|
  {
    if s != [] {
      Utf16LengthSupplementary(s[1..]);
    }
  }

  /** A string argument that is non-null, non-empty and at most `max` UTF-16 units long. */
  predicate ValidText(s: Option<string>, max: nat)
  {
    s.Some? && 0 < Utf16Length(s.value) <= max
  }

  /** All arguments of a call are acceptable. */
  predicate ValidArgs(origin: string, methodName: Option<string>, message: Option<string>, overload: Overload)
  {
    && origin != ""
    && ValidText(methodName, METHOD_NAME_MAX_LENGTH)
    && ValidText(message, MESSAGE_NAME_MAX_LENGTH)
    && overload != WithThrowable(None)
  }

  /** The check of one string argument: not null or empty, then not longer than `max`. */
  function CheckText(s: Option<string>, field: Field, max: nat): (r: Outcome<ValidationError>)
    ensures r.Pass? <==> ValidText(s, max)
    ensures r.Fail? && (s.None? || s.value == "") ==> r.error == NullOrEmpty(field)
    ensures r.Fail? && s.Some? && s.value != "" ==> r.error == TooLong(field, max) && Utf16Length(s.value) > max
  {
    if s.None? || s.value == "" then Fail(NullOrEmpty(field))
    else if Utf16Length(s.value) > max then Fail(TooLong(field, max))
    else Pass
  }

  /**
   * The validation every log method runs before touching the backend:
   * origin, then method name, then message, then (on the throwable
   * overloads) the throwable. The first failing check decides the error.
   */
  function Validate(origin: string, methodName: Option<string>, message: Option<string>,
                    overload: Overload): (r: Outcome<ValidationError>)
    ensures r.Pass? <==> ValidArgs(origin, methodName, message, overload)
    ensures origin == "" ==> r == Fail(NullOrEmpty(OriginName))
    ensures origin != "" && (methodName.None? || methodName.value == "") ==>
              r == Fail(NullOrEmpty(MethodName))
    ensures origin != "" && methodName.Some? && Utf16Length(methodName.value) > METHOD_NAME_MAX_LENGTH ==>
              r == Fail(TooLong(MethodName, METHOD_NAME_MAX_LENGTH))
    ensures origin != "" && ValidText(methodName, METHOD_NAME_MAX_LENGTH)
              && (message.None? || message.value == "") ==>
              r == Fail(NullOrEmpty(MessageText))
    ensures origin != "" && ValidText(methodName, METHOD_NAME_MAX_LENGTH)
              && message.Some? && Utf16Length(message.value) > MESSAGE_NAME_MAX_LENGTH ==>
              r == Fail(TooLong(MessageText, MESSAGE_NAME_MAX_LENGTH))
    ensures r == Fail(NullThrowable) <==>
              origin != "" && ValidText(methodName, METHOD_NAME_MAX_LENGTH)
              && ValidText(message, MESSAGE_NAME_MAX_LENGTH) && overload == WithThrowable(None)
  {
    if origin == "" then Fail(NullOrEmpty(OriginName))
    else
      var m := CheckText(methodName, MethodName, METHOD_NAME_MAX_LENGTH);
      if m.Fail? then m
      else
        var t := CheckText(message, MessageText, MESSAGE_NAME_MAX_LENGTH);
        if t.Fail? then t
        else if overload == WithThrowable(None) then Fail(NullThrowable)
        else Pass
  }

  /**
   * The bound counts UTF-16 units: 40 supplementary characters (80 units)
   * are too long for a method name, and 64 of them fit in a message only
   * because 128 <= 256.
   */
  lemma SupplementaryCountsTwice(c: char)
    requires Supplementary(c)
    ensures Validate("MyType", Some(seq(40, _ => c)), Some("m"), Plain) == Fail(TooLong(MethodName, METHOD_NAME_MAX_LENGTH))
    ensures Validate("MyType", Some("save"), Some(seq(64, _ => c)), Plain) == Pass
  {
    Utf16LengthSupplementary(seq(40, _ => c));
    Utf16LengthSupplementary(seq(64, _ => c));
    Utf16LengthBmp("m");
    Utf16LengthBmp("save");
  }

  /** The level whose enablement the method asks the logger about. */
  function GateLevel(k: Kind): (r: Levels.Level)
    ensures r != Levels.Security
    ensures k != Security ==> r == EmitLevel(k)
    ensures k == Security ==> r == Levels.Warning
  {
    match k
    case Debug => Levels.Finest
    case Configuration => Levels.Config
    case Message => Levels.Info
    case Warning => Levels.Warning
    case Failure => Levels.Severe
    case Security => Levels.Warning
  }

  /** The level the record is emitted at. */
  function EmitLevel(k: Kind): (r: Levels.Level)
    ensures r == Levels.Security <==> k == Security
    ensures k != Security ==> Levels.Rank(r) <= Levels.SEVERE_RANK
    ensures r != Levels.Fine && r != Levels.Finer
  {
    match k
    case Debug => Levels.Finest
    case Configuration => Levels.Config
    case Message => Levels.Info
    case Warning => Levels.Warning
    case Failure => Levels.Severe
    case Security => Levels.Security
  }

  /**
   * The order of the log methods from lowest to highest, as the LogService
   * interface documents it: debug, configuration, message, warning,
   * failure, security.
   */
  function KindOrder(k: Kind): nat
  {
    match k
    case Debug => 0
    case Configuration => 1
    case Message => 2
    case Warning => 3
    case Failure => 4
    case Security => 5
  }

  /**
   * Each method family emits at its own level, the emit levels rise in the
   * documented order of the methods, and no method gates on a level above
   * the one it emits at.
   */
  lemma LevelMapping(k: Kind, k': Kind)
    ensures EmitLevel(k) == EmitLevel(k') ==> k == k'
    ensures KindOrder(k) < KindOrder(k') <==> Levels.Rank(EmitLevel(k)) < Levels.Rank(EmitLevel(k'))
    ensures Levels.Rank(GateLevel(k)) <= Levels.Rank(EmitLevel(k))
  {
  }

  /**
   * The backend's configured thresholds: an explicit threshold rank per
   * origin, and the root threshold every other origin inherits.
   */
  datatype Thresholds = Thresholds(perOrigin: map<string, int>, root: int)

  /** The threshold in force for an origin. */
  function ThresholdFor(t: Thresholds, origin: string): int
  {
    if origin in t.perOrigin then t.perOrigin[origin] else t.root
  }

  /** The backend's `isLoggable` check for the logger of an origin. */
  predicate Enabled(t: Thresholds, origin: string, level: Levels.Level)
  {
    Levels.IsLoggable(level, ThresholdFor(t, origin))
  }

  /** The throwable a record carries: none on the three-argument overloads. */
  function ThrownOf(o: Overload): Option<Throwable>
  {
    match o
    case Plain => None
    case WithThrowable(t) => t
  }

  /**
   * The effect of one log call against the backend thresholds: a
   * validation error, nothing (the gate level is disabled), or exactly one
   * record.
   */
  function Effect(t: Thresholds, c: Call): (r: Result<Option<LogRecord>, ValidationError>)
    ensures r.Err? <==> !ValidArgs(c.origin, c.methodName, c.message, c.overload)
    ensures r.Err? ==> Validate(c.origin, c.methodName, c.message, c.overload) == Fail(r.error)
    ensures (r.Ok? && r.value.Some?) <==>
              ValidArgs(c.origin, c.methodName, c.message, c.overload) && Enabled(t, c.origin, GateLevel(c.kind))
    ensures r.Ok? && r.value.Some? ==>
              && c.methodName.Some? && c.message.Some?
              && r.value.value == LogRecord(EmitLevel(c.kind), c.origin, c.methodName.value,
                                            c.message.value, ThrownOf(c.overload))
  {
    var v := Validate(c.origin, c.methodName, c.message, c.overload);
    if v.Fail? then Err(v.error)
    else if Enabled(t, c.origin, GateLevel(c.kind)) then
      Ok(Some(LogRecord(EmitLevel(c.kind), c.origin, c.methodName.value, c.message.value, ThrownOf(c.overload))))
    else Ok(None)
  }

  /** The records a call's effect appends to the backend. */
  function Emission(r: Result<Option<LogRecord>, ValidationError>): seq<LogRecord>
  {
    if r.Ok? && r.value.Some? then [r.value.value] else []
  }

  /** What the caller of a log method observes: success, or the validation exception. */
  function Status(r: Result<Option<LogRecord>, ValidationError>): Outcome<ValidationError>
  {
    if r.Err? then Fail(r.error) else Pass
  }

  /**
   * A security call with valid arguments never fails; it emits a record
   * exactly when WARNING is enabled for its origin, and that record is at
   * SECURITY.
   */
  lemma SecurityGatesOnWarning(t: Thresholds, c: Call)
    requires c.kind == Security
    requires ValidArgs(c.origin, c.methodName, c.message, c.overload)
    ensures Effect(t, c).Ok?
    ensures Effect(t, c).value.Some? <==> Enabled(t, c.origin, Levels.Warning)
    ensures Effect(t, c).value.Some? ==> Effect(t, c).value.value.level == Levels.Security
  {
  }

  /**
   * The consequence of gating on WARNING: when an origin's threshold lies
   * above WARNING (SEVERE, say), a valid security call is dropped although
   * SECURITY itself would pass that threshold.
   */
  lemma SecurityDroppedAboveWarning(t: Thresholds, c: Call)
    requires c.kind == Security
    requires ValidArgs(c.origin, c.methodName, c.message, c.overload)
    requires Levels.Rank(Levels.Warning) < ThresholdFor(t, c.origin) <= Levels.Rank(Levels.Security)
    ensures Effect(t, c) == Ok(None)
    ensures Levels.IsLoggable(Levels.Security, ThresholdFor(t, c.origin))
  {
  }

  /**
   * Calls with valid arguments return normally whatever the backend
   * thresholds, whether or not they emit.
   */
  lemma ValidCallsSucceed(t: Thresholds, c: Call)
    requires ValidArgs(c.origin, c.methodName, c.message, c.overload)
    ensures Status(Effect(t, c)) == Pass
    ensures |Emission(Effect(t, c))| <= 1
  {
  }

  /**
   * What the backend may hold: an emitted record has a non-empty source
   * class, method name and message within the bounds, and a level that
   * passes the threshold of its source class.
   */
  predicate Admissible(t: Thresholds, r: LogRecord)
  {
    && r.sourceClass != ""
    && 0 < Utf16Length(r.sourceMethod) <= METHOD_NAME_MAX_LENGTH
    && 0 < Utf16Length(r.message) <= MESSAGE_NAME_MAX_LENGTH
    && Enabled(t, r.sourceClass, r.level)
  }

  /** Every record a single call emits is admissible: nothing below its threshold, nothing oversized. */
  lemma EffectAdmissible(t: Thresholds, c: Call)
    ensures forall i :: 0 <= i < |Emission(Effect(t, c))| ==> Admissible(t, Emission(Effect(t, c))[i])
  {
  }

  /** The records a sequence of calls appends to the backend, in call order. */
  function Replay(t: Thresholds, calls: seq<Call>): seq<LogRecord>
  {
    if calls == [] then [] else Replay(t, calls[..|calls| - 1]) + Emission(Effect(t, calls[|calls| - 1]))
  }

  /** The number of calls in a sequence that pass validation and their gate. */
  function EnabledCount(t: Thresholds, calls: seq<Call>): nat
  {
    if calls == [] then 0
    else
      var c := calls[|calls| - 1];
      EnabledCount(t, calls[..|calls| - 1])
        + (if ValidArgs(c.origin, c.methodName, c.message, c.overload) && Enabled(t, c.origin, GateLevel(c.kind))
           then 1 else 0)
  }

  /**
   * After any sequence of calls the backend holds one record per call that
   * was valid and enabled, no more, and each of them is admissible.
   */
  lemma {:induction false} ReplayAdmissible(t: Thresholds, calls: seq<Call>)
    ensures |Replay(t, calls)| == EnabledCount(t, calls) <= |calls|
    ensures forall i :: 0 <= i < |Replay(t, calls)| ==> Admissible(t, Replay(t, calls)[i])
  {
    if calls != [] {
      var init, last := calls[..|calls| - 1], calls[|calls| - 1];
      ReplayAdmissible(t, init);
      EffectAdmissible(t, last);
      var e := Emission(Effect(t, last));
      assert Replay(t, calls) == Replay(t, init) + e;
      forall i | 0 <= i < |Replay(t, calls)|
        ensures Admissible(t, Replay(t, calls)[i])
      {
        if i < |Replay(t, init)| {
          assert Replay(t, calls)[i] == Replay(t, init)[i];
        } else {
          assert Replay(t, calls)[i] == e[i - |Replay(t, init)|];
        }
      }
    }
  }

  /**
   * The Java log service. It holds no state of its own; `emitted` is the
   * record stream of the backend it writes to and `thresholds` that
   * backend's configuration.
   */
  class JavaLogServiceImpl {
    const thresholds: Thresholds
    var emitted: seq<LogRecord>

    /** Everything the backend has received from this service is admissible. */
    ghost predicate Valid()
      reads this
    {
      forall i :: 0 <= i < |emitted| ==> Admissible(thresholds, emitted[i])
    }

    constructor (t: Thresholds)
      ensures thresholds == t && emitted == [] && Valid()
    {
      thresholds := t;
      emitted := [];
    }

    /** The body shared by the nine log methods: validate, ask the gate, emit. */
    method Log(c: Call) returns (r: Outcome<ValidationError>)
      requires Valid()
      modifies this
      ensures Valid()
      ensures r == Status(Effect(thresholds, c))
      ensures emitted == old(emitted) + Emission(Effect(thresholds, c))
    {
      EffectAdmissible(thresholds, c);
      var v := Validate(c.origin, c.methodName, c.message, c.overload);
      if v.Fail? {
        return v;
      }
      var fqcn := c.origin;
      if Enabled(thresholds, fqcn, GateLevel(c.kind)) {
        emitted := emitted + [LogRecord(EmitLevel(c.kind), fqcn, c.methodName.value, c.message.value,
                                        ThrownOf(c.overload))];
      }
      return Pass;
    }

    method LogConfiguration(origin: string, methodName: Option<string>, message: Option<string>)
      returns (r: Outcome<ValidationError>)
      requires Valid()
      modifies this
      ensures Valid()
      ensures r == Status(Effect(thresholds, Call(Configuration, origin, methodName, message, Plain)))
      ensures emitted == old(emitted) + Emission(Effect(thresholds, Call(Configuration, origin, methodName, message, Plain)))
    {
      r := Log(Call(Configuration, origin, methodName, message, Plain));
    }

    method LogDebug(origin: string, methodName: Option<string>, message: Option<string>)
      returns (r: Outcome<ValidationError>)
      requires Valid()
      modifies this
      ensures Valid()
      ensures r == Status(Effect(thresholds, Call(Debug, origin, methodName, message, Plain)))
      ensures emitted == old(emitted) + Emission(Effect(thresholds, Call(Debug, origin, methodName, message, Plain)))
    {
      r := Log(Call(Debug, origin, methodName, message, Plain));
    }

    method LogFailure(origin: string, methodName: Option<string>, message: Option<string>)
      returns (r: Outcome<ValidationError>)
      requires Valid()
      modifies this
      ensures Valid()
      ensures r == Status(Effect(thresholds, Call(Failure, origin, methodName, message, Plain)))
      ensures emitted == old(emitted) + Emission(Effect(thresholds, Call(Failure, origin, methodName, message, Plain)))
    {
      r := Log(Call(Failure, origin, methodName, message, Plain));
    }

    method LogFailureThrown(origin: string, methodName: Option<string>, message: Option<string>,
                            thrown: Option<Throwable>)
      returns (r: Outcome<ValidationError>)
      requires Valid()
      modifies this
      ensures Valid()
      ensures r == Status(Effect(thresholds, Call(Failure, origin, methodName, message, WithThrowable(thrown))))
      ensures emitted == old(emitted)
                         + Emission(Effect(thresholds, Call(Failure, origin, methodName, message, WithThrowable(thrown))))
    {
      r := Log(Call(Failure, origin, methodName, message, WithThrowable(thrown)));
    }

    method LogMessage(origin: string, methodName: Option<string>, message: Option<string>)
      returns (r: Outcome<ValidationError>)
      requires Valid()
      modifies this
      ensures Valid()
      ensures r == Status(Effect(thresholds, Call(Message, origin, methodName, message, Plain)))
      ensures emitted == old(emitted) + Emission(Effect(thresholds, Call(Message, origin, methodName, message, Plain)))
    {
      r := Log(Call(Message, origin, methodName, message, Plain));
    }

    method LogSecurity(origin: string, methodName: Option<string>, message: Option<string>)
      returns (r: Outcome<ValidationError>)
      requires Valid()
      modifies this
      ensures Valid()
      ensures r == Status(Effect(thresholds, Call(Security, origin, methodName, message, Plain)))
      ensures emitted == old(emitted) + Emission(Effect(thresholds, Call(Security, origin, methodName, message, Plain)))
    {
      r := Log(Call(Security, origin, methodName, message, Plain));
    }

    method LogSecurityThrown(origin: string, methodName: Option<string>, message: Option<string>,
                             thrown: Option<Throwable>)
      returns (r: Outcome<ValidationError>)
      requires Valid()
      modifies this
      ensures Valid()
      ensures r == Status(Effect(thresholds, Call(Security, origin, methodName, message, WithThrowable(thrown))))
      ensures emitted == old(emitted)
                         + Emission(Effect(thresholds, Call(Security, origin, methodName, message, WithThrowable(thrown))))
    {
      r := Log(Call(Security, origin, methodName, message, WithThrowable(thrown)));
    }

    method LogWarning(origin: string, methodName: Option<string>, message: Option<string>)
      returns (r: Outcome<ValidationError>)
      requires Valid()
      modifies this
      ensures Valid()
      ensures r == Status(Effect(thresholds, Call(Warning, origin, methodName, message, Plain)))
      ensures emitted == old(emitted) + Emission(Effect(thresholds, Call(Warning, origin, methodName, message, Plain)))
    {
      r := Log(Call(Warning, origin, methodName, message, Plain));
    }

    method LogWarningThrown(origin: string, methodName: Option<string>, message: Option<string>,
                            thrown: Option<Throwable>)
      returns (r: Outcome<ValidationError>)
      requires Valid()
      modifies this
      ensures Valid()
      ensures r == Status(Effect(thresholds, Call(Warning, origin, methodName, message, WithThrowable(thrown))))
      ensures emitted == old(emitted)
                         + Emission(Effect(thresholds, Call(Warning, origin, methodName, message, WithThrowable(thrown))))
    {
      r := Log(Call(Warning, origin, methodName, message, WithThrowable(thrown)));
    }
  }
}

/**
 * What a client can conclude from the service's contracts alone: sample
 * calls and rejections, against a backend whose root threshold is INFO and
 * whose logger for "Audit" is raised to SEVERE.
 */
module LogServiceScenario {
  import opened Wrappers
  import Levels
  import opened LogService

  /** The backend of the scenarios: root threshold INFO, "Audit" raised to SEVERE. */
  function ScenarioThresholds(): Thresholds
  {
    Thresholds(map["Audit" := Levels.Rank(Levels.Severe)], Levels.Rank(Levels.Info))
  }

  /** An enabled warning is emitted unchanged. */
  method EnabledWarning()
  {
    var service := new JavaLogServiceImpl(ScenarioThresholds());
    Utf16LengthBmp("save");
    Utf16LengthBmp("full");
    var r := service.LogWarning("MyType", Some("save"), Some("full"));
    assert r == Pass;
    assert service.emitted == [LogRecord(Levels.Warning, "MyType", "save", "full", None)];
  }

  /** A debug call below the INFO threshold succeeds as a silent no-op. */
  method DisabledDebug()
  {
    var service := new JavaLogServiceImpl(ScenarioThresholds());
    Utf16LengthBmp("save");
    Utf16LengthBmp("full");
    var r := service.LogDebug("MyType", Some("save"), Some("full"));
    assert r == Pass;
    assert service.emitted == [];
  }

  /** A 65-character method name and a null throwable are rejected before the backend is touched. */
  method Rejections()
  {
    var service := new JavaLogServiceImpl(ScenarioThresholds());
    Utf16LengthBmp(seq(65, _ => 'x'));
    Utf16LengthBmp("msg");
    var r := service.LogFailure("MyType", Some(seq(65, _ => 'x')), Some("msg"));
    assert r == Fail(TooLong(MethodName, METHOD_NAME_MAX_LENGTH));

    Utf16LengthBmp("save");
    r := service.LogWarningThrown("MyType", Some("save"), Some("msg"), None);
    assert r == Fail(NullThrowable);
    assert service.emitted == [];
  }

  /** A security record is gated on WARNING: it is dropped for "Audit", whose threshold is SEVERE. */
  method SecurityDropped()
  {
    var service := new JavaLogServiceImpl(ScenarioThresholds());
    Utf16LengthBmp("login");
    Utf16LengthBmp("denied");
    var r := service.LogSecurity("Audit", Some("login"), Some("denied"));
    assert r == Pass;
    assert service.emitted == [];
  }

  /** Where WARNING is enabled, a security record is emitted at SECURITY with its throwable. */
  method SecurityEmitted()
  {
    var service := new JavaLogServiceImpl(ScenarioThresholds());
    Utf16LengthBmp("login");
    Utf16LengthBmp("denied");
    var r := service.LogSecurityThrown("MyType", Some("login"), Some("denied"), Some(Throwable("denied")));
    assert r == Pass;
    assert service.emitted == [LogRecord(Levels.Security, "MyType", "login", "denied", Some(Throwable("denied")))];
  }
}
