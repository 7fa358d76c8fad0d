/** The NewRelic bridge: it installs reporting wrappers on the console, the
    global error handler and the promise library's rejection tracking, turns
    arbitrary values into string-keyed, string-valued attribute maps, and
    forwards events and attributes to the native module. */
module Bridge {
  import opened JsValues
  import opened Iteration
  import opened Hooks

  /** The text String() gives the object literals the bridge builds. */
  const ObjectLiteralText: string := "[object Object]"

  /** The object literal `{k1: v1, k2: v2, ...}`. */
  function Record(props: seq<(string, Value)>): Value
  {
    Obj(props, ObjectLiteralText)
  }

  // ---------------------------------------------------------------------------
  // What each operation emits

  /** The attribute object `send` builds: `argsStr[String(key)] = String(value)`
      for each pair `_.forEach(args, ...)` visits. */
  function SendAttributes(args: Value): map<string, string>
  {
    MapOf(StringifyEntries(Entries(args)))
  }

  /** The single native call `send(name, args)` makes. */
  function SendEffect(name: Value, args: Value): Effect
  {
    Effect.Send(ToStr(name), SendAttributes(args))
  }

  /** The native calls `setGlobalAttributes(args)` makes: one setAttribute per pair visited. */
  function AttributeEffects(args: Value): (r: seq<Effect>)
    ensures |r| == |Entries(args)|
  {
    var entries := Entries(args);
    seq(|entries|, i requires 0 <= i < |entries| =>
      SetAttribute(ToStr(entries[i].0), ToStr(entries[i].1)))
  }

  /** `_.map(args, String).join(', ')`. */
  function ConsoleText(args: Value): string
  {
    var entries := Entries(args);
    Join(seq(|entries|, i requires 0 <= i < |entries| => ToStr(entries[i].1)), ", ")
  }

  /** What `sendConsole(type, args)` emits: the JSConsole event, then, for the
      error type only, the same text on the native log. */
  function SendConsoleEffects(consoleType: Value, args: Value): seq<Effect>
  {
    var text := ConsoleText(args);
    [Effect.Send("JSConsole", map["consoleType" := ToStr(consoleType), "args" := text])]
    + (if consoleType == Str("error") then [NativeLog(Str("[JSConsole:Error] " + text))] else [])
  }

  /** The single native call `recordCustomEvent(eventType, eventName, args)` makes. */
  function CustomEventEffect(eventType: Value, eventName: Value, args: Value): Effect
    requires !args.Null?
  {
    RecordCustomEvent(ToStr(eventType), ToStr(eventName),
      if IsObjectType(args) then MapOf(StringifyValues(OwnEntries(args))) else map[])
  }

  /** `error && error.stack`. */
  function StackOf(error: Value): Value
  {
    if Truthy(error) then Get(error, "stack") else error
  }

  /** The event the uncaught-exception wrapper sends for error. */
  function UncaughtEffect(error: Value): Effect
  {
    Effect.Send("JS:UncaughtException", map["error" := ToStr(error), "stack" := ToStr(StackOf(error))])
  }

  /** What the onUnhandled callback emits for a rejection with reason error. */
  function UnhandledEffects(error: Value): seq<Effect>
  {
    [ Effect.Send("JS:UnhandledRejectedPromise", map["error" := ToStr(error)]),
      NativeLog(Str("[UnhandledRejectedPromise] " + ToStr(error))) ]
  }

  /** What calling console function f with args emits. */
  function ConsoleCallEffects(f: ConsoleFn, args: seq<Value>): seq<Effect>
  {
    match f
    case Builtin(m) => [OriginalConsole(m, args)]
    case Wrapped(t, captured) => SendConsoleEffects(Str(t.Name()), Arr(args)) + ConsoleCallEffects(captured, args)
  }

  /** What calling global handler h with `(error, isFatal)` emits. A wrapper
      takes only the error and calls the handler it captured with that one
      argument, so the captured handler's isFatal is undefined. */
  function HandlerEffects(h: GlobalHandler, error: Value, isFatal: Value): seq<Effect>
  {
    match h
    case Prior(id) => [PrevHandlerCalled(id, error, isFatal)]
    case Missing => []
    case Reporting(captured) => [UncaughtEffect(error)] + HandlerEffects(captured, error, Undef)
  }

  /** Whether calling h ends in a TypeError: the innermost captured handler was undefined. */
  predicate HandlerThrows(h: GlobalHandler)
  {
    match h
    case Prior(_) => false
    case Missing => true
    case Reporting(captured) => HandlerThrows(captured)
  }

  // ---------------------------------------------------------------------------
  // The bridge object

  /** The NewRelic object. Its constant fields are the globals it reaches:
      the native module (recorded by trace), `console`, `global.ErrorUtils`,
      the rejection-tracking module and `__DEV__`. */
  class NewRelic {
    const trace: Trace
    const console: Console
    const errorUtils: ErrorUtils
    const rejectionTracking: RejectionTracking
    const dev: bool

    constructor (trace: Trace, console: Console, errorUtils: ErrorUtils,
                 rejectionTracking: RejectionTracking, dev: bool)
      ensures this.trace == trace && this.console == console && this.errorUtils == errorUtils
      ensures this.rejectionTracking == rejectionTracking && this.dev == dev
    {
      this.trace := trace;
      this.console := console;
      this.errorUtils := errorUtils;
      this.rejectionTracking := rejectionTracking;
      this.dev := dev;
    }

    /** `init(config)`: install each hook whose flag is truthy, then register
        the global attributes when given. Reading a flag of null or undefined throws. */
    method Init(config: Value)
      requires !config.Null? && !config.Undef?
      modifies console, errorUtils, rejectionTracking, trace
      ensures var on := Truthy(Get(config, "overrideConsole"));
        && console.log == (if on then Wrapped(Log, old(console.log)) else old(console.log))
        && console.warn == (if on then Wrapped(Warn, old(console.warn)) else old(console.warn))
        && console.error == (if on then Wrapped(Error, old(console.error)) else old(console.error))
      ensures errorUtils.globalHandler ==
        if Truthy(Get(config, "reportUncaughtExceptions")) then Reporting(old(errorUtils.globalHandler))
        else old(errorUtils.globalHandler)
      ensures rejectionTracking.state ==
        if Truthy(Get(config, "reportRejectedPromises")) && !dev then Enabled(true)
        else old(rejectionTracking.state)
      ensures trace.entries == old(trace.entries) +
        if Truthy(Get(config, "globalAttributes")) then AttributeEffects(Get(config, "globalAttributes"))
        else []
    {
      if Truthy(Get(config, "overrideConsole")) {
        OverrideConsole();
      }
      if Truthy(Get(config, "reportUncaughtExceptions")) {
        ReportUncaughtExceptions(errorUtils);
      }
      if Truthy(Get(config, "reportRejectedPromises")) {
        ReportRejectedPromises();
      }
      if Truthy(Get(config, "globalAttributes")) {
        SetGlobalAttributes(Get(config, "globalAttributes"));
      }
    }

    /** `_overrideConsole()`: each of log, warn and error becomes a wrapper
        that reports under its own name and then calls the function it replaced. */
    method OverrideConsole()
      modifies console
      ensures console.log == Wrapped(Log, old(console.log))
      ensures console.warn == Wrapped(Warn, old(console.warn))
      ensures console.error == Wrapped(Error, old(console.error))
    {
      var defaultLog, defaultWarn, defaultError := console.log, console.warn, console.error;
      console.log := Wrapped(Log, defaultLog);
      console.warn := Wrapped(Warn, defaultWarn);
      console.error := Wrapped(Error, defaultError);
    }

    /** `_reportUncaughtExceptions(errorUtils)`: the global handler becomes a
        wrapper that reports and then calls the handler it replaced. */
    method ReportUncaughtExceptions(errorUtils: ErrorUtils)
      modifies errorUtils
      ensures errorUtils.globalHandler == Reporting(old(errorUtils.globalHandler))
    {
      var defaultHandler := errorUtils.globalHandler;
      errorUtils.globalHandler := Reporting(defaultHandler);
    }

    /** `_reportRejectedPromises()`: outside a development build, enable
        rejection tracking with the bridge's callbacks and allRejections on. */
    method ReportRejectedPromises()
      modifies rejectionTracking
      ensures rejectionTracking.state == if dev then old(rejectionTracking.state) else Enabled(true)
    {
      if !dev {
        rejectionTracking.Enable(true);
      }
    }

    /** `setGlobalAttributes(args)`: one setAttribute per pair, in iteration order. */
    method SetGlobalAttributes(args: Value)
      modifies trace
      ensures trace.entries == old(trace.entries) + AttributeEffects(args)
    {
      var entries := Entries(args);
      var i := 0;
      while i < |entries|
        invariant 0 <= i <= |entries|
        invariant trace.entries == old(trace.entries) + AttributeEffects(args)[..i]
      {
        trace.Emit(SetAttribute(ToStr(entries[i].0), ToStr(entries[i].1)));
        i := i + 1;
        assert AttributeEffects(args)[..i] == AttributeEffects(args)[..i - 1] + [AttributeEffects(args)[i - 1]];
      }
      assert AttributeEffects(args)[..|entries|] == AttributeEffects(args);
    }

    /** `removeAttribute(attributeName)`. */
    method RemoveAttribute(attributeName: Value)
      modifies trace
      ensures trace.entries == old(trace.entries) + [Effect.RemoveAttribute(ToStr(attributeName))]
    {
      trace.Emit(Effect.RemoveAttribute(ToStr(attributeName)));
    }

    /** `sendConsole(type, args)`. */
    method SendConsole(consoleType: Value, args: Value)
      modifies trace
      ensures trace.entries == old(trace.entries) + SendConsoleEffects(consoleType, args)
    {
      var argsStr := ConsoleText(args);
      var payload := [("consoleType", consoleType), ("args", Str(argsStr))];
      Send(Str("JSConsole"), Record(payload));
      RecordAttributes(payload);
      assert StringifyValues(payload) == [("consoleType", ToStr(consoleType)), ("args", argsStr)];
      MapOfShort(("consoleType", ToStr(consoleType)), ("args", argsStr));
      if consoleType == Str("error") {
        NativeLog(Str("[JSConsole:Error] " + argsStr));
      }
    }

    /** `report(eventName, args)`: the same as send. */
    method Report(eventName: Value, args: Value)
      modifies trace
      ensures trace.entries == old(trace.entries) + [SendEffect(eventName, args)]
    {
      Send(eventName, args);
    }

    /** `nativeLog(log)`: the value goes to the native log as it is. */
    method NativeLog(log: Value)
      modifies trace
      ensures trace.entries == old(trace.entries) + [Effect.NativeLog(log)]
    {
      trace.Emit(Effect.NativeLog(log));
    }

    /** `recordCustomEvent(eventType, eventName, args)`. `Object.keys(null)`
        throws, so args is not null. */
    method RecordCustomEvent(eventType: Value, eventName: Value, args: Value)
      requires !args.Null?
      modifies trace
      ensures trace.entries == old(trace.entries) + [CustomEventEffect(eventType, eventName, args)]
    {
      var eventTypeStr := ToStr(eventType);
      var eventNameStr := ToStr(eventName);
      var argsIsObject := IsObjectType(args);
      var argsStr: map<string, string> := map[];
      if argsIsObject {
        var keys := OwnEntries(args);
        ghost var pairs := StringifyValues(keys);
        var i := 0;
        while i < |keys|
          invariant 0 <= i <= |keys|
          invariant argsStr == MapOf(pairs[..i])
        {
          // the keys are strings already, so String(key) is the key
          argsStr := argsStr[keys[i].0 := ToStr(keys[i].1)];
          i := i + 1;
          assert pairs[..i][..i - 1] == pairs[..i - 1];
        }
        assert pairs[..|keys|] == pairs;
      }
      trace.Emit(Effect.RecordCustomEvent(eventTypeStr, eventNameStr, argsStr));
    }

    /** `send(name, args)`: String(key) := String(value) for each pair
        `_.forEach` visits, then one native send. */
    method Send(name: Value, args: Value)
      modifies trace
      ensures trace.entries == old(trace.entries) + [SendEffect(name, args)]
    {
      var nameStr := ToStr(name);
      var argsStr: map<string, string> := map[];
      var entries := Entries(args);
      ghost var pairs := StringifyEntries(entries);
      var i := 0;
      while i < |entries|
        invariant 0 <= i <= |entries|
        invariant argsStr == MapOf(pairs[..i])
      {
        argsStr := argsStr[ToStr(entries[i].0) := ToStr(entries[i].1)];
        i := i + 1;
        assert pairs[..i][..i - 1] == pairs[..i - 1];
      }
      assert pairs[..|entries|] == pairs;
      trace.Emit(Effect.Send(nameStr, argsStr));
    }

    // -------------------------------------------------------------------------
    // The installed wrappers, as the runtime invokes them

    /** The runtime calls `console[m](...args)`. */
    method ConsoleCall(m: ConsoleMethod, args: seq<Value>)
      modifies trace
      ensures trace.entries == old(trace.entries) + ConsoleCallEffects(console.Current(m), args)
    {
      RunConsoleFn(console.Current(m), args);
    }

    /** Runs console function f: a wrapper calls `sendConsole` with its own
        method name and then applies the captured function to the same arguments. */
    method RunConsoleFn(f: ConsoleFn, args: seq<Value>)
      modifies trace
      ensures trace.entries == old(trace.entries) + ConsoleCallEffects(f, args)
      decreases f
    {
      match f
      case Builtin(m) =>
        trace.Emit(OriginalConsole(m, args));
      case Wrapped(t, captured) =>
        SendConsole(Str(t.Name()), Arr(args));
        RunConsoleFn(captured, args);
    }

    /** The runtime reports an uncaught error to the current global handler
        as `handler(error, isFatal)`; threw tells whether the call ended in a TypeError. */
    method UncaughtError(error: Value, isFatal: Value) returns (threw: bool)
      modifies trace
      ensures trace.entries == old(trace.entries) + HandlerEffects(errorUtils.globalHandler, error, isFatal)
      ensures threw == HandlerThrows(errorUtils.globalHandler)
    {
      threw := RunHandler(errorUtils.globalHandler, error, isFatal);
    }

    /** Runs global handler h on `(error, isFatal)`: a wrapper takes only the
        error, sends it and its stack, then calls the captured handler
        unguarded with the error alone (calling undefined throws). */
    method RunHandler(h: GlobalHandler, error: Value, isFatal: Value) returns (threw: bool)
      modifies trace
      ensures trace.entries == old(trace.entries) + HandlerEffects(h, error, isFatal)
      ensures threw == HandlerThrows(h)
      decreases h
    {
      match h
      case Prior(id) =>
        trace.Emit(PrevHandlerCalled(id, error, isFatal));
        threw := false;
      case Missing =>
        threw := true;
      case Reporting(defaultHandler) =>
        var payload := [("error", error), ("stack", if Truthy(error) then Get(error, "stack") else error)];
        Send(Str("JS:UncaughtException"), Record(payload));
        RecordAttributes(payload);
        assert StringifyValues(payload) == [("error", ToStr(error)), ("stack", ToStr(StackOf(error)))];
        MapOfShort(("error", ToStr(error)), ("stack", ToStr(StackOf(error))));
        threw := RunHandler(defaultHandler, error, Undef);
    }

    /** The tracking library finds the rejection `id` unhandled; it calls the
        bridge's onUnhandled only when tracking was enabled. */
    method RejectionUnhandled(id: nat, error: Value)
      modifies trace
      ensures trace.entries == old(trace.entries) +
        if rejectionTracking.state.Enabled? then UnhandledEffects(error) else []
    {
      if rejectionTracking.state.Enabled? {
        OnUnhandled(id, error);
      }
    }

    /** The onUnhandled callback: send the reason, then log it natively. */
    method OnUnhandled(id: nat, error: Value)
      modifies trace
      ensures trace.entries == old(trace.entries) + UnhandledEffects(error)
    {
      var payload := [("error", error)];
      Send(Str("JS:UnhandledRejectedPromise"), Record(payload));
      RecordAttributes(payload);
      assert StringifyValues(payload) == [("error", ToStr(error))];
      assert [("error", ToStr(error))][..0] == [];
      NativeLog(Str("[UnhandledRejectedPromise] " + ToStr(error)));
    }

    /** The onHandled callback: a rejection reported earlier got a handler; nothing is emitted. */
    method OnHandled()
      ensures trace.entries == old(trace.entries)
    {
    }
  }

  // ---------------------------------------------------------------------------
  // Properties

  /** Sending an object literal: without a `length` key, `_.forEach` walks its
      own keys, so the attributes are its keys with their values stringified. */
  lemma RecordAttributes(props: seq<(string, Value)>)
    requires forall i :: 0 <= i < |props| ==> props[i].0 != "length"
    ensures SendAttributes(Record(props)) == MapOf(StringifyValues(props))
  {
    LookupAbsent(props, "length");
    assert StringifyEntries(Entries(Record(props))) == StringifyValues(props);
  }

  /** Filling from pairs stringified one by one: with distinct stringified keys,
      one entry String(key) -> String(value) per pair and no other key. */
  lemma StringifiedMapExact(entries: seq<(Value, Value)>)
    requires DistinctKeys(StringifyEntries(entries))
    ensures var m := MapOf(StringifyEntries(entries));
      && |m| == |entries|
      && m.Keys == (set i | 0 <= i < |entries| :: ToStr(entries[i].0))
      && forall i :: 0 <= i < |entries| ==> m[ToStr(entries[i].0)] == ToStr(entries[i].1)
  {
    var pairs := StringifyEntries(entries);
    MapOfExact(pairs);
    forall i | 0 <= i < |entries|
      ensures pairs[i].0 == ToStr(entries[i].0) && pairs[i].1 == ToStr(entries[i].1)
    {
    }
    assert (set i | 0 <= i < |pairs| :: pairs[i].0) == (set i | 0 <= i < |entries| :: ToStr(entries[i].0));
  }

  /** `send` emits exactly one attribute per visited pair: key String(key), value
      String(value), and no other key. */
  lemma SendAttributesExact(name: Value, args: Value)
    requires WellFormed(args)
    ensures var m := SendEffect(name, args).attributes; var entries := Entries(args);
      && SendEffect(name, args).eventName == ToStr(name)
      && |m| == |entries|
      && m.Keys == (set i | 0 <= i < |entries| :: ToStr(entries[i].0))
      && forall i :: 0 <= i < |entries| ==> m[ToStr(entries[i].0)] == ToStr(entries[i].1)
  {
    EntriesKeysDistinct(args);
    StringifiedMapExact(Entries(args));
  }

  /** `recordCustomEvent` stringifies type and name; for a non-object it sends no
      attributes, and for an object exactly its own keys with their values stringified. */
  lemma CustomEventAttributesExact(eventType: Value, eventName: Value, args: Value)
    requires WellFormed(args) && !args.Null?
    ensures var e := CustomEventEffect(eventType, eventName, args);
      && e.eventType == ToStr(eventType) && e.customName == ToStr(eventName)
      && (!IsObjectType(args) ==> e.customAttributes == map[])
      && (IsObjectType(args) ==>
            var own := OwnEntries(args);
            && |e.customAttributes| == |own|
            && e.customAttributes.Keys == (set i | 0 <= i < |own| :: own[i].0)
            && forall i :: 0 <= i < |own| ==> e.customAttributes[own[i].0] == ToStr(own[i].1))
  {
    if IsObjectType(args) {
      var own := OwnEntries(args);
      var pairs := StringifyValues(own);
      assert CustomEventEffect(eventType, eventName, args).customAttributes == MapOf(pairs);
      OwnEntriesKeysDistinct(args);
      MapOfExact(pairs);
      forall i | 0 <= i < |own|
        ensures pairs[i].0 == own[i].0 && pairs[i].1 == ToStr(own[i].1)
      {
      }
      assert (set i | 0 <= i < |pairs| :: pairs[i].0) == (set i | 0 <= i < |own| :: own[i].0);
    }
  }

  /** `setGlobalAttributes(args)` sets exactly the attributes `send(name, args)`
      would send: one setAttribute per entry of that map, each name once, with
      the map's value. */
  lemma AttributeEffectsExact(args: Value)
    requires WellFormed(args)
    ensures var r := AttributeEffects(args); var m := SendAttributes(args);
      && |r| == |m|
      && (forall i :: 0 <= i < |r| ==> r[i].SetAttribute? && r[i].name in m && m[r[i].name] == r[i].value)
      && (forall i, j :: 0 <= i < j < |r| ==> r[i].name != r[j].name)
  {
    var entries := Entries(args);
    var r := AttributeEffects(args);
    var m := SendAttributes(args);
    EntriesKeysDistinct(args);
    StringifiedMapExact(entries);
    forall i | 0 <= i < |r|
      ensures r[i].SetAttribute? && r[i].name in m && m[r[i].name] == r[i].value
    {
      assert r[i] == SetAttribute(ToStr(entries[i].0), ToStr(entries[i].1));
    }
    forall i, j | 0 <= i < j < |r|
      ensures r[i].name != r[j].name
    {
      assert StringifyEntries(entries)[i].0 == r[i].name;
      assert StringifyEntries(entries)[j].0 == r[j].name;
    }
  }

  /** The console text is the arguments, each through String(), in their
      original order, joined by ", "; no arguments give the empty text. */
  lemma ConsoleTextOfArguments(args: seq<Value>)
    ensures ConsoleText(Arr(args)) == Join(seq(|args|, i requires 0 <= i < |args| => ToStr(args[i])), ", ")
    ensures |args| == 0 ==> ConsoleText(Arr(args)) == ""
  {
    var entries := Entries(Arr(args));
    assert seq(|entries|, i requires 0 <= i < |entries| => ToStr(entries[i].1))
        == seq(|args|, i requires 0 <= i < |args| => ToStr(args[i]));
  }

  /** `sendConsole` emits one JSConsole event and, exactly when the type is
      "error", one native log of the same text after it. */
  lemma SendConsoleShape(consoleType: Value, args: Value)
    ensures var r := SendConsoleEffects(consoleType, args);
      && r[0] == Effect.Send("JSConsole", map["consoleType" := ToStr(consoleType), "args" := ConsoleText(args)])
      && (|r| == 2 <==> consoleType == Str("error"))
      && (|r| == 2 ==> r[1] == NativeLog(Str("[JSConsole:Error] " + ConsoleText(args))))
      && |r| <= 2
  {
  }

  // Shape of a console call through a chain of wrappers

  /** How many bridge wrappers surround the runtime's function. */
  function Depth(f: ConsoleFn): nat
  {
    match f
    case Builtin(_) => 0
    case Wrapped(_, captured) => 1 + Depth(captured)
  }

  /** How many of those wrappers report as "error". */
  function ErrorWrappers(f: ConsoleFn): nat
  {
    match f
    case Builtin(_) => 0
    case Wrapped(t, captured) => (if t == Error then 1 else 0) + ErrorWrappers(captured)
  }

  /** The runtime's function at the bottom of the chain. */
  function BaseMethod(f: ConsoleFn): ConsoleMethod
  {
    match f
    case Builtin(m) => m
    case Wrapped(_, captured) => BaseMethod(captured)
  }

  /** How many sends of the named event effects holds. */
  function CountSends(effects: seq<Effect>, name: string): nat
  {
    if |effects| == 0 then 0
    else (if effects[0].Send? && effects[0].eventName == name then 1 else 0) + CountSends(effects[1..], name)
  }

  /** How many native logs effects holds. */
  function CountNativeLogs(effects: seq<Effect>): nat
  {
    if |effects| == 0 then 0
    else (if effects[0].NativeLog? then 1 else 0) + CountNativeLogs(effects[1..])
  }

  lemma {:induction false} CountsAppend(a: seq<Effect>, b: seq<Effect>, name: string)
    ensures CountSends(a + b, name) == CountSends(a, name) + CountSends(b, name)
    ensures CountNativeLogs(a + b) == CountNativeLogs(a) + CountNativeLogs(b)
  {
    if |a| == 0 {
      assert a + b == b;
    } else {
      assert (a + b)[0] == a[0];
      assert (a + b)[1..] == a[1..] + b;
      CountsAppend(a[1..], b, name);
    }
  }

  /** Only bridge commands: events and native logs. */
  ghost predicate BridgeOnly(effects: seq<Effect>)
  {
    forall i :: 0 <= i < |effects| ==> effects[i].Send? || effects[i].NativeLog?
  }

  /** One wrapper's report: one JSConsole event, a native log only for "error",
      and nothing but bridge commands. */
  lemma WrapperReportCounts(t: ConsoleMethod, args: seq<Value>)
    ensures var s := SendConsoleEffects(Str(t.Name()), Arr(args));
      && CountSends(s, "JSConsole") == 1
      && CountNativeLogs(s) == (if t == Error then 1 else 0)
      && BridgeOnly(s)
  {
    var s := SendConsoleEffects(Str(t.Name()), Arr(args));
    var text := ConsoleText(Arr(args));
    var send := Effect.Send("JSConsole", map["consoleType" := t.Name(), "args" := text]);
    if t == Error {
      var log := NativeLog(Str("[JSConsole:Error] " + text));
      assert s == [send, log];
      assert [send, log][1..] == [log];
      assert [log][1..] == [];
      assert CountNativeLogs([log]) == 1 + CountNativeLogs([]);
      assert CountNativeLogs([send, log]) == 0 + CountNativeLogs([log]);
      assert CountSends([log], "JSConsole") == 0 + CountSends([], "JSConsole");
      assert CountSends([send, log], "JSConsole") == 1 + CountSends([log], "JSConsole");
    } else {
      assert Str(t.Name()) != Str("error");
      assert s == [send];
      assert [send][1..] == [];
      assert CountNativeLogs([send]) == 0 + CountNativeLogs([]);
      assert CountSends([send], "JSConsole") == 1 + CountSends([], "JSConsole");
    }
  }

  /** A trace of bridge commands followed by one that ends in an original output
      and has only bridge commands before it is again such a trace. */
  lemma BridgeOnlyThenOriginal(s: seq<Effect>, rest: seq<Effect>)
    requires BridgeOnly(s) && |rest| >= 1 && BridgeOnly(rest[..|rest| - 1])
    ensures var r := s + rest; r[|r| - 1] == rest[|rest| - 1] && BridgeOnly(r[..|r| - 1])
  {
    var r := s + rest;
    assert r[..|r| - 1] == s + rest[..|rest| - 1];
  }

  /** Calling a console function that the bridge wrapped ends with the
      runtime's own output for the identical arguments, exactly once: every
      effect before it is a bridge command. */
  lemma {:induction false} ConsoleCallEndsWithOriginal(f: ConsoleFn, args: seq<Value>)
    ensures var r := ConsoleCallEffects(f, args);
      && |r| >= 1
      && r[|r| - 1] == OriginalConsole(BaseMethod(f), args)
      && BridgeOnly(r[..|r| - 1])
  {
    match f
    case Builtin(m) =>
      assert ConsoleCallEffects(f, args)[..0] == [];
    case Wrapped(t, captured) =>
      var s := SendConsoleEffects(Str(t.Name()), Arr(args));
      var rest := ConsoleCallEffects(captured, args);
      ConsoleCallEndsWithOriginal(captured, args);
      assert BridgeOnly(s) by { WrapperReportCounts(t, args); }
      BridgeOnlyThenOriginal(s, rest);
      assert ConsoleCallEffects(f, args) == s + rest;
  }

  /** Calling a console function that the bridge wrapped n times sends n
      JSConsole events and one native log per "error" wrapper. */
  lemma {:induction false} ConsoleCallCounts(f: ConsoleFn, args: seq<Value>)
    ensures CountSends(ConsoleCallEffects(f, args), "JSConsole") == Depth(f)
    ensures CountNativeLogs(ConsoleCallEffects(f, args)) == ErrorWrappers(f)
  {
    match f
    case Builtin(m) =>
      var r := ConsoleCallEffects(f, args);
      assert r[1..] == [];
    case Wrapped(t, captured) =>
      ConsoleCallCounts(captured, args);
      WrapperReportCounts(t, args);
      CountsAppend(SendConsoleEffects(Str(t.Name()), Arr(args)), ConsoleCallEffects(captured, args), "JSConsole");
  }

  /** Installing a wrapper only puts the bridge's report in front: what the
      function did before follows unchanged. */
  lemma WrapPreservesBehaviour(t: ConsoleMethod, f: ConsoleFn, args: seq<Value>)
    ensures var before := ConsoleCallEffects(f, args);
      var after := ConsoleCallEffects(Wrapped(t, f), args);
      && |after| > |before|
      && after[|after| - |before|..] == before
      && forall i :: 0 <= i < |after| - |before| ==> after[i].Send? || after[i].NativeLog?
  {
    var s := SendConsoleEffects(Str(t.Name()), Arr(args));
    assert (s + ConsoleCallEffects(f, args))[|s|..] == ConsoleCallEffects(f, args);
  }

  // Shape of an uncaught error through a chain of handlers

  /** How many bridge wrappers surround the original handler. */
  function Reporters(h: GlobalHandler): nat
  {
    match h
    case Reporting(captured) => 1 + Reporters(captured)
    case _ => 0
  }

  /** The original handler at the bottom of the chain. */
  function Innermost(h: GlobalHandler): GlobalHandler
  {
    match h
    case Reporting(captured) => Innermost(captured)
    case _ => h
  }

  function Repeat(e: Effect, n: nat): (r: seq<Effect>)
    ensures |r| == n && forall i :: 0 <= i < n ==> r[i] == e
  {
    seq(n, _ => e)
  }

  /** An uncaught error through a handler wrapped n times: n JSUncaughtException
      events, then exactly one call of the original handler with the same error,
      whose isFatal is the runtime's only when no wrapper sits in between and
      undefined otherwise; when the original handler was undefined, no call and
      the wrapper throws. */
  lemma {:induction false} HandlerChainShape(h: GlobalHandler, error: Value, isFatal: Value)
    ensures HandlerEffects(h, error, isFatal) ==
      Repeat(UncaughtEffect(error), Reporters(h))
      + (if Innermost(h).Prior? then
           [PrevHandlerCalled(Innermost(h).id, error, if Reporters(h) == 0 then isFatal else Undef)]
         else [])
    ensures HandlerThrows(h) <==> Innermost(h).Missing?
  {
    match h
    case Prior(_) =>
    case Missing =>
    case Reporting(captured) =>
      HandlerChainShape(captured, error, Undef);
      assert [UncaughtEffect(error)] + Repeat(UncaughtEffect(error), Reporters(captured))
          == Repeat(UncaughtEffect(error), Reporters(h));
  }
}
