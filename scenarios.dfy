/** Concrete uses of the bridge: what a program observes after `init` and
    a few calls, derived from the contracts of the bridge's members. */
module Scenarios {
  import opened JsValues
  import opened Iteration
  import opened Hooks
  import opened Bridge

  /** After the console override, `console.log("a", 1)` sends one JSConsole
      event with consoleType "log" and args "a, 1", then prints as before. */
  lemma ConsoleLogScenario()
    ensures ConsoleCallEffects(Wrapped(Log, Builtin(Log)), [Str("a"), Num(1)]) ==
      [ Effect.Send("JSConsole", map["consoleType" := "log", "args" := "a, 1"]),
        OriginalConsole(Log, [Str("a"), Num(1)]) ]
  {
    var args := [Str("a"), Num(1)];
    ConsoleTextOfArguments(args);
    assert ToStr(Num(1)) == "1";
    assert seq(|args|, i requires 0 <= i < |args| => ToStr(args[i])) == ["a", "1"];
    assert Join(["a", "1"], ", ") == "a, 1";
  }

  /** `console.error("x")` also writes "[JSConsole:Error] x" to the native log,
      between the event and the original output. */
  lemma ConsoleErrorScenario()
    ensures ConsoleCallEffects(Wrapped(Error, Builtin(Error)), [Str("x")]) ==
      [ Effect.Send("JSConsole", map["consoleType" := "error", "args" := "x"]),
        Effect.NativeLog(Str("[JSConsole:Error] x")),
        OriginalConsole(Error, [Str("x")]) ]
  {
    var args := [Str("x")];
    ConsoleTextOfArguments(args);
    assert seq(|args|, i requires 0 <= i < |args| => ToStr(args[i])) == ["x"];
    assert ConsoleText(Arr(args)) == "x";
    assert Str(Error.Name()) == Str("error");
    assert "[JSConsole:Error] " + "x" == "[JSConsole:Error] x";
  }

  /** `recordCustomEvent("type1", "name1", {a: 1, b: "x"})` forwards {a: "1", b: "x"}. */
  lemma CustomEventScenario()
    ensures CustomEventEffect(Str("type1"), Str("name1"), Record([("a", Num(1)), ("b", Str("x"))])) ==
      Effect.RecordCustomEvent("type1", "name1", map["a" := "1", "b" := "x"])
  {
    var props := [("a", Num(1)), ("b", Str("x"))];
    assert StringifyValues(props) == [("a", "1"), ("b", "x")];
    MapOfShort(("a", "1"), ("b", "x"));
  }

  /** A custom event whose attributes are not an object forwards no attributes. */
  lemma CustomEventNotObjectScenario()
    ensures CustomEventEffect(Str("type1"), Str("name1"), Str("not-an-object")) ==
      Effect.RecordCustomEvent("type1", "name1", map[])
  {
  }

  /** `send` walks a string by character, keyed by index. */
  lemma SendStringScenario()
    ensures SendAttributes(Str("ab")) == map["0" := "a", "1" := "b"]
  {
    assert StringifyEntries(Entries(Str("ab"))) == [("0", "a"), ("1", "b")];
    MapOfShort(("0", "a"), ("1", "b"));
  }

  /** `send` walks an object with a numeric `length` by index, as an array:
      its named keys are not sent. */
  lemma SendArrayLikeScenario()
    ensures SendAttributes(Record([("length", Num(1)), ("name", Str("x"))])) == map["0" := "undefined"]
  {
    var v := Record([("length", Num(1)), ("name", Str("x"))]);
    assert IsArrayLike(v) && ArrayLength(v) == 1;
    assert NatToString(0) == "0";
    assert ElementAt(v, 0) == Undef;
    assert StringifyEntries(Entries(v)) == [("0", "undefined")];
    assert [("0", "undefined")][..0] == [];
  }

  /** A bridge over a fresh runtime: empty trace, the runtime's own console
      functions, the given global handler, tracking off. */
  method FreshBridge(handler: GlobalHandler, dev: bool) returns (bridge: NewRelic)
    ensures fresh(bridge.trace) && fresh(bridge.console) && fresh(bridge.errorUtils)
    ensures fresh(bridge.rejectionTracking)
    ensures bridge.trace.entries == [] && bridge.dev == dev
    ensures bridge.console.log == Builtin(Log) && bridge.console.warn == Builtin(Warn)
    ensures bridge.console.error == Builtin(Error)
    ensures bridge.errorUtils.globalHandler == handler && bridge.rejectionTracking.state == Disabled
  {
    var trace := new Trace();
    var console := new Console();
    var errorUtils := new ErrorUtils(handler);
    var tracking := new RejectionTracking();
    bridge := new NewRelic(trace, console, errorUtils, tracking, dev);
  }

  /** Two `init` calls with overrideConsole on nest the wrappers: one
      `console.log(...args)` sends two JSConsole events, then prints once. */
  method DoubleInitLog(args: seq<Value>) returns (effects: seq<Effect>)
    ensures effects ==
      SendConsoleEffects(Str("log"), Arr(args)) + SendConsoleEffects(Str("log"), Arr(args))
      + [OriginalConsole(Log, args)]
  {
    var bridge := FreshBridge(Prior(0), false);
    var config := Record([("overrideConsole", Bool(true))]);
    assert Get(config, "overrideConsole") == Bool(true);
    LookupAbsent(config.props, "reportUncaughtExceptions");
    LookupAbsent(config.props, "reportRejectedPromises");
    LookupAbsent(config.props, "globalAttributes");
    bridge.Init(config);
    bridge.Init(config);
    assert bridge.console.log == Wrapped(Log, Wrapped(Log, Builtin(Log)));
    bridge.ConsoleCall(Log, args);
    assert ConsoleCallEffects(Wrapped(Log, Builtin(Log)), args)
        == SendConsoleEffects(Str("log"), Arr(args)) + [OriginalConsole(Log, args)];
    effects := bridge.trace.entries;
  }

  /** With the uncaught-exception hook installed over handler 7, a fatal
      uncaught error sends one JS:UncaughtException event with its stack, then
      calls handler 7 with the same error, once, and with isFatal undefined. */
  method UncaughtScenario(message: string, stack: string) returns (effects: seq<Effect>, threw: bool)
    ensures effects == [
      Effect.Send("JS:UncaughtException", map["error" := message, "stack" := stack]),
      PrevHandlerCalled(7, Err(message, Str(stack)), Undef) ]
    ensures !threw
  {
    var bridge := FreshBridge(Prior(7), false);
    var config := Record([("reportUncaughtExceptions", Bool(true))]);
    LookupAbsent(config.props, "overrideConsole");
    assert Get(config, "reportUncaughtExceptions") == Bool(true);
    LookupAbsent(config.props, "reportRejectedPromises");
    LookupAbsent(config.props, "globalAttributes");
    bridge.Init(config);
    threw := bridge.UncaughtError(Err(message, Str(stack)), Bool(true));
    effects := bridge.trace.entries;
  }

  /** With no handler installed before, the wrapper still sends the event and
      then throws calling the undefined handler. */
  method UncaughtWithoutPriorScenario(error: Value) returns (effects: seq<Effect>, threw: bool)
    ensures effects == [UncaughtEffect(error)]
    ensures threw
  {
    var bridge := FreshBridge(Missing, false);
    bridge.ReportUncaughtExceptions(bridge.errorUtils);
    threw := bridge.UncaughtError(error, Bool(true));
    effects := bridge.trace.entries;
  }

  /** Rejection tracking reports an unhandled rejection only outside a
      development build; a later handled notice emits nothing. */
  method RejectionScenario(dev: bool, error: Value) returns (effects: seq<Effect>)
    ensures effects == if dev then [] else UnhandledEffects(error)
  {
    var bridge := FreshBridge(Prior(0), dev);
    var config := Record([("reportRejectedPromises", Bool(true))]);
    LookupAbsent(config.props, "overrideConsole");
    LookupAbsent(config.props, "reportUncaughtExceptions");
    assert Get(config, "reportRejectedPromises") == Bool(true);
    LookupAbsent(config.props, "globalAttributes");
    bridge.Init(config);
    bridge.RejectionUnhandled(1, error);
    bridge.OnHandled();
    effects := bridge.trace.entries;
  }

  /** `init` with global attributes {user: "u1", n: 2} sets both, in order. */
  method GlobalAttributesScenario() returns (effects: seq<Effect>)
    ensures effects == [SetAttribute("user", "u1"), SetAttribute("n", "2")]
  {
    var bridge := FreshBridge(Prior(0), false);
    var attributes := Record([("user", Str("u1")), ("n", Num(2))]);
    var config := Record([("globalAttributes", attributes)]);
    LookupAbsent(config.props, "overrideConsole");
    LookupAbsent(config.props, "reportUncaughtExceptions");
    LookupAbsent(config.props, "reportRejectedPromises");
    assert Get(config, "globalAttributes") == attributes;
    assert Entries(attributes) == [(Str("user"), Str("u1")), (Str("n"), Num(2))];
    bridge.Init(config);
    effects := bridge.trace.entries;
  }
}
