/** What the bridge can change or observe outside itself: the commands it
    issues to the native module, the output of the console functions it wraps
    and the calls to the global error handler it wraps (all recorded in one
    Trace), and the three global hook points it reassigns. */
module Hooks {
  import opened JsValues

  /** The three console entry points the bridge wraps. */
  datatype ConsoleMethod = Log | Warn | Error
  {
    /** The method's name, which the wrapper passes as its console type. */
    function Name(): string
    {
      match this
      case Log => "log"
      case Warn => "warn"
      case Error => "error"
    }
  }

  /** One observable effect, in the order it happens. The first five are calls
      into the native module; OriginalConsole is output by a console function
      that was in place before the bridge wrapped it; PrevHandlerCalled is a
      call to a global error handler that was in place before the bridge, with
      the two arguments it received (the error and the isFatal flag). */
  datatype Effect =
    | SetAttribute(name: string, value: string)
    | RemoveAttribute(attribute: string)
    | Send(eventName: string, attributes: map<string, string>)
    | RecordCustomEvent(eventType: string, customName: string, customAttributes: map<string, string>)
    | NativeLog(message: Value)
    | OriginalConsole(consoleMethod: ConsoleMethod, args: seq<Value>)
    | PrevHandlerCalled(handler: nat, error: Value, isFatal: Value)

  /** The append-only record of effects. */
  class Trace {
    var entries: seq<Effect>

    constructor ()
      ensures entries == []
    {
      entries := [];
    }

    method Emit(e: Effect)
      modifies this
      ensures entries == old(entries) + [e]
    {
      entries := entries + [e];
    }
  }

  /** A console function: one the runtime provided, or a bridge wrapper that
      reports with its own console type and then calls the function it captured. */
  datatype ConsoleFn =
    | Builtin(builtin: ConsoleMethod)
    | Wrapped(consoleType: ConsoleMethod, captured: ConsoleFn)

  /** The global `console` object's three reassignable entry points. */
  class Console {
    var log: ConsoleFn
    var warn: ConsoleFn
    var error: ConsoleFn

    constructor ()
      ensures log == Builtin(Log) && warn == Builtin(Warn) && error == Builtin(Error)
    {
      log, warn, error := Builtin(Log), Builtin(Warn), Builtin(Error);
    }

    /** The function currently installed for method m. */
    function Current(m: ConsoleMethod): ConsoleFn
      reads this
    {
      match m
      case Log => log
      case Warn => warn
      case Error => error
    }
  }

  /** A global error handler: one installed before the bridge (identified by a
      number), none at all (the property is undefined), or a bridge wrapper
      that reports and then calls the handler it captured. */
  datatype GlobalHandler =
    | Prior(id: nat)
    | Missing
    | Reporting(captured: GlobalHandler)

  /** The runtime's `ErrorUtils` object, whose `_globalHandler` the bridge reassigns. */
  class ErrorUtils {
    var globalHandler: GlobalHandler

    constructor (handler: GlobalHandler)
      ensures globalHandler == handler
    {
      globalHandler := handler;
    }
  }

  /** The state of the promise library's rejection tracking: off, or on with
      the bridge's onUnhandled/onHandled callbacks and the given allRejections option. */
  datatype Tracking = Disabled | Enabled(allRejections: bool)

  /** The promise library's rejection-tracking module. */
  class RejectionTracking {
    var state: Tracking

    constructor ()
      ensures state == Disabled
    {
      state := Disabled;
    }

    /** `enable(options)`: later rejections are reported to the given callbacks. */
    method Enable(allRejections: bool)
      modifies this
      ensures state == Enabled(allRejections)
    {
      state := Enabled(allRejections);
    }
  }
}
