# NewRelic React Native bridge — a Dafny model

This project models the `NewRelic` class of react-native-newrelic (`src/NewRelic.js`). The
class is a JavaScript bridge that does three things:

- it hooks three sources of diagnostics: `console.log`/`warn`/`error`, the global error
  handler `ErrorUtils._globalHandler`, and the promise library's rejection tracking;
- it turns arbitrary JavaScript values into string-keyed, string-valued attribute maps;
- it forwards events and attributes to the native module `RNNewRelic`.

Everything the bridge does outside itself is recorded as an append-only trace of `Effect`s
(`Hooks.Trace`):

- the five native calls `SetAttribute`, `RemoveAttribute`, `Send`, `RecordCustomEvent` and
  `NativeLog`;
- `OriginalConsole(method, args)`, the output of a console function that was in place
  before the bridge wrapped it;
- `PrevHandlerCalled(handler, error, isFatal)`, a call to the global handler that was in
  place before the bridge, with the two arguments it received.

Each public method is proved to append exactly a given sequence of effects. Lemmas then
state what those sequences contain.

Files and modules:

- `js_values.dfy` (`JsValues`): the closed type of JavaScript values (`Str`, `Num`, `Bool`,
  `Null`, `Undef`, `Err`, `Obj`, `Arr`). It also defines the runtime operations the bridge
  uses on them: `String()` (`ToStr`), truthiness, `typeof … === 'object'`, named property
  access, and `Array.prototype.join`. String() is concrete for primitives and arrays. An
  error or a plain object carries the text its own toString gives, and the model takes
  that text as given.
- `iteration.dfy` (`Iteration`): the pairs that lodash's `_.forEach`/`_.map` visit, and
  `Object.keys`. This includes lodash's array-like rule: strings, arrays, and objects with
  a numeric, non-negative, safe-integer `length` are walked by index. `MapOf` is the object
  the bridge fills one key at a time; a later assignment to the same key wins.
- `hooks.dfy` (`Hooks`): the trace, and the global objects the bridge reassigns. Their
  fields hold chains of wrappers (`ConsoleFn`, `GlobalHandler`), so installing twice nests
  visibly.
- `new_relic.dfy` (`Bridge`): the `NewRelic` class, one method per source method. It also
  has methods for the installed wrappers as the runtime invokes them, the functions that
  specify each method's effects, and the lemmas about them.
- `scenarios.dfy` (`Scenarios`): concrete situations. Each one is derived from the members'
  contracts.

Behaviours of the code worth knowing, all of which the model keeps:

- If no global handler was installed before, the uncaught-exception wrapper sends its event
  and then throws a TypeError when it calls `undefined` (src/NewRelic.js:47). It is not a
  no-op continuation.
- When an error has no stack, the stack attribute is the text `"undefined"`. For a falsy
  error, `error && error.stack` is the error itself. The attribute is never omitted.
- Initialising twice nests the wrappers: two JSConsole events come before one original
  output.
- The installers do not degrade gracefully. They read `ErrorUtils` and `console`
  unguarded.
- The uncaught-exception wrapper takes one parameter (src/NewRelic.js:45) and calls the
  handler it replaced with the error alone (src/NewRelic.js:47). The runtime calls the
  global handler as `(error, isFatal)`, so once the hook is installed the earlier handler
  sees `isFatal` undefined.

## Model

| member | source | states |
|---|---|---|
| `JsValues.ToStr` | src/NewRelic.js:73 | String(v): a string as is, an integral number in decimal, true/false, "null", "undefined", an object's or error's own text, an array's elements joined by "," with null and undefined as "" |
| `JsValues.Truthy` | src/NewRelic.js:9-18 | the values `if (v)` rejects: "", 0, false, null and undefined; every object is truthy |
| `JsValues.IsObjectType` | src/NewRelic.js:113 | `typeof v === 'object'`: objects, arrays, errors, and null |
| `JsValues.Get` | src/NewRelic.js:46 | `v[key]` for a named property: an object's own property, an error's `stack`, undefined on anything else |
| `Iteration.IsArrayLike` | src/NewRelic.js:128 | the values `_.forEach` walks by index: strings, arrays, and objects whose `length` is a safe non-negative integer |
| `Iteration.ArrayLength` | src/NewRelic.js:128 | how many indices `_.forEach` visits on an array-like value |
| `Iteration.ElementAt` | src/NewRelic.js:128 | the value `_.forEach` hands out at an index: a one-character string, an element, or the property named by the index |
| `Iteration.Entries` | src/NewRelic.js:72 | the (key, value) pairs `_.forEach` and `_.map` visit, in order: by index for array-like values, by own key for other objects, none otherwise |
| `Iteration.OwnEntries` | src/NewRelic.js:115-116 | `Object.keys(v)` with `v[key]` for each key, for a non-null object |
| `Iteration.MapOf` | src/NewRelic.js:127-130 | the object `{}` after assigning each pair's value to its key in turn |
| `Bridge.SendAttributes` | src/NewRelic.js:127-130 | the attribute object send builds: String(key) := String(value) for each visited pair |
| `Bridge.SendEffect` | src/NewRelic.js:125-132 | the native send call: String(name) with the attribute object |
| `Bridge.ConsoleText` | src/NewRelic.js:86 | `_.map(args, String).join(', ')` |
| `Bridge.SendConsoleEffects` | src/NewRelic.js:85-91 | the JSConsole event, then the native log for the "error" type only |
| `Bridge.CustomEventEffect` | src/NewRelic.js:110-123 | the native recordCustomEvent call: stringified type and name, and the own keys with stringified values for an object, an empty map otherwise |
| `Bridge.StackOf` | src/NewRelic.js:46 | `error && error.stack`: the error itself when falsy, its `stack` otherwise |
| `Bridge.UncaughtEffect` | src/NewRelic.js:46 | the JS:UncaughtException event with String(error) and String(error && error.stack) |
| `Bridge.UnhandledEffects` | src/NewRelic.js:56-59 | the JS:UnhandledRejectedPromise event, then the prefixed native log |
| `Bridge.ConsoleCallEffects` | src/NewRelic.js:29-40 | a console call through a chain of wrappers: each wrapper's report, outermost first, then the runtime's output |
| `Bridge.HandlerEffects` | src/NewRelic.js:45-48 | an uncaught error through a chain of handlers: each wrapper's event, then the original handler's call with the error and the isFatal it received |
| `Bridge.HandlerThrows` | src/NewRelic.js:47 | the chain throws exactly when its innermost handler is undefined |
| `JsValues.NatToString` | src/NewRelic.js:129 | String() of a non-negative integral number is a non-empty digit string, starting with '0' only for zero |
| `JsValues.DigitsValueOfNatToString` | src/NewRelic.js:129 | reading the decimal text back gives the number: the rendering loses nothing |
| `JsValues.IntToStringRoundTrip` | src/NewRelic.js:129 | String() of any integral number, sign included, parses back to the number |
| `JsValues.IntToStringInjective` | src/NewRelic.js:129 | distinct numbers (such as distinct array indices) stringify to distinct keys |
| `JsValues.JoinPartAt` | src/NewRelic.js:86 | each stringified argument sits in the joined text at its offset, in the original order |
| `JsValues.JoinSepAfter` | src/NewRelic.js:86 | a `", "` separator follows every argument but the last |
| `JsValues.JoinLength` | src/NewRelic.js:86 | the joined text ends right after the last argument, so it has nothing else |
| `JsValues.JoinSmall` | src/NewRelic.js:86 | joining no arguments gives `""`, and joining one gives that argument |
| `JsValues.LookupAt` | src/NewRelic.js:116 | `args[key]` for an own key of an object with unique keys is that key's value |
| `JsValues.LookupAbsent` | src/NewRelic.js:9-18 | reading a property an object does not have gives undefined, so a missing config flag is falsy |
| `Iteration.MapOfKeys` | src/NewRelic.js:127-130 | the object filled by the loop has exactly the keys that were assigned |
| `Iteration.MapOfLastWins` | src/NewRelic.js:127-130 | each key holds the value of its last assignment |
| `Iteration.MapOfDistinct` | src/NewRelic.js:115-119 | with unique keys, the filled object has one entry per pair, holding that pair's value |
| `Iteration.EntriesKeysDistinct` | src/NewRelic.js:128-129 | the keys `_.forEach` visits are distinct after String(), for every well-formed value |
| `Iteration.OwnEntriesKeysDistinct` | src/NewRelic.js:115-117 | the keys `Object.keys` returns are distinct |
| `Hooks.Trace.Emit` | src/NewRelic.js:131 | a native call appends exactly its one effect to the trace |
| `Hooks.RejectionTracking.Enable` | src/NewRelic.js:54-63 | enabling tracking installs the bridge's callbacks with the given allRejections option |
| `Bridge.AttributeEffects` | src/NewRelic.js:71-75 | there is one setAttribute per pair visited |
| `Bridge.NewRelic.Init` | src/NewRelic.js:8-21 | each hook is installed exactly when its flag is truthy (rejection tracking also needs a non-development build), and the global attributes are set exactly when present; nothing else changes |
| `Bridge.NewRelic.OverrideConsole` | src/NewRelic.js:23-41 | log, warn and error each become a wrapper with their own name around the function they replace |
| `Bridge.NewRelic.ReportUncaughtExceptions` | src/NewRelic.js:43-49 | the global handler becomes a reporting wrapper around the handler it replaces |
| `Bridge.NewRelic.ReportRejectedPromises` | src/NewRelic.js:51-65 | tracking is enabled with allRejections on exactly outside a development build, and is left unchanged otherwise |
| `Bridge.NewRelic.SetGlobalAttributes` | src/NewRelic.js:71-75 | the trace grows by exactly one setAttribute(String(key), String(value)) per pair, in iteration order |
| `Bridge.NewRelic.RemoveAttribute` | src/NewRelic.js:81-83 | the trace grows by exactly removeAttribute(String(name)) |
| `Bridge.NewRelic.SendConsole` | src/NewRelic.js:85-91 | the trace grows by the JSConsole event with consoleType and the joined text, then, for "error" only, the native log |
| `Bridge.NewRelic.Report` | src/NewRelic.js:93-95 | report emits exactly what send emits |
| `Bridge.NewRelic.NativeLog` | src/NewRelic.js:100-102 | the trace grows by exactly one native log of the value, which is not converted |
| `Bridge.NewRelic.RecordCustomEvent` | src/NewRelic.js:110-123 | the trace grows by exactly one recordCustomEvent call with the stringified type and name and the own-keys map (or an empty map) |
| `Bridge.NewRelic.Send` | src/NewRelic.js:125-132 | the trace grows by exactly one send of String(name) and the map filled from the visited pairs |
| `Bridge.NewRelic.ConsoleCall` | src/NewRelic.js:29-40 | calling a console method emits what its installed chain of wrappers emits |
| `Bridge.NewRelic.RunConsoleFn` | src/NewRelic.js:29-40 | a wrapper reports with its own name first, then calls the captured function with the identical arguments |
| `Bridge.NewRelic.UncaughtError` | src/NewRelic.js:45-48 | an uncaught error reported as `(error, isFatal)` emits what the installed handler chain emits, and throws exactly when that chain throws |
| `Bridge.NewRelic.RunHandler` | src/NewRelic.js:45-48 | a wrapper sends the error and its stack, then calls the captured handler with the same error and nothing else, so that handler's isFatal is undefined; calling an undefined handler throws |
| `Bridge.NewRelic.RejectionUnhandled` | src/NewRelic.js:53-59 | an unhandled rejection is reported only when tracking was enabled |
| `Bridge.NewRelic.OnUnhandled` | src/NewRelic.js:56-59 | the callback sends the rejection reason, then logs "[UnhandledRejectedPromise] " with the reason natively |
| `Bridge.NewRelic.OnHandled` | src/NewRelic.js:60-62 | a later-handled rejection emits nothing |
| `Bridge.RecordAttributes` | src/NewRelic.js:87 | sending an object literal without a `length` key sends its keys with their values stringified |
| `Iteration.MapOfExact` | src/NewRelic.js:127-130 | with unique keys, the filled object has exactly those keys, one entry each, with their values |
| `Bridge.SendAttributesExact` | src/NewRelic.js:125-132 | send's map has one entry String(key) → String(value) for each visited pair, and no other key; the event name is String(name) |
| `Bridge.CustomEventAttributesExact` | src/NewRelic.js:110-123 | a non-object sends an empty map; an object sends exactly its own keys with their stringified values, one level deep |
| `Bridge.AttributeEffectsExact` | src/NewRelic.js:71-75 | setGlobalAttributes sets exactly the attributes send would send for the same value: one setAttribute per entry of that map, never two for the same name, each with the map's value |
| `Bridge.ConsoleTextOfArguments` | src/NewRelic.js:86 | the console text is the arguments' String()s in their original order joined by ", "; no arguments give "" |
| `Bridge.SendConsoleShape` | src/NewRelic.js:85-91 | sendConsole emits one JSConsole event, and also a native log of the same text if and only if the type is "error" |
| `Bridge.ConsoleCallEndsWithOriginal` | src/NewRelic.js:23-41 | through any number of wrappers, a console call ends with exactly one output of the runtime's own console function with the identical arguments, and everything before it is a bridge command |
| `Bridge.ConsoleCallCounts` | src/NewRelic.js:23-41 | through n wrappers, a console call sends n JSConsole events and one native log per "error" wrapper |
| `Bridge.WrapperReportCounts` | src/NewRelic.js:85-91 | one wrapper's report is exactly one JSConsole event, plus one native log when the console type is "error", and nothing else |
| `Bridge.WrapPreservesBehaviour` | src/NewRelic.js:29-32 | installing a wrapper only adds bridge reports in front; what the function did before follows unchanged |
| `Bridge.HandlerChainShape` | src/NewRelic.js:43-49 | through n wrappers, an uncaught error sends n JS:UncaughtException events, then calls the original handler exactly once with the same error, with the runtime's isFatal only when n is 0 and undefined otherwise; it throws if and only if there was no original handler |
| `Scenarios.ConsoleLogScenario` | src/NewRelic.js:29-32 | `console.log("a", 1)` sends JSConsole {consoleType: "log", args: "a, 1"}, then the original output |
| `Scenarios.ConsoleErrorScenario` | src/NewRelic.js:37-40 | `console.error("x")` also logs "[JSConsole:Error] x" natively, before the original output |
| `Scenarios.CustomEventScenario` | src/NewRelic.js:110-123 | `{a: 1, b: "x"}` is forwarded as `{a: "1", b: "x"}` |
| `Scenarios.CustomEventNotObjectScenario` | src/NewRelic.js:113-120 | a string in place of attributes is forwarded as an empty map |
| `Scenarios.SendStringScenario` | src/NewRelic.js:128-130 | send walks a string character by character, keyed by index |
| `Scenarios.SendArrayLikeScenario` | src/NewRelic.js:128-130 | send walks an object with a numeric `length` by index, so its named keys are not sent |
| `Scenarios.DoubleInitLog` | src/NewRelic.js:8-11 | after two inits with overrideConsole, one log call sends two JSConsole events, then prints once |
| `Scenarios.UncaughtScenario` | src/NewRelic.js:43-49 | with handler H installed before, a fatal uncaught error sends the event with the error's text and stack, then calls H once with the error and isFatal undefined |
| `Scenarios.UncaughtWithoutPriorScenario` | src/NewRelic.js:44-47 | without a handler installed before, the event is still sent, and then the wrapper throws |
| `Scenarios.RejectionScenario` | src/NewRelic.js:51-65 | an unhandled rejection is reported (event, then native log) only outside a development build; a handled notice adds nothing |
| `Scenarios.GlobalAttributesScenario` | src/NewRelic.js:18-19 | init with `{user: "u1", n: 2}` sets user = "u1", then n = "2" |

## Left out

- The native module `RNNewRelic` (src/NewRelic.js:5) is a foreign call. It is modelled only
  as the effects it receives, with no transport, batching or retry. Failures of the native
  module and of the original console or handler are not modelled.
- Numbers are integral only. NaN, the infinities, fractions and -0 (with their String()
  texts and their falsiness) are left out.
- String() of an object or an error is whatever its toString returns. The model takes that
  text as part of the value and does not derive it. `'…' + error` in string concatenation
  is modelled as String(error); an object with its own valueOf or Symbol.toPrimitive would
  differ.
- Property access models named own properties only: an error's `stack`, and an object's
  own keys. Inherited properties, getters and symbols are left out.
- An error value has no own enumerable properties in this model. So `_.forEach` and
  `Object.keys` visit nothing on it.
- Objects cannot be circular or shared, because values are trees. Functions as values are
  left out, so `typeof` never yields 'function'.
- `Bridge.NewRelic.RecordCustomEvent`: `null` attributes are excluded by its precondition.
  There, `Object.keys(null)` throws a TypeError (src/NewRelic.js:113-115), and that path is
  not modelled.
- `Bridge.NewRelic.Init`: a null or undefined config is excluded by its precondition. There,
  reading a flag throws, and that path is not modelled.
- `Bridge.NewRelic.ReportUncaughtExceptions`: an `errorUtils` that is itself undefined is
  not modelled. Reading `_globalHandler` of undefined would throw.
- The promise library's rejection tracking (src/NewRelic.js:52) is modelled as a state
  (disabled, or enabled with the bridge's callbacks). Its microtask timing, its own
  bookkeeping of rejection ids, and what enabling a second time does to earlier callbacks
  are left out. The runtime calls `RejectionUnhandled`/`OnHandled`.
- Actual console printing is left out, and so is the module-level export of one instance
  (src/NewRelic.js:135). `Scenarios.FreshBridge` builds the one bridge over a fresh runtime.
- JsValues.NatToString: integral numbers always render as plain decimal digits. JavaScript
  switches to exponent notation from 10^21 in magnitude (`String(1e21)` is "1e+21"), and
  `Num` itself admits integers no JavaScript number holds. Only `WellFormed` values, whose
  numbers are safe integers below 2^53, are guaranteed to render as JavaScript does.
- JsValues.ToStr: String() never throws in the model. In JavaScript it throws a TypeError
  on an object with no usable conversion (such as `Object.create(null)`), which aborts
  setGlobalAttributes, send, recordCustomEvent and sendConsole part way
  (src/NewRelic.js:73, 86, 117, 129). The effects the model lists assume every String()
  call on the way returns.
- Bridge.ConsoleCallEndsWithOriginal: holds only for arguments whose String() returns. A
  throwing conversion inside a wrapper's sendConsole (src/NewRelic.js:30) ends the call
  before the original console function runs.
- Bridge.WrapPreservesBehaviour: holds only for arguments whose String() returns, for the
  same reason: otherwise the earlier function's output is lost.
- Strings are sequences of Unicode code points, not of UTF-16 code units. So
  `Iteration.ArrayLength` and `Iteration.ElementAt` count and split a string by code point:
  a character outside the Basic Multilingual Plane is one entry, where `_.forEach` visits
  its two surrogate halves. Lone surrogates cannot be represented.
- Iteration.MapOf: assigning to the key `__proto__` (src/NewRelic.js:117, 129) sets the
  prototype in JavaScript and adds no key; the model adds the key like any other.
- `WellFormed` requires unique keys but not JavaScript's own-key order (integer-like keys
  first in ascending order, then the others in insertion order). An `Obj`'s properties are
  taken in the order given.
- Rejection tracking with allRejections off reports only some error types. The bridge
  always enables it with allRejections on (src/NewRelic.js:55), so that filter is not
  modelled. `Enabled(allRejections)` records the option passed.
- lodash's iteration protocol is modelled as its visiting order only, with the array-like
  rule. Early exit when the callback returns false is left out: the bridge's callbacks
  never return false.
