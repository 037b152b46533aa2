# LogJS core in Dafny

LogJS is a small logging façade. Application code calls `error`, `warn` or
`info`. The façade passes each event, stamped with one clock reading, to every
appender in its registry. An appender is a pluggable sink object. Appenders are
registered by name, and only objects that carry the `LOGJSAPPENDER` marker
are accepted. On load, the façade also installs a `global.onerror` handler.
That handler logs uncaught errors at ERROR and then calls whatever handler was
there before, passing it the message, url and line number. `addPlugin` extends the façade object with named helpers, but it
never overwrites an existing property. `configOpt` is the appenders' helper for
reading per-appender options.

The model has seven modules:

- `Js` (js.dfy): the JavaScript values that configuration objects hold,
  truthiness (what `if`, `&&` and `||` test), and property lookup, including
  the TypeError on `undefined`/`null`.
- `Appenders` (appenders.dfy): severities, appender instances (name, marker,
  identity), factories (constructors applied to `LogJS.config`), the
  `BaseAppender` defaults, the events appenders receive, and `configOpt`.
- `Registry` (registry.dfy): the registry invariant, which says every key is
  listed once in enumeration order and every entry is a marked appender
  stored under its own name. It also holds the key order after a `delete`.
- `Dispatcher` (dispatch.dfy): the trace of appender calls that one `log`
  produces, and the trace of the installed `onerror` handler. The handler is
  a composition of an ERROR dispatch with the optional previous handler.
- `Plugins` (plugins.dfy): the façade's property map and insert-if-absent.
- `Logging` (logging.dfy): the class `LogJS`. It holds the state the source
  mutates in place: the `appenders` dictionary and its key order, the
  façade's properties, `config`, and the captured `gErrorHandler`. It also
  holds `calls`, the sequence of every appender `log` call made so far.
- `Scenarios` (scenarios.dfy): client methods. From the contracts alone they
  check these cases: the same name registered twice, an unmarked instance,
  `info` with no appenders, one event reaching two appenders, an uncaught
  error chained to a host handler, two plugins with one name, and `configOpt`
  on an empty configuration.

The clock is a parameter (`now`) of every logging call. Enumeration order is
insertion order. Re-assigning an existing key keeps its place, and deleting a
key removes it from the order.

In these places the code does less than, or something other than, what its interface suggests. The model follows the code:

- The `onerror` handler is installed unconditionally (log.js:35). It is not
  skipped when the host has no hook. Capturing the old hook (log.js:31-33)
  amounts to copying the slot. The old hook is called only when it is truthy
  (log.js:37), so a `null` slot is captured but never called.
- `configOpt` falls back to the default for any falsy stored value (`0`,
  `false`, `""`), not only for a missing section or key. It throws a TypeError
  when the configuration object itself is `undefined` or `null`.
- The installed `onerror` handler takes three parameters (log.js:35). It forwards
  only message, url and line number to the previous handler (log.js:38), so a
  browser's column number and Error object never reach it. It also returns
  `undefined` whatever the previous handler returned, so that handler's `true`
  (which asks the browser to suppress the default error report) is lost.
  `OnError` states that its result is `undefined`.
- `addPlugin` ignores a plugin whose name is one of the façade's own
  properties (`error`, `config`, `addAppender`, …), because that property is
  already defined (log.js:88).

## Model

| member | source | states |
|---|---|---|
| `Appenders.ConfigOpt` | log.js:116-118 | Throws exactly when the configuration is `undefined` or `null`. Otherwise returns the stored `config[name][key]` when it is truthy and the default when it is not, so the result is either truthy or the default. |
| `Appenders.ConfigOptFallsBack` | log.js:116-118 | A missing section, a missing key or a falsy stored value yields the default. |
| `Appenders.ConfigOptFindsValue` | log.js:116-118 | A truthy stored value is returned unchanged, whatever the default. |
| `Registry.Without` | log.js:69 | After `delete`, the key order holds exactly the other keys. It is unchanged when the key was absent, and it stays free of duplicates. |
| `Registry.WithoutAt` | log.js:69 | Deleting the key at position i leaves every other key in its relative place. |
| `Dispatcher.DispatchAt` | log.js:20-27 | One dispatch makes one call per key. Call i goes to the appender under the i-th key, with the same severity, time `now`, message, url and line. |
| `Dispatcher.DispatchReachesEachOnce` | log.js:20-27 | Over a registry, every registered appender is called exactly once, only registered appenders are called, and no calls are made exactly when the registry is empty. |
| `Dispatcher.OnErrorChains` | log.js:30-40 | The installed handler first sends `[EXCEPTION] message` at ERROR to every appender. Then it runs the previous handler with the original message, url and line number, only if that handler is a function. With no previous handler, nothing follows the dispatch. |
| `Dispatcher.ChainedTwice` | log.js:30-40 | An interceptor that captured another interceptor runs its own dispatch, then the inner one's, then whatever the inner one captured. |
| `Plugins.InsertIfAbsent` | log.js:87-91 | The property map gains the name. Every existing property keeps its value, and the new value is stored only when the name was absent. |
| `Plugins.InsertIfAbsentKeepsFirst` | log.js:87-91 | Of two plugins added under one name, the first stays. |
| `Logging.LogJS.constructor` | log.js:8-33 | The façade starts with an empty registry, an empty `config`, its built-in properties, and the host's `onerror` captured. The `config` object is set up at log.js:93-98. `BaseAppender`, one of the built-in properties, is defined at log.js:103. |
| `Logging.LogJS.Log` | log.js:20-27 | Appends exactly the dispatch trace of the event over the current registry, and changes nothing else. |
| `Logging.LogJS.Error` | log.js:44-46 | Dispatches once with severity ERROR and the arguments unchanged. |
| `Logging.LogJS.Warn` | log.js:48-50 | Dispatches once with severity WARN and the arguments unchanged. |
| `Logging.LogJS.Info` | log.js:52-54 | Dispatches once with severity INFO and the arguments unchanged. |
| `Logging.LogJS.OnError` | log.js:35-40 | Appends the chained error-handler trace over the current registry and the captured handler. It returns `undefined`, dropping the previous handler's result. |
| `Logging.LogJS.AddAppender` | log.js:58-65 | With no factory or an unmarked instance, the registry is unchanged. Otherwise the instance is stored under its name and `getAppender` returns it. An existing name keeps its place and the key count. A new name goes last. Every other entry is unchanged, and the registry invariant is kept. |
| `Logging.LogJS.RemoveAppender` | log.js:67-71 | Removes only the given object's name from the entries and the key order. Removing an absent name, or passing `undefined`, changes nothing. |
| `Logging.LogJS.GetAppender` | log.js:73-75 | Returns an appender exactly when the name is registered. The appender returned is marked and carries that name. |
| `Logging.LogJS.GetRegisteredAppenders` | log.js:77-85 | Returns exactly the registry's keys in enumeration order, each once. |
| `Logging.LogJS.AddPlugin` | log.js:87-91 | Inserts the plugin only under a name the façade does not yet have. A built-in name is never taken, and the invariant is kept. |

## Left out

- Module export wiring (AMD `define`, CommonJS `module.exports`, the global binding, log.js:130-143): host plumbing with no logic.
- The clock `new Date().getTime()` (log.js:21) is the parameter `now`. Rebinding the host's `global.onerror` slot (log.js:35) is not modelled. The installed handler is the method `OnError`.
- What appenders do with an event, including the empty `BaseAppender.prototype.log` (log.js:113-114): sinks are external. Each call is recorded as a `Logged` event. A chained host handler's effects are whatever trace its `Handler` function returns.
- Exceptions thrown by an appender's `log` or by a previous handler: the source defines no behaviour for them.
- Appenders or handlers that change the registry while a dispatch is running: the dispatch loop reads a registry that the calls cannot change.
- `Object.defineProperty` attribute details (log.js:93-98, 106-111, 120-125). What is kept is that `BaseAppender` instances are marked and are named `LogJSBaseAppender`.
- Prototype mechanics of `new appender(LogJS.config)` (log.js:60): a factory is a function from the configuration to an appender record. Object identity is the record's `instance` tag, not a fresh allocation.
- JavaScript property-order details. Keys that are canonical array indices ("0", "1", …) enumerate before all other keys, in numeric order. The key `__proto__` is not an own property. Both differ from the insertion order used here.
- Inherited properties: `configOpt` and `addPlugin` look only at own properties of objects. In JavaScript, a lookup such as `config[name]["toString"]`, or a plugin named `toString`, would find `Object.prototype` members. Strings also have properties: `configOpt("length", {LogJSBaseAppender: "abc"}, d)` gives 3 in the source and `d` in the model.
- `Logging.LogJS.GetAppender`, `Logging.LogJS.Log` and `Logging.LogJS.GetRegisteredAppenders` treat the registry as its own properties only. In the source it is a plain object with `Object.prototype` behind it, which has three consequences. (1) `getAppender("toString")` (also "constructor", "hasOwnProperty", "__proto__") returns the inherited member at log.js:74, where the model returns `None`. (2) After a marked appender named "hasOwnProperty" is added, `appenders.hasOwnProperty` is no longer a function. Every later `log`, `error`, `warn`, `info` and `onerror` then throws a TypeError at log.js:23 before any appender is called, and `getRegisteredAppenders` throws at log.js:80. The model dispatches and lists as usual. (3) `__proto__` cannot become a key.
- `Logging.LogJS.AddAppender`: the TypeErrors of log.js:60 are not modelled. `addAppender(null)` passes the `!== undefined` test and then throws at `new appender(...)`. A factory that is not a constructor throws there too, and so does a constructor that throws. A factory here is an `Option` of a total function, so none of these cases can be written.
- `Logging.LogJS.RemoveAppender`: a `null` argument, which throws a TypeError at log.js:69, is not modelled.
- `Logging.LogJS.AddPlugin`: an `undefined` or `null` argument, which throws a TypeError at log.js:88, is not modelled. A plugin's name is given directly rather than computed by its `toString()`.
- `Logging.LogJS.OnError`: a previous handler is seen only through the three arguments LogJS passes it. The column number and Error object a browser would supply are not parameters of the model, because LogJS never forwards them.
- Numbers are integers: NaN, -0 and fractions are not values of `Js.Value`. Only values seen by truthiness tests matter here.
