/// Clients of the façade that check these usage scenarios from the method
/// contracts alone.
module Scenarios {
  import opened Js
  import opened Appenders
  import opened Registry
  import opened Dispatcher
  import opened Plugins
  import opened Logging

  /** Two appenders named "console": only the second stays registered. */
  method SameNameOverwrites() {
    var logjs := new LogJS(HookUndefined);
    var first := Appender("console", true, 1);
    var second := Appender("console", true, 2);
    logjs.AddAppender(Some((c: Value) => first));
    logjs.AddAppender(Some((c: Value) => second));
    assert logjs.appenders == map["console" := second];
    var names := logjs.GetRegisteredAppenders();
    assert names == ["console"];
    assert logjs.GetAppender("console") == Some(second);
  }

  /** An instance without the marker, and no factory at all, change nothing. */
  method UnmarkedIsDropped() {
    var logjs := new LogJS(HookNull);
    logjs.AddAppender(Some((c: Value) => Appender("plain", false, 1)));
    logjs.AddAppender(None);
    assert logjs.appenders == map[] && logjs.order == [];
    logjs.AddAppender(Some((c: Value) => BaseAppender(2)));
    assert logjs.GetAppender(BaseAppenderName) == Some(BaseAppender(2));
    logjs.RemoveAppender(Some(Appender("absent", true, 3)));
    assert logjs.order == [BaseAppenderName];
  }

  /** `info("boot complete")` with no appenders calls nothing. */
  method InfoWithoutAppenders(now: int) {
    var logjs := new LogJS(HookUndefined);
    logjs.Info(now, "boot complete", None, None);
    assert logjs.calls == [];
  }

  /** The trace of one INFO event over a registry of two appenders. */
  lemma TwoAppenderTrace(a: Appender, b: Appender, now: int, message: string)
    requires a.name != b.name
    ensures Dispatch(map[a.name := a, b.name := b], [a.name, b.name], Severity.Info, now, message, None, None)
         == [Logged(a, Severity.Info, now, message, None, None), Logged(b, Severity.Info, now, message, None, None)]
  {
    var keys := [a.name, b.name];
    DispatchAt(map[a.name := a, b.name := b], keys, Severity.Info, now, message, None, None);
    assert keys[0] == a.name && keys[1] == b.name;
  }

  /** A fresh façade with two marked appenders registered one after the other. */
  method RegisterTwo(a: Appender, b: Appender) returns (logjs: LogJS)
    requires a.marked && b.marked && a.name != b.name
    ensures fresh(logjs) && logjs.Valid() && logjs.calls == []
    ensures logjs.order == [a.name, b.name] && logjs.appenders == map[a.name := a, b.name := b]
  {
    logjs := new LogJS(HookUndefined);
    var fa: Factory := (c: Value) => a;
    var fb: Factory := (c: Value) => b;
    assert fa(logjs.config) == a && fb(logjs.config) == b;
    logjs.AddAppender(Some(fa));
    assert logjs.order == [a.name];
    assert fb(logjs.config) == b;
    logjs.AddAppender(Some(fb));
  }

  /** One event reaches each of two appenders once, in registration order. */
  method InfoReachesEveryAppender(a: Appender, b: Appender, now: int, message: string)
    requires a.marked && b.marked && a.name != b.name
  {
    var logjs := RegisterTwo(a, b);
    logjs.Info(now, message, None, None);
    TwoAppenderTrace(a, b, now, message);
    assert logjs.calls == [Logged(a, Severity.Info, now, message, None, None),
                           Logged(b, Severity.Info, now, message, None, None)];
  }

  /** The trace of the interceptor over {console: a} chained to a host handler. */
  lemma ChainedTrace(a: Appender, now: int, host: Handler)
    requires host("boom", Some("app.js"), Some(3)).trace == [Handled(0, "boom", Some("app.js"), Some(3))]
    ensures OnErrorTrace(map["console" := a], ["console"], now, HookFunction(host), "boom", Some("app.js"), Some(3))
         == [Logged(a, Severity.Error, now, "[EXCEPTION] boom", Some("app.js"), Some(3)),
             Handled(0, "boom", Some("app.js"), Some(3))]
  {
    var entries := map["console" := a];
    var keys := ["console"];
    OnErrorChains(entries, keys, now, HookFunction(host), "boom", Some("app.js"), Some(3));
    assert ExceptionPrefix + "boom" == "[EXCEPTION] boom";
    assert keys[0] == "console";
  }

  /** An uncaught error is logged at ERROR and then reaches the host's own
      handler with the original arguments; the host handler's `true` is lost. */
  method UncaughtErrorIsChained(now: int) {
    var host := (m: string, u: Option<string>, l: Option<int>) => Outcome([Handled(0, m, u, l)], Bool(true));
    var logjs := new LogJS(HookFunction(host));
    var a := Appender("console", true, 1);
    logjs.AddAppender(Some((c: Value) => a));
    assert logjs.order == ["console"] && logjs.appenders == map["console" := a];
    var result := logjs.OnError(now, "boom", Some("app.js"), Some(3));
    assert result == Undefined;
    ChainedTrace(a, now, host);
    assert logjs.calls == [Logged(a, Severity.Error, now, "[EXCEPTION] boom", Some("app.js"), Some(3)),
                           Handled(0, "boom", Some("app.js"), Some(3))];
  }

  /** Two plugins named "Helper": the first is kept; a plugin cannot take a
      name the façade already defines. */
  method PluginKeepsFirst() {
    var logjs := new LogJS(HookUndefined);
    logjs.AddPlugin(Plugin("Helper", 1));
    logjs.AddPlugin(Plugin("Helper", 2));
    assert logjs.properties["Helper"] == Plugged(Plugin("Helper", 1));
    logjs.AddPlugin(Plugin("error", 3));
    assert logjs.properties["error"] == Builtin;
  }

  /** `configOpt('level', {}, 'default')` gives 'default'. */
  method ConfigOptOnEmptyConfig() {
    var r := ConfigOpt(BaseAppender(1), "level", Obj(map[]), Str("default"));
    assert r == Normal(Str("default"));
  }
}
