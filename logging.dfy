/// The `LogJS` façade: the appender registry it mutates in place, the
/// dispatcher and its three entry points, the `onerror` interceptor and
/// `addPlugin`. What appenders do with an event is not modelled; `calls`
/// records each call of an appender's `log` (and what a chained host
/// handler does), in order.
module Logging {
  import opened Js
  import opened Appenders
  import opened Registry
  import opened Dispatcher
  import opened Plugins

  class LogJS {
    /** The module-level `appenders` dictionary and its key enumeration order. */
    var appenders: map<string, Appender>
    var order: seq<string>
    /** Every appender call made so far. */
    var calls: seq<Event>
    /** The façade object's own properties, which `addPlugin` extends. */
    var properties: map<string, Property>
    /** `LogJS.config`, handed to every appender constructor. */
    var config: Value
    /** `gErrorHandler`: the host's `onerror` as it was when the façade loaded. */
    const previousHandler: Hook

    ghost predicate Valid()
      reads this
    {
      Registered(appenders, order) && BuiltinNames <= properties.Keys
    }

    /** Loading the script: an empty registry and configuration, the built-in
        properties, and the host's current `onerror` captured for chaining. */
    constructor (hostHook: Hook)
      ensures Valid()
      ensures appenders == map[] && order == [] && calls == []
      ensures properties == InitialProperties() && config == Obj(map[])
      ensures previousHandler == hostHook
    {
      appenders := map[];
      order := [];
      calls := [];
      properties := InitialProperties();
      config := Obj(map[]);
      previousHandler := hostHook;
    }

    /** `log`: every registered appender receives the event, stamped with the
        one clock reading `now`, in key order. */
    method Log(severity: Severity, now: int, message: string, url: Option<string>, line: Option<int>)
      requires Valid()
      modifies this`calls
      ensures calls == old(calls) + Dispatch(appenders, order, severity, now, message, url, line)
    {
      var i := 0;
      while i < |order|
        invariant 0 <= i <= |order|
        invariant calls == old(calls) + Dispatch(appenders, order[..i], severity, now, message, url, line)
      {
        var name := order[i];
        if name in appenders {
          calls := calls + [Logged(appenders[name], severity, now, message, url, line)];
        }
        assert order[..i + 1][..i] == order[..i];
        i := i + 1;
      }
      assert order[..|order|] == order;
    }

    method Error(now: int, message: string, url: Option<string>, line: Option<int>)
      requires Valid()
      modifies this`calls
      ensures calls == old(calls) + Dispatch(appenders, order, Severity.Error, now, message, url, line)
    {
      Log(Severity.Error, now, message, url, line);
    }

    method Warn(now: int, message: string, url: Option<string>, line: Option<int>)
      requires Valid()
      modifies this`calls
      ensures calls == old(calls) + Dispatch(appenders, order, Severity.Warn, now, message, url, line)
    {
      Log(Severity.Warn, now, message, url, line);
    }

    method Info(now: int, message: string, url: Option<string>, line: Option<int>)
      requires Valid()
      modifies this`calls
      ensures calls == old(calls) + Dispatch(appenders, order, Severity.Info, now, message, url, line)
    {
      Log(Severity.Info, now, message, url, line);
    }

    /** The handler installed as `global.onerror`. It returns `undefined`
        whatever the previous handler returned: that value is dropped. */
    method OnError(now: int, message: string, url: Option<string>, line: Option<int>) returns (result: Value)
      requires Valid()
      modifies this`calls
      ensures calls == old(calls) + OnErrorTrace(appenders, order, now, previousHandler, message, url, line)
      ensures result == Undefined
    {
      Log(Severity.Error, now, ExceptionPrefix + message, url, line);
      if previousHandler.HookFunction? {
        var previous := previousHandler.run(message, url, line);
        calls := calls + previous.trace;
      }
      result := Undefined;
    }

    /** `addAppender`: construct, keep the instance only if it carries the
        marker, and store it under its own name, replacing any entry there. */
    method AddAppender(factory: Option<Factory>)
      requires Valid()
      modifies this`appenders, this`order
      ensures Valid()
      ensures factory.None? || !factory.value(config).marked ==>
                appenders == old(appenders) && order == old(order)
      ensures factory.Some? && factory.value(config).marked ==>
                var a := factory.value(config);
                && appenders == old(appenders)[a.name := a]
                && order == (if a.name in old(appenders) then old(order) else old(order) + [a.name])
                && GetAppender(a.name) == Some(a)
                && |appenders| == |old(appenders)| + (if a.name in old(appenders) then 0 else 1)
    {
      if factory.Some? {
        var instance := factory.value(config);
        if instance.marked {
          if instance.name !in appenders {
            NoDuplicatesAppend(order, instance.name);
            order := order + [instance.name];
          }
          appenders := appenders[instance.name := instance];
        }
      }
    }

    /** `removeAppender`: `delete` the key named by the given object, if any. */
    method RemoveAppender(appender: Option<Appender>)
      requires Valid()
      modifies this`appenders, this`order
      ensures Valid()
      ensures appender.None? ==> appenders == old(appenders) && order == old(order)
      ensures appender.Some? ==>
                && appenders == old(appenders) - {appender.value.name}
                && order == Without(old(order), appender.value.name)
                && GetAppender(appender.value.name) == None
      ensures appender.Some? && appender.value.name !in old(appenders) ==>
                appenders == old(appenders) && order == old(order)
    {
      if appender.Some? {
        appenders := appenders - {appender.value.name};
        order := Without(order, appender.value.name);
      }
    }

    /** `getAppender`: the entry under `name`, if the registry has one. */
    function GetAppender(name: string): (r: Option<Appender>)
      reads this
      requires Valid()
      ensures r.Some? <==> name in order
      ensures r.Some? ==> r.value.name == name && r.value.marked && r.value == appenders[name]
    {
      if name in appenders then Some(appenders[name]) else None
    }

    /** `getRegisteredAppenders`: the registered names, each once, in
        enumeration order. */
    method GetRegisteredAppenders() returns (registered: seq<string>)
      requires Valid()
      ensures registered == order
      ensures forall k :: k in registered <==> k in appenders
      ensures NoDuplicates(registered)
    {
      registered := [];
      var i := 0;
      while i < |order|
        invariant 0 <= i <= |order|
        invariant registered == order[..i]
      {
        var name := order[i];
        if name in appenders {
          registered := registered + [name];
        }
        i := i + 1;
      }
    }

    /** `addPlugin`: add the plugin under its `toString()` name unless the
        façade already has a property of that name. */
    method AddPlugin(plugin: Plugin)
      requires Valid()
      modifies this`properties
      ensures Valid()
      ensures properties == InsertIfAbsent(old(properties), plugin.key, Plugged(plugin))
      ensures plugin.key in BuiltinNames ==> properties == old(properties)
    {
      if plugin.key !in properties {
        properties := properties[plugin.key := Plugged(plugin)];
      }
    }
  }
}
