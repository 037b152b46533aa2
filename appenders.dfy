/// Appenders, the events they receive, and the `BaseAppender` prototype.
module Appenders {
  import opened Js

  /** The three severities; they stand for the strings 'ERROR', 'WARN' and 'INFO'. */
  datatype Severity = Error | Warn | Info

  /** An appender instance: its `name` (the registry key), whether its
      `LOGJSAPPENDER` marker is truthy, and a tag that tells apart distinct
      objects with the same name and marker. */
  datatype Appender = Appender(name: string, marked: bool, instance: nat)

  /** `new appender(LogJS.config)`: a constructor applied to the shared configuration. */
  type Factory = Value -> Appender

  /** The name `BaseAppender.prototype` gives every appender that does not override it. */
  const BaseAppenderName: string := "LogJSBaseAppender"

  /** An instance of `BaseAppender` itself: the marker is inherited as true. */
  function BaseAppender(instance: nat): Appender {
    Appender(BaseAppenderName, true, instance)
  }

  /** One observable effect: an appender's `log` receiving an event, or a
      previously installed host error handler doing its own work. */
  datatype Event =
    | Logged(target: Appender, severity: Severity, time: int, message: string,
             url: Option<string>, line: Option<int>)
    | Handled(handler: nat, message: string, url: Option<string>, line: Option<int>)

  /** `BaseAppender.prototype.configOpt`: `(config[this.name] && config[this.name][key]) || optValue`. */
  function ConfigOpt(self: Appender, key: string, config: Value, optValue: Value): (r: Completion)
    ensures r.TypeError? <==> config.Undefined? || config.Null?
    ensures r.Normal? ==>
      var v := Prop(Prop(config, self.name), key);
      r.value == if Truthy(v) then v else optValue
    ensures r.Normal? ==> Truthy(r.value) || r.value == optValue
  {
    match Member(config, self.name)
    case TypeError => TypeError
    case Normal(section) =>
      var lhs := if Truthy(section) then Member(section, key).value else section;
      Normal(Or(lhs, optValue))
  }

  /** A missing section, a missing key or a falsy stored value all give the default. */
  lemma ConfigOptFallsBack(self: Appender, key: string, config: Value, optValue: Value)
    requires config.Obj?
    requires !Truthy(Prop(Prop(config, self.name), key))
    ensures ConfigOpt(self, key, config, optValue) == Normal(optValue)
  {
  }

  /** A truthy stored value is returned as it is, whatever the default. */
  lemma ConfigOptFindsValue(self: Appender, key: string, config: Value, optValue: Value)
    requires config.Obj? && self.name in config.props
    requires config.props[self.name].Obj? && key in config.props[self.name].props
    requires Truthy(config.props[self.name].props[key])
    ensures ConfigOpt(self, key, config, optValue) == Normal(config.props[self.name].props[key])
  {
  }
}
