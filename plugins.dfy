/// `addPlugin`: extending the façade object with named helpers.
module Plugins {

  /** A plugin object; `key` is what its `toString()` returns. */
  datatype Plugin = Plugin(key: string, instance: nat)

  /** A property of the façade: one it defines itself, or a plugin. */
  datatype Property = Builtin | Plugged(plugin: Plugin)

  /** The names the façade object already defines when plugins can be added. */
  const BuiltinNames: set<string> := {
    "ERROR", "WARN", "INFO", "version", "error", "warn", "info",
    "addAppender", "removeAppender", "getAppender", "getRegisteredAppenders",
    "addPlugin", "config", "BaseAppender"
  }

  function InitialProperties(): map<string, Property> {
    map name | name in BuiltinNames :: Builtin
  }

  /** `if (obj[key] === undefined) obj[key] = v`. */
  function InsertIfAbsent(m: map<string, Property>, key: string, v: Property): (r: map<string, Property>)
    ensures r.Keys == m.Keys + {key}
    ensures forall k :: k in m ==> k in r && r[k] == m[k]
    ensures key !in m ==> r[key] == v
  {
    if key in m then m else m[key := v]
  }

  /** Of two plugins under one name, the first stays. */
  lemma InsertIfAbsentKeepsFirst(m: map<string, Property>, key: string, first: Property, second: Property)
    requires key !in m
    ensures InsertIfAbsent(InsertIfAbsent(m, key, first), key, second)[key] == first
  {
  }
}
