/// The dispatcher `log` and the `onerror` interceptor, as the traces of
/// appender calls they produce.
module Dispatcher {
  import opened Js
  import opened Appenders
  import opened Registry

  /** The trace of one `log(severity, message, url, lineNumber)` with the
      clock reading `now`: one `Logged` event per key, in key order, for
      every key the dictionary owns (the `hasOwnProperty` test). */
  function Dispatch(entries: map<string, Appender>, keys: seq<string>, severity: Severity, now: int,
                    message: string, url: Option<string>, line: Option<int>): seq<Event>
    decreases |keys|
  {
    if keys == [] then []
    else
      var k := keys[|keys| - 1];
      Dispatch(entries, keys[..|keys| - 1], severity, now, message, url, line)
        + (if k in entries then [Logged(entries[k], severity, now, message, url, line)] else [])
  }

  /** Call i goes to the appender under the i-th key, with the same time and
      the arguments unmodified; there are as many calls as keys. */
  lemma {:induction false} DispatchAt(entries: map<string, Appender>, keys: seq<string>, severity: Severity,
                                      now: int, message: string, url: Option<string>, line: Option<int>)
    requires forall k :: k in keys ==> k in entries
    ensures var t := Dispatch(entries, keys, severity, now, message, url, line);
      && |t| == |keys|
      && forall i :: 0 <= i < |keys| ==> t[i] == Logged(entries[keys[i]], severity, now, message, url, line)
  {
    if keys != [] {
      var init := keys[..|keys| - 1];
      assert forall k :: k in init ==> k in keys;
      DispatchAt(entries, init, severity, now, message, url, line);
    }
  }

  /** Over a registry, one dispatch calls every registered appender exactly
      once and calls nothing else; with no appenders it calls nothing. */
  lemma DispatchReachesEachOnce(entries: map<string, Appender>, order: seq<string>, severity: Severity,
                                now: int, message: string, url: Option<string>, line: Option<int>)
    requires Registered(entries, order)
    ensures var t := Dispatch(entries, order, severity, now, message, url, line);
      && (forall i :: 0 <= i < |t| ==> t[i].Logged?)
      && (forall i :: 0 <= i < |t| ==> t[i].target.name in entries && entries[t[i].target.name] == t[i].target)
      && (forall k :: k in entries ==> exists i :: 0 <= i < |t| && t[i] == Logged(entries[k], severity, now, message, url, line))
      && (forall i, j :: 0 <= i < j < |t| ==> t[i].target != t[j].target)
      && (entries == map[] <==> t == [])
  {
    var t := Dispatch(entries, order, severity, now, message, url, line);
    DispatchAt(entries, order, severity, now, message, url, line);
    forall i | 0 <= i < |t|
      ensures t[i].Logged? && t[i].target.name in entries && entries[t[i].target.name] == t[i].target
    {
      assert t[i] == Logged(entries[order[i]], severity, now, message, url, line);
    }
    forall k | k in entries
      ensures exists i :: 0 <= i < |t| && t[i] == Logged(entries[k], severity, now, message, url, line)
    {
      var i :| 0 <= i < |order| && order[i] == k;
      assert t[i] == Logged(entries[k], severity, now, message, url, line);
    }
    forall i, j | 0 <= i < j < |t|
      ensures t[i].target != t[j].target
    {
      NoDuplicatesAt(order, i, j);
      assert t[i].target.name == order[i] && t[j].target.name == order[j];
    }
    if entries != map[] {
      var k :| k in entries;
      assert k in order;
    }
  }

  /** What one run of a handler leaves behind: the events it causes and the
      value it returns (a browser reads `true` as "error handled"). */
  datatype Outcome = Outcome(trace: seq<Event>, result: Value)

  /** The callable an `onerror` slot holds, seen through the three arguments
      LogJS passes on: message, url and line number. */
  type Handler = (string, Option<string>, Option<int>) -> Outcome

  /** The host's `onerror` slot: `undefined`, `null` or a function. */
  datatype Hook = HookUndefined | HookNull | HookFunction(run: Handler)

  const ExceptionPrefix: string := "[EXCEPTION] "

  /** `if (gErrorHandler) gErrorHandler(message, url, lineNumber)`. */
  function Forward(previous: Hook, message: string, url: Option<string>, line: Option<int>): seq<Event> {
    match previous
    case HookFunction(run) => run(message, url, line).trace
    case _ => []
  }

  /** The trace of the installed `onerror` handler: an ERROR dispatch of the
      prefixed message, then the previously captured handler, if callable. */
  function OnErrorTrace(entries: map<string, Appender>, keys: seq<string>, now: int, previous: Hook,
                        message: string, url: Option<string>, line: Option<int>): seq<Event>
  {
    Dispatch(entries, keys, Error, now, ExceptionPrefix + message, url, line)
      + Forward(previous, message, url, line)
  }

  /** The new handler first logs `[EXCEPTION] message` at ERROR to every
      appender, then hands the original arguments to the previous handler,
      and only when there was one. */
  lemma OnErrorChains(entries: map<string, Appender>, keys: seq<string>, now: int, previous: Hook,
                      message: string, url: Option<string>, line: Option<int>)
    requires forall k :: k in keys ==> k in entries
    ensures var t := OnErrorTrace(entries, keys, now, previous, message, url, line);
      && |keys| <= |t|
      && (forall i :: 0 <= i < |keys| ==>
            t[i] == Logged(entries[keys[i]], Error, now, ExceptionPrefix + message, url, line))
      && (previous.HookFunction? ==> t[|keys|..] == previous.run(message, url, line).trace)
      && (!previous.HookFunction? ==> |t| == |keys|)
  {
    var d := Dispatch(entries, keys, Error, now, ExceptionPrefix + message, url, line);
    DispatchAt(entries, keys, Error, now, ExceptionPrefix + message, url, line);
    assert (d + Forward(previous, message, url, line))[|keys|..] == Forward(previous, message, url, line);
  }

  /** Loading the façade twice chains twice: the outer handler's dispatch,
      then the inner handler's, then whatever the inner one had captured. */
  lemma ChainedTwice(outer: map<string, Appender>, outerKeys: seq<string>, outerNow: int,
                     inner: map<string, Appender>, innerKeys: seq<string>, innerNow: int,
                     innerHandler: Handler, previous: Hook,
                     message: string, url: Option<string>, line: Option<int>)
    requires innerHandler(message, url, line).trace == OnErrorTrace(inner, innerKeys, innerNow, previous, message, url, line)
    ensures OnErrorTrace(outer, outerKeys, outerNow, HookFunction(innerHandler), message, url, line)
         == Dispatch(outer, outerKeys, Error, outerNow, ExceptionPrefix + message, url, line)
          + Dispatch(inner, innerKeys, Error, innerNow, ExceptionPrefix + message, url, line)
          + Forward(previous, message, url, line)
  {
  }
}
