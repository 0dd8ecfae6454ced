/** The net re-patch (`src/fixes/net.ts`): targets, the patcher and the routing wrapper. */
module Net {
  import opened Wrappers
  import opened SelfTrace

  const MethodNames: seq<string> := ["get", "request"]

  /** `targets`: the `net` module's `get` and `request`. */
  function Targets(net: JsObject): (targets: seq<Target>)
    ensures targets == [Target(net, MethodNames)]
  {
    [Target(net, MethodNames)]
  }

  /**
   * The host `checkPatch` examines: `port.host` when the first argument is a
   * plain object (`[object Object]`), otherwise the second argument.
   */
  function Host(args: seq<Arg>): (host: Arg)
    ensures ArgAt(args, 0).Obj? ==> host == PropertyValue(ArgAt(args, 0).host)
    ensures !ArgAt(args, 0).Obj? ==> host == ArgAt(args, 1)
  {
    var port := ArgAt(args, 0);
    if port.Obj? then PropertyValue(port.host) else ArgAt(args, 1)
  }

  /**
   * The wrapper: `original` only for a truthy host that is to be skipped,
   * otherwise the traced method; same arguments, the wrapper's own `this`.
   */
  function Route(cfg: Config, traced: Fn, original: Fn, args: seq<Arg>): (call: Call)
    ensures call.args == args && call.receiver == CallerThis
    ensures Truthy(Host(args)) && ToSkip(cfg, JsString(Host(args))) ==> call.callee == original
    ensures !(Truthy(Host(args)) && ToSkip(cfg, JsString(Host(args)))) ==> call.callee == traced
  {
    var host := Host(args);
    if Truthy(host) && ToSkip(cfg, JsString(host)) then Call(original, CallerThis, args)
    else Call(traced, CallerThis, args)
  }

  /** `patcher`: always the routing wrapper, whatever the method name. */
  function Patcher(target: Target, methodName: string, traced: Fn, original: Fn): (f: Fn)
    ensures f == NewFunction(NetCheck(traced, original))
  {
    NewFunction(NetCheck(traced, original))
  }

  /**
   * An absent host is never skipped, even when the agent host is unset and
   * its pattern is "undefined".
   */
  lemma MissingHostIsTraced(cfg: Config, traced: Fn, original: Fn, args: seq<Arg>)
    requires Host(args) == Undefined
    ensures Route(cfg, traced, original, args).callee == traced
  {
  }
}
