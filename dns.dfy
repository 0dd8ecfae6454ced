/** The dns re-patch (`src/fixes/dns.ts`): targets, the patcher and the routing wrapper. */
module Dns {
  import opened Wrappers
  import opened SelfTrace

  /** The `dns` module methods that are re-patched and routed. */
  const CheckedNames: seq<string> := ["lookup", "lookupService", "resolve", "reverse"]

  /** The `dns.Resolver.prototype` methods that are re-patched. */
  const ResolverNames: seq<string> := ["resolve", "reverse"]

  /**
   * `targets`: the `dns` module with its four methods, then the resolver
   * prototype with two, only when `dns.Resolver` exists.
   */
  function Targets(dns: JsObject, resolverPrototype: Option<JsObject>): (targets: seq<Target>)
    ensures |targets| == if resolverPrototype.Some? then 2 else 1
    ensures targets[0] == Target(dns, CheckedNames)
    ensures resolverPrototype.Some? ==> targets[1] == Target(resolverPrototype.value, ResolverNames)
  {
    [Target(dns, CheckedNames)] + if resolverPrototype.Some? then [Target(resolverPrototype.value, ResolverNames)] else []
  }

  /**
   * The wrapper `checkPatch` builds, as written: `original` when the first
   * argument is a host to skip, otherwise the traced method; the arguments
   * are passed on untouched, but `this` is the patch descriptor `target`
   * rather than the object the method was called on.
   */
  function RouteAsWritten(cfg: Config, target: Target, traced: Fn, original: Fn, args: seq<Arg>): (call: Call)
    ensures call.args == args && call.receiver == Descriptor(target)
    ensures ToSkip(cfg, JsString(ArgAt(args, 0))) ==> call.callee == original
    ensures !ToSkip(cfg, JsString(ArgAt(args, 0))) ==> call.callee == traced
  {
    if ToSkip(cfg, JsString(ArgAt(args, 0))) then Call(original, Descriptor(target), args)
    else Call(traced, Descriptor(target), args)
  }

  /**
   * The wrapper with the receiver it evidently means to keep: the same
   * choice of function and arguments, called on the wrapper's own `this`.
   */
  function Route(cfg: Config, traced: Fn, original: Fn, args: seq<Arg>): (call: Call)
    ensures call.args == args && call.receiver == CallerThis
    ensures ToSkip(cfg, JsString(ArgAt(args, 0))) ==> call.callee == original
    ensures !ToSkip(cfg, JsString(ArgAt(args, 0))) ==> call.callee == traced
  {
    if ToSkip(cfg, JsString(ArgAt(args, 0))) then Call(original, CallerThis, args)
    else Call(traced, CallerThis, args)
  }

  /**
   * As written, a routed `resolver.resolve(...)` runs on the descriptor
   * `{object: Resolver.prototype, methodNames}` instead of the resolver
   * instance it was called on; the corrected wrapper differs only there.
   */
  lemma ResolverCallLosesInstance(cfg: Config, prototype: JsObject, traced: Fn, original: Fn, args: seq<Arg>)
    ensures var t := Targets(prototype, Some(prototype))[1];
      var asWritten := RouteAsWritten(cfg, t, traced, original, args);
      var corrected := Route(cfg, traced, original, args);
      && asWritten.receiver == Descriptor(Target(prototype, ResolverNames))
      && asWritten.receiver != CallerThis
      && corrected.receiver == CallerThis
      && asWritten.(receiver := CallerThis) == corrected
  {
  }

  /** `patcher`: the routing wrapper for the four dns names, the method itself for any other. */
  function Patcher(target: Target, methodName: string, traced: Fn, original: Fn): (f: Fn)
    ensures methodName in CheckedNames ==> f == NewFunction(DnsCheck(target, traced, original))
    ensures methodName !in CheckedNames ==> f == traced
  {
    if methodName in CheckedNames then NewFunction(DnsCheck(target, traced, original)) else traced
  }

  /** Every name of either target is one the patcher wraps. */
  lemma TargetsAreAllRouted(dns: JsObject, resolverPrototype: Option<JsObject>)
    ensures forall i, k :: 0 <= i < |Targets(dns, resolverPrototype)| && 0 <= k < |Targets(dns, resolverPrototype)[i].methodNames| ==>
      Targets(dns, resolverPrototype)[i].methodNames[k] in CheckedNames
  {
  }
}
