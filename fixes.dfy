/**
 * `fixDDTraces` (`src/fixes/index.ts`): the three table rewrites in order,
 * and what a call to a function they install does.
 */
module Fixes {
  import opened Wrappers
  import opened SelfTrace
  import Dns
  import Net
  import Http

  /** Every object any of the three steps may rewrite. */
  function AllObjects(dnsTargets: seq<Target>, httpTargets: seq<Target>, netTargets: seq<Target>): set<JsObject>
  {
    Objects(dnsTargets) + Objects(httpTargets) + Objects(netTargets)
  }

  /**
   * The three steps on one snapshot: dns, then http, then net. The http step
   * comes from `src/fixes/http.ts`, so its targets and patcher are parameters.
   */
  function FixAll(tables: map<JsObject, map<string, Fn>>, dnsTargets: seq<Target>,
                  httpTargets: seq<Target>, httpPatcher: Patcher, netTargets: seq<Target>)
    : (r: map<JsObject, map<string, Fn>>)
    requires AllObjects(dnsTargets, httpTargets, netTargets) <= tables.Keys
    ensures r.Keys == tables.Keys
    ensures forall o :: o in tables && o !in AllObjects(dnsTargets, httpTargets, netTargets) ==> r[o] == tables[o]
  {
    var afterDns := ApplyTargets(tables, dnsTargets, Dns.Patcher);
    var afterHttp := ApplyTargets(afterDns, httpTargets, httpPatcher);
    ApplyTargets(afterHttp, netTargets, Net.Patcher)
  }

  /**
   * `fixDDTraces()`: runs `fixTraces` with the dns, http and net targets and
   * patchers; the objects end up as `FixAll` of their properties before, or
   * untouched when self traces are not disabled.
   */
  method FixDDTraces(cfg: Config, dnsTargets: seq<Target>, httpTargets: seq<Target>, httpPatcher: Patcher,
                     netTargets: seq<Target>)
    modifies AllObjects(dnsTargets, httpTargets, netTargets)
    ensures cfg.disableSelfTraces == 0 ==>
      forall o :: o in AllObjects(dnsTargets, httpTargets, netTargets) ==> o.props == old(o.props)
    ensures cfg.disableSelfTraces != 0 ==>
      forall o :: o in AllObjects(dnsTargets, httpTargets, netTargets) ==>
        o.props == FixAll(old(Tables(AllObjects(dnsTargets, httpTargets, netTargets))), dnsTargets, httpTargets, httpPatcher, netTargets)[o]
  {
    ghost var all := AllObjects(dnsTargets, httpTargets, netTargets);
    ghost var t0 := Tables(all);

    ghost var pre := Tables(Objects(dnsTargets));
    FixTraces(cfg, dnsTargets, Dns.Patcher);
    ghost var t1 := Tables(all);
    if cfg.disableSelfTraces != 0 {
      StepComposes(all, t0, pre, t0, t1, dnsTargets, Dns.Patcher);
    }

    pre := Tables(Objects(httpTargets));
    FixTraces(cfg, httpTargets, httpPatcher);
    ghost var t2 := Tables(all);
    if cfg.disableSelfTraces != 0 {
      StepComposes(all, t1, pre, ApplyTargets(t0, dnsTargets, Dns.Patcher), t2, httpTargets, httpPatcher);
    }

    pre := Tables(Objects(netTargets));
    FixTraces(cfg, netTargets, Net.Patcher);
    ghost var t3 := Tables(all);
    if cfg.disableSelfTraces != 0 {
      StepComposes(all, t2, pre, ApplyTargets(ApplyTargets(t0, dnsTargets, Dns.Patcher), httpTargets, httpPatcher),
                   t3, netTargets, Net.Patcher);
    }
  }

  /**
   * One `fixTraces` call inside a larger snapshot: when the objects agreed
   * with `spec` before the call, they agree with the step applied to `spec`
   * after it.
   */
  lemma StepComposes(all: set<JsObject>, before: map<JsObject, map<string, Fn>>, pre: map<JsObject, map<string, Fn>>,
                     spec: map<JsObject, map<string, Fn>>, after: map<JsObject, map<string, Fn>>,
                     targets: seq<Target>, patcher: Patcher)
    requires Objects(targets) <= all && before.Keys == all && after.Keys == all && spec.Keys == all
    requires pre.Keys == Objects(targets) && forall o :: o in pre ==> pre[o] == before[o]
    requires forall o :: o in all ==> before[o] == spec[o]
    requires forall o :: o in Objects(targets) ==> after[o] == ApplyTargets(pre, targets, patcher)[o]
    requires forall o :: o in all && o !in Objects(targets) ==> after[o] == before[o]
    ensures forall o :: o in all ==> after[o] == ApplyTargets(spec, targets, patcher)[o]
  {
    ApplyTargetsLocal(pre, spec, targets, patcher);
  }

  /**
   * What calling a function does: a routing wrapper forwards the call as its
   * module decides (the dns wrapper with the corrected receiver, see
   * `Dns.ResolverCallLosesInstance`); a library or tracer function is
   * outside the model.
   */
  function Invoke(cfg: Config, f: Fn, args: seq<Arg>): (r: Option<Result<Call, string>>)
    ensures r.None? <==> f.code.Native?
    ensures f.code.DnsCheck? ==> r == Some(Success(Dns.Route(cfg, f.code.instrumented, f.code.original, args)))
    ensures f.code.NetCheck? ==> r == Some(Success(Net.Route(cfg, f.code.instrumented, f.code.original, args)))
    ensures f.code.HttpCheck? ==> r == Some(Http.Route(cfg, f.code.instrumented, f.code.original, args))
  {
    match f.code
    case Native(_) => None
    case DnsCheck(_, instrumented, original) => Some(Success(Dns.Route(cfg, instrumented, original, args)))
    case NetCheck(instrumented, original) => Some(Success(Net.Route(cfg, instrumented, original, args)))
    case HttpCheck(instrumented, original) => Some(Http.Route(cfg, instrumented, original, args))
  }

  /**
   * A dns method replaced by the fix sends a skipped host to the bottom of
   * the wrapping chain, bypassing every tracing layer, and any other host to
   * the method it replaced.
   */
  lemma ReplacedDnsMethodRoutes(cfg: Config, t: Target, name: string, instrumented: Fn, args: seq<Arg>)
    requires name in Dns.CheckedNames
    ensures Invoke(cfg, Replacement(t, name, instrumented, Dns.Patcher), args) ==
      Some(Success(Call(if ToSkip(cfg, JsString(ArgAt(args, 0))) then Origin(instrumented) else instrumented,
                        CallerThis, args)))
  {
  }

  /** The same for `net.get` and `net.request`, on a truthy skipped host only. */
  lemma ReplacedNetMethodRoutes(cfg: Config, t: Target, name: string, instrumented: Fn, args: seq<Arg>)
    ensures var host := Net.Host(args);
      Invoke(cfg, Replacement(t, name, instrumented, Net.Patcher), args) ==
      Some(Success(Call(if Truthy(host) && ToSkip(cfg, JsString(host)) then Origin(instrumented) else instrumented,
                        CallerThis, args)))
  {
  }

  /** The same for the `http`/`https` replacement, which throws on missing options. */
  lemma ReplacedHttpMethodRoutes(cfg: Config, t: Target, name: string, instrumented: Fn, args: seq<Arg>)
    ensures var r := Invoke(cfg, Replacement(t, name, instrumented, Http.Patcher), args);
      match Http.Url(args)
      case Failure(e) => r == Some(Failure(e))
      case Success(url) =>
        r == Some(Success(Call(if ToSkip(cfg, JsString(url)) then Origin(instrumented) else instrumented, CallerThis, args)))
  {
  }

  /**
   * Re-running the fix on a replaced method keeps routing skipped hosts to
   * the same bottom function: the chain is never lengthened.
   */
  lemma RefixKeepsBypassTarget(t: Target, name: string, instrumented: Fn)
    requires name in Dns.CheckedNames
    ensures var once := Replacement(t, name, instrumented, Dns.Patcher);
      var twice := Replacement(t, name, once, Dns.Patcher);
      twice.code.DnsCheck? && twice.code.original == once.code.original == Origin(instrumented)
  {
  }
}
