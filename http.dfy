/** The http/https re-patch (`src/http.ts`). */
module Http {
  import opened Wrappers
  import opened SelfTrace

  const MethodNames: seq<string> := ["get", "request"]

  /** `libs` x `methodNames`: `get` and `request` of `http`, then of `https`. */
  function Targets(http: JsObject, https: JsObject): (targets: seq<Target>)
    ensures targets == [Target(http, MethodNames), Target(https, MethodNames)]
  {
    [Target(http, MethodNames), Target(https, MethodNames)]
  }

  /** The error JavaScript raises when reading a property of `undefined` or `null`. */
  const PropertyOfNothing := "TypeError: Cannot read properties of undefined or null"

  /**
   * The `url` the replacement tests: the first argument when it is a string;
   * otherwise that argument is the options and the url is its truthy
   * `hostname`, else its `host`. Options that are `undefined` or `null`
   * make the property read throw.
   */
  function Url(args: seq<Arg>): (url: Result<Arg, string>)
    ensures ArgAt(args, 0).Str? ==> url == Success(ArgAt(args, 0))
    ensures ArgAt(args, 0).Obj? ==>
      url == Success(if Truthy(PropertyValue(ArgAt(args, 0).hostname)) then PropertyValue(ArgAt(args, 0).hostname)
                     else PropertyValue(ArgAt(args, 0).host))
    ensures url.Failure? <==> ArgAt(args, 0).Null? || ArgAt(args, 0).Undefined?
    ensures ArgAt(args, 0).Num? || ArgAt(args, 0).Callback? ==> url == Success(Undefined)
  {
    match ArgAt(args, 0)
    case Str(_) => Success(ArgAt(args, 0))
    case Obj(host, hostname) =>
      var h := PropertyValue(hostname);
      Success(if Truthy(h) then h else PropertyValue(host))
    case Num(_) => Success(Undefined)
    case Callback(_) => Success(Undefined)
    case Null => Failure(PropertyOfNothing)
    case Undefined => Failure(PropertyOfNothing)
  }

  /**
   * The replacement installed over `lib[methodName]`: `original` for a url to
   * skip, the traced method otherwise, with unchanged arguments and the
   * wrapper's own `this`; the property read of missing options throws.
   */
  function Route(cfg: Config, traced: Fn, original: Fn, args: seq<Arg>): (call: Result<Call, string>)
    ensures Url(args).Failure? ==> call == Failure(PropertyOfNothing)
    ensures Url(args).Success? ==> call.Success? && call.value.args == args && call.value.receiver == CallerThis
    ensures Url(args).Success? ==>
      call.value.callee == if ToSkip(cfg, JsString(Url(args).value)) then original else traced
  {
    match Url(args)
    case Failure(e) => Failure(e)
    case Success(url) =>
      if ToSkip(cfg, JsString(url)) then Success(Call(original, CallerThis, args))
      else Success(Call(traced, CallerThis, args))
  }

  /** The replacement function, before `fixTraces` sets its properties. */
  function Patcher(target: Target, methodName: string, traced: Fn, original: Fn): (f: Fn)
    ensures f == NewFunction(HttpCheck(traced, original))
  {
    NewFunction(HttpCheck(traced, original))
  }

  /**
   * `fixTraces()` of `src/http.ts`: the table rewrite over `http` and `https`
   * with the replacement above; a no-op unless self traces are disabled.
   */
  method FixTraces(cfg: Config, http: JsObject, https: JsObject)
    modifies http, https
    ensures cfg.disableSelfTraces == 0 ==> http.props == old(http.props) && https.props == old(https.props)
    ensures cfg.disableSelfTraces != 0 ==>
      var after := ApplyTargets(old(Tables({http, https})), Targets(http, https), Patcher);
      http.props == after[http] && https.props == after[https]
  {
    var targets := Targets(http, https);
    assert Objects(targets) == {http, https} by {
      assert targets[0].owner == http && targets[1].owner == https;
    }
    SelfTrace.FixTraces(cfg, targets, Patcher);
  }

  /** A url the agent or SaaS check skips goes straight to the original method. */
  lemma SkippedUrlIsUntraced(cfg: Config, traced: Fn, original: Fn, args: seq<Arg>)
    requires Url(args).Success? && ToSkip(cfg, JsString(Url(args).value))
    ensures Route(cfg, traced, original, args) == Success(Call(original, CallerThis, args))
  {
  }

  /** An undefined url renders as "undefined", which an unset agent host matches: such calls are not traced. */
  lemma UndefinedUrlSkippedWhenAgentUnset(cfg: Config, traced: Fn, original: Fn, args: seq<Arg>)
    requires cfg.agentHostname.None?
    requires Url(args) == Success(Undefined)
    ensures Route(cfg, traced, original, args) == Success(Call(original, CallerThis, args))
  {
    UnsetAgentHostSkipsUndefined(cfg, Url(args).value);
    SkippedUrlIsUntraced(cfg, traced, original, args);
  }
}
