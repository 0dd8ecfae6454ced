/**
 * The `traced` method decorator from `index.ts`: options merging, the span's
 * tags, and how the wrapper closes the span for each way the wrapped method
 * can end, passing the outcome through unchanged.
 */
module Traced {
  import opened Wrappers
  import opened Tracer
  import opened ManualTracing

  const MethodCallSpanName := "method.call"
  const ErrorTag := "error"

  /** `TraceKind`. */
  datatype TraceKind = Server | Client

  function KindValue(kind: TraceKind): string
  {
    match kind
    case Server => "server"
    case Client => "client"
  }

  /** `TracedOptions` after merging. */
  datatype TracedOptions = TracedOptions(kind: TraceKind, tags: Option<Tags>)

  /** `Partial<TracedOptions>` as passed by the user; absent keys are `None`. */
  datatype PartialOptions = PartialOptions(kind: Option<TraceKind>, tags: Option<Tags>)

  /** `DEFAULT_TRACED_OPTIONS`. */
  const DefaultTracedOptions := TracedOptions(Server, None)

  /** `Object.assign({}, DEFAULT_TRACED_OPTIONS, options || {})`. */
  function MergeOptions(options: Option<PartialOptions>): (opts: TracedOptions)
    ensures options.None? ==> opts == DefaultTracedOptions
    ensures options.Some? ==> opts.tags == options.value.tags
    ensures options.Some? && options.value.kind.Some? ==> opts.kind == options.value.kind.value
    ensures options.Some? && options.value.kind.None? ==> opts.kind == Server
  {
    match options
    case None => DefaultTracedOptions
    case Some(o) => TracedOptions(o.kind.GetOr(DefaultTracedOptions.kind), o.tags)
  }

  /**
   * The tags of a traced call: the defaults (kind, `Class.method` resource,
   * `package.name` only for a non-empty package name, the `imq` component),
   * then the user's tags on top.
   */
  function TracedTags(opts: TracedOptions, className: string, methodName: string, pkgName: string): (tags: Tags)
    ensures opts.tags.Some? ==> forall k :: k in opts.tags.value ==> k in tags && tags[k] == opts.tags.value[k]
    ensures var user := opts.tags.GetOr(map[]);
      && ("span.kind" !in user ==> "span.kind" in tags && tags["span.kind"] == KindValue(opts.kind))
      && ("resource.name" !in user ==> "resource.name" in tags && tags["resource.name"] == className + "." + methodName)
      && ("component" !in user ==> "component" in tags && tags["component"] == "imq")
      && ("package.name" !in user ==> ("package.name" in tags <==> pkgName != ""))
      && ("package.name" !in user && pkgName != "" ==> tags["package.name"] == pkgName)
    ensures var user := opts.tags.GetOr(map[]);
      tags.Keys == user.Keys + {"span.kind", "resource.name", "component"} +
        (if pkgName != "" then {"package.name"} else {})
  {
    var defaults := map["span.kind" := KindValue(opts.kind),
                        "resource.name" := className + "." + methodName,
                        "component" := "imq"];
    var withPackage := if pkgName != "" then defaults["package.name" := pkgName] else defaults;
    withPackage + opts.tags.GetOr(map[])
  }

  /** A value a method can return; `Undefined` is what a missing method yields. */
  datatype Value = Undefined | Val(payload: string)

  /** How a deferred result (a thenable) eventually settles. */
  datatype Settlement = Resolves(value: Value) | Rejects(error: string)

  /** How a call of the wrapped method ends: a plain value, a throw, or a thenable. */
  datatype Outcome = Returned(value: Value) | Threw(error: string) | Deferred(settlement: Settlement)

  predicate Failed(outcome: Outcome)
  {
    outcome.Threw? || (outcome.Deferred? && outcome.settlement.Rejects?)
  }

  function ErrorOf(outcome: Outcome): string
    requires Failed(outcome)
  {
    if outcome.Threw? then outcome.error else outcome.settlement.error
  }

  /**
   * `handleError(span, err)`: tag the span with the error, close it, and throw
   * the same error on.
   */
  method HandleError(span: Span, err: string) returns (rethrown: Outcome)
    modifies span
    ensures rethrown == Threw(err)
    ensures span.tags == old(span.tags)[ErrorTag := err]
    ensures span.finished == old(span.finished) + 1
    ensures span.traceId == old(span.traceId) && span.parentId == old(span.parentId)
  {
    span.SetTag(ErrorTag, err);
    span.Finish();
    rethrown := Threw(err);
  }

  /**
   * The wrapper's handling of the call's outcome (the deferred case taken as
   * settled): the span is finished exactly once, tagged with the error
   * exactly when the call failed, and the caller sees the same outcome.
   */
  method Settle(span: Span, outcome: Outcome) returns (seen: Outcome)
    modifies span
    ensures seen == outcome
    ensures span.finished == old(span.finished) + 1
    ensures span.tags == if Failed(outcome) then old(span.tags)[ErrorTag := ErrorOf(outcome)] else old(span.tags)
    ensures span.traceId == old(span.traceId) && span.parentId == old(span.parentId)
  {
    match outcome
    case Returned(v) =>
      span.Finish();
      seen := outcome;
    case Threw(err) =>
      seen := HandleError(span, err);
    case Deferred(Resolves(v)) =>
      span.Finish();
      seen := outcome;
    case Deferred(Rejects(err)) =>
      var rejected := HandleError(span, err);
      seen := Deferred(Rejects(err));
  }

  /**
   * One call of a `traced` method: a `method.call` span with the traced tags
   * under the fallback parent, the original method run (a missing one yields
   * `undefined`), and its outcome settled through the span. `original` is how
   * the wrapped method ends, `id` the id dd-trace draws.
   */
  method TracedCall(options: Option<PartialOptions>, className: string, methodName: string, pkgName: string,
                    scope: Scope, original: Option<Outcome>, id: string)
    returns (span: Span, seen: Outcome)
    ensures fresh(span)
    ensures span.name == MethodCallSpanName && span.spanId == id && span.finished == 1
    ensures var tags := TracedTags(MergeOptions(options), className, methodName, pkgName);
      var outcome := original.GetOr(Returned(Undefined));
      && seen == outcome
      && span.tags == if Failed(outcome) then tags[ErrorTag := ErrorOf(outcome)] else tags
    ensures var parent := FallbackParent(scope.active, scope.spans);
      if parent == null then span.parentId == "" && span.traceId == id
      else span.parentId == parent.spanId && span.traceId == parent.traceId
  {
    var opts := MergeOptions(options);
    var tags := TracedTags(opts, className, methodName, pkgName);
    var childOf := ChildOf(FallbackParent(scope.active, scope.spans));
    span := StartSpan(MethodCallSpanName, SpanOptions(childOf, Some(tags)), id);
    var outcome := original.GetOr(Returned(Undefined));
    seen := Settle(span, outcome);
  }
}
