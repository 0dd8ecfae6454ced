/**
 * Manual tracing from `index.ts`: the named trace table behind `trace` /
 * `traceEnd`, and the parent fallback they share with `traced`.
 */
module ManualTracing {
  import opened Wrappers
  import opened Tracer

  /** Position `i` holds the last truthy entry of `spans`. */
  predicate LastTruthyAt(spans: seq<Span?>, i: int)
  {
    0 <= i < |spans| && spans[i] != null && forall j :: i < j < |spans| ==> spans[j] == null
  }

  /**
   * `scope.active() || spans[keys[keys.length - 1]]`: the active span when
   * there is one, otherwise the span under the last truthy key of `_spans`,
   * otherwise nothing (the new span is a root).
   */
  function FallbackParent(active: Span?, spans: seq<Span?>): (p: Span?)
    ensures active != null ==> p == active
    ensures p == null <==> active == null && forall i :: 0 <= i < |spans| ==> spans[i] == null
    ensures active == null ==> forall i :: LastTruthyAt(spans, i) ==> p == spans[i]
  {
    if active != null then active
    else
      var last := LastLive(spans);
      assert forall i :: LastTruthyAt(spans, i) ==> last == spans[i] by {
        forall i | LastTruthyAt(spans, i)
          ensures last == spans[i]
        {
          LastLiveIsLatest(spans, i);
        }
      }
      last
  }

  /** The `childOf` option of the new span: present only when a parent was found. */
  function ChildOf(parent: Span?): (childOf: Option<Parent>)
    ensures childOf.Some? <==> parent != null
    ensures parent != null ==> childOf.value == Live(parent)
  {
    if parent != null then Some(Live(parent)) else None
  }

  /** The error `trace` throws for a name that is already started. */
  datatype TraceError = TypeError(message: string)

  function AlreadyStarted(name: string): TraceError
  {
    TypeError("Trace with name " + name + " has been already started!")
  }

  /**
   * The names a plain object literal `{}` inherits from `Object.prototype`.
   * Every one of them reads as a truthy value on the `traces` table.
   */
  const ObjectPrototypeNames: set<string> := {
    "constructor", "hasOwnProperty", "isPrototypeOf", "propertyIsEnumerable",
    "toLocaleString", "toString", "valueOf", "__proto__",
    "__defineGetter__", "__defineSetter__", "__lookupGetter__", "__lookupSetter__"
  }

  /**
   * The guard `traces[name]` of `trace` as written: `traces` is a plain
   * object, so an inherited property counts as a started trace.
   */
  function StartedAsWritten(traces: map<string, Span>, name: string): (started: bool)
    ensures name in traces ==> started
    ensures name in ObjectPrototypeNames ==> started
    ensures started ==> name in traces || name in ObjectPrototypeNames
  {
    name in traces || name in ObjectPrototypeNames
  }

  /**
   * As written, `trace("toString")` on an empty table throws "already
   * started", although no trace of that name was ever started; the model's
   * `Registry.Trace` keys the guard on started names only.
   */
  lemma InheritedNameRejected()
    ensures var empty: map<string, Span> := map[];
      "toString" !in empty && StartedAsWritten(empty, "toString")
  {
  }

  /** The process-wide table of named, open spans. */
  class Registry {
    var traces: map<string, Span>

    constructor ()
      ensures traces == map[]
    {
      traces := map[];
    }

    /**
     * `trace(name, tags?)`: a started name is an error that leaves the table
     * as it was; otherwise a new span named `name` under the fallback parent,
     * with the given tags (none when not given), is stored under `name` and
     * no other entry changes.
     */
    method Trace(name: string, tags: Option<Tags>, scope: Scope, id: string) returns (r: Result<Span, TraceError>)
      modifies this
      ensures name in old(traces) ==> r == Failure(AlreadyStarted(name)) && traces == old(traces)
      ensures name !in old(traces) ==>
        && r.Success? && fresh(r.value)
        && traces == old(traces)[name := r.value]
        && r.value.name == name && r.value.spanId == id && r.value.finished == 0
        && r.value.tags == tags.GetOr(map[])
      ensures name !in old(traces) ==>
        var parent := FallbackParent(old(scope.active), old(scope.spans));
        if parent == null then r.value.parentId == "" && r.value.traceId == id
        else r.value.parentId == parent.spanId && r.value.traceId == parent.traceId
    {
      if name in traces {
        return Failure(AlreadyStarted(name));
      }
      var childOf := ChildOf(FallbackParent(scope.active, scope.spans));
      var span := StartSpan(name, SpanOptions(childOf, tags), id);
      traces := traces[name := span];
      r := Success(span);
    }

    /**
     * `traceEnd(name)`: a started span is finished once and its entry
     * removed; an unknown name changes nothing, so a second `traceEnd` of the
     * same name is a no-op.
     */
    method TraceEnd(name: string)
      modifies this, if name in traces then {traces[name]} else {}
      ensures traces == old(traces) - {name}
      ensures name in old(traces) ==> old(traces)[name].finished == old(traces[name].finished) + 1
      ensures name in old(traces) ==>
        var span := old(traces)[name];
        span.traceId == old(span.traceId) && span.parentId == old(span.parentId) && span.tags == old(span.tags)
    {
      if name in traces {
        var span := traces[name];
        span.Finish();
        traces := traces - {name};
      }
    }
  }

  /**
   * `trace` twice without `traceEnd` fails the second time with the table
   * unchanged; `traceEnd` twice closes the span exactly once and leaves the
   * table as it was before the first `trace`.
   */
  method NoDoubleStartNoDoubleEnd(registry: Registry, name: string, scope: Scope, id1: string, id2: string)
    returns (span: Span, second: Result<Span, TraceError>)
    requires name !in registry.traces
    modifies registry
    ensures fresh(span) && span.name == name && span.finished == 1
    ensures second == Failure(AlreadyStarted(name))
    ensures registry.traces == old(registry.traces)
  {
    var first := registry.Trace(name, None, scope, id1);
    span := first.value;
    second := registry.Trace(name, None, scope, id2);
    registry.TraceEnd(name);
    registry.TraceEnd(name);
  }
}
