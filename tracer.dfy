/**
 * The slice of dd-trace that the integration talks to: spans, their identity,
 * span creation and the tracer scope (the active span and the `_spans` table).
 * Span storage, sampling, the carrier wire format and the activation machinery
 * belong to dd-trace and are abstracted here.
 */
module Tracer {
  import opened Wrappers

  type Tags = map<string, string>

  /** A text-map carrier: what `inject` writes and `extract` reads. */
  type Carrier = map<string, string>

  /** The identity a span propagates; "" stands for an id that is not set. */
  datatype SpanContext = SpanContext(traceId: string, spanId: string)

  /**
   * A dd-trace span. Its name and own id never change; its recorded trace and
   * parent ids can be rewritten in place, and `finished` counts `finish()` calls.
   */
  class Span {
    const name: string
    const spanId: string
    var traceId: string
    var parentId: string
    var tags: Tags
    var finished: nat

    constructor (name: string, spanId: string, traceId: string, parentId: string, tags: Tags)
      ensures this.name == name && this.spanId == spanId
      ensures this.traceId == traceId && this.parentId == parentId
      ensures this.tags == tags && finished == 0
    {
      this.name := name;
      this.spanId := spanId;
      this.traceId := traceId;
      this.parentId := parentId;
      this.tags := tags;
      finished := 0;
    }

    function Context(): (ctx: SpanContext)
      reads this
      ensures ctx.spanId == spanId && ctx.traceId == traceId
    {
      SpanContext(traceId, spanId)
    }

    /** `span.finish()`: one more close event, identity and tags untouched. */
    method Finish()
      modifies this
      ensures finished == old(finished) + 1
      ensures traceId == old(traceId) && parentId == old(parentId) && tags == old(tags)
    {
      finished := finished + 1;
    }

    /** `span.setTag(key, value)`. */
    method SetTag(key: string, value: string)
      modifies this
      ensures tags == old(tags)[key := value]
      ensures traceId == old(traceId) && parentId == old(parentId) && finished == old(finished)
    {
      tags := tags[key := value];
    }
  }

  /**
   * What can be passed as `childOf`: a context produced by `extract`, or a
   * live span object taken from the tracer scope.
   */
  datatype Parent = Extracted(ctx: SpanContext) | Live(span: Span)

  /**
   * The `_spanId` property read directly off a `childOf` value. An extracted
   * context carries it; a live span object keeps its ids inside its own span
   * context and has no such property, so the read yields nothing ("").
   */
  function OwnSpanId(p: Parent): (id: string)
    ensures p.Live? ==> id == ""
    ensures p.Extracted? ==> id == p.ctx.spanId
  {
    match p
    case Extracted(ctx) => ctx.spanId
    case Live(_) => ""
  }

  /** The `_traceId` property read directly off a `childOf` value (see `OwnSpanId`). */
  function OwnTraceId(p: Parent): (id: string)
    ensures p.Live? ==> id == ""
    ensures p.Extracted? ==> id == p.ctx.traceId
  {
    match p
    case Extracted(ctx) => ctx.traceId
    case Live(_) => ""
  }

  /** The identity a new child of `p` inherits. */
  function ParentContext(p: Parent): (ctx: SpanContext)
    reads if p.Live? then {p.span} else {}
    ensures p.Live? ==> ctx == SpanContext(p.span.traceId, p.span.spanId)
    ensures p.Extracted? ==> ctx == p.ctx
  {
    match p
    case Extracted(c) => c
    case Live(s) => s.Context()
  }

  /** The options object given to `tracer.startSpan`; absent keys are `None`. */
  datatype SpanOptions = SpanOptions(childOf: Option<Parent>, tags: Option<Tags>)

  /**
   * `tracer.startSpan(name, options)`: a fresh open span. A child inherits the
   * trace id of its parent and records the parent's span id; a span started
   * without `childOf` is a trace root whose trace id is its own id. The new
   * span id is a parameter because dd-trace draws it at random.
   */
  method StartSpan(name: string, options: SpanOptions, id: string) returns (s: Span)
    ensures fresh(s)
    ensures s.name == name && s.spanId == id && s.finished == 0
    ensures s.tags == options.tags.GetOr(map[])
    ensures options.childOf.None? ==> s.parentId == "" && s.traceId == id
    ensures options.childOf.Some? ==>
      s.parentId == ParentContext(options.childOf.value).spanId &&
      s.traceId == ParentContext(options.childOf.value).traceId
  {
    var tags := options.tags.GetOr(map[]);
    match options.childOf
    case None =>
      s := new Span(name, id, id, "", tags);
    case Some(p) =>
      var ctx := ParentContext(p);
      s := new Span(name, id, ctx.traceId, ctx.spanId, tags);
  }

  /**
   * `tracer.scope()`: the active span and the `_spans` table, listed in key
   * order, with `null` for entries whose value is falsy.
   */
  class Scope {
    var active: Span?
    var spans: seq<Span?>

    constructor (active: Span?, spans: seq<Span?>)
      ensures this.active == active && this.spans == spans
    {
      this.active := active;
      this.spans := spans;
    }
  }

  /**
   * `Object.keys(spans).filter(key => spans[key])`: the positions of the
   * truthy entries, in ascending order.
   */
  function LiveKeys(spans: seq<Span?>): (keys: seq<nat>)
    ensures forall j :: 0 <= j < |keys| ==> keys[j] < |spans| && spans[keys[j]] != null
    ensures forall i :: 0 <= i < |spans| && spans[i] != null ==> i in keys
    ensures forall j, k :: 0 <= j < k < |keys| ==> keys[j] < keys[k]
  {
    if |spans| == 0 then []
    else
      var front := LiveKeys(spans[..|spans| - 1]);
      if spans[|spans| - 1] != null then front + [|spans| - 1] else front
  }

  /** `spans[keys[keys.length - 1]]`: the entry under the last truthy key, if any. */
  function LastLive(spans: seq<Span?>): (s: Span?)
    ensures s == null <==> forall i :: 0 <= i < |spans| ==> spans[i] == null
  {
    var keys := LiveKeys(spans);
    if |keys| == 0 then null else spans[keys[|keys| - 1]]
  }

  /** The last truthy entry is the one after which every entry is falsy. */
  lemma {:induction false} LastLiveIsLatest(spans: seq<Span?>, i: nat)
    requires i < |spans| && spans[i] != null
    requires forall j :: i < j < |spans| ==> spans[j] == null
    ensures LastLive(spans) == spans[i]
  {
    assert i in LiveKeys(spans);
  }
}
