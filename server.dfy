/**
 * The server-side `beforeCall` hook: reconstruct the parent of the handling
 * span from the request's carrier or from an open `redis.command` span,
 * splice that redis span under the caller's span, and open `imq.response`.
 */
module Server {
  import opened Wrappers
  import opened Tracer
  import opened Envelope

  const RedisCommand := "redis.command"
  const ResponseSpanName := "imq.response"

  /** A truthy `_spans` entry whose span is named `redis.command`. */
  predicate IsRedis(s: Span?)
  {
    s != null && s.name == RedisCommand
  }

  /** The first position at or after `lo` holding a redis command span. */
  function RedisIndexFrom(spans: seq<Span?>, lo: nat): (r: Option<nat>)
    requires lo <= |spans|
    decreases |spans| - lo
    ensures r.Some? ==> lo <= r.value < |spans| && IsRedis(spans[r.value])
    ensures r.Some? ==> forall j :: lo <= j < r.value ==> !IsRedis(spans[j])
    ensures r.None? ==> forall j :: lo <= j < |spans| ==> !IsRedis(spans[j])
  {
    if lo == |spans| then None
    else if IsRedis(spans[lo]) then Some(lo)
    else RedisIndexFrom(spans, lo + 1)
  }

  /**
   * The span `getRedisSpan` returns. Its backward scan has no `break`, so
   * every match overwrites the previous one and the result is the redis span
   * under the LOWEST key, not the most recent one.
   */
  function RedisSpan(spans: seq<Span?>): (redis: Span?)
    ensures redis == null <==> forall j :: 0 <= j < |spans| ==> !IsRedis(spans[j])
    ensures redis != null ==> exists i :: 0 <= i < |spans| && spans[i] == redis && IsRedis(redis) &&
                                          forall j :: 0 <= j < i ==> !IsRedis(spans[j])
  {
    match RedisIndexFrom(spans, 0)
    case None => null
    case Some(i) => spans[i]
  }

  /** Falsy entries between `lo` and `hi` do not change where the first redis span is. */
  lemma {:induction false} RedisIndexSkipsFalsy(spans: seq<Span?>, lo: nat, hi: nat)
    requires lo <= hi <= |spans|
    requires forall j :: lo <= j < hi ==> spans[j] == null
    ensures RedisIndexFrom(spans, lo) == RedisIndexFrom(spans, hi)
    decreases hi - lo
  {
    if lo < hi {
      RedisIndexSkipsFalsy(spans, lo + 1, hi);
    }
  }

  /** `getRedisSpan()`: the backward scan over the truthy keys of `_spans`. */
  method GetRedisSpan(spans: seq<Span?>) returns (redis: Span?)
    ensures redis == RedisSpan(spans)
    ensures redis != null ==> IsRedis(redis) && redis in spans
  {
    var keys := LiveKeys(spans);
    redis := null;
    var i := |keys| - 1;
    while i >= 0
      invariant -1 <= i < |keys|
      invariant var bound := if i + 1 < |keys| then keys[i + 1] else |spans|;
        redis == match RedisIndexFrom(spans, bound) case None => null case Some(k) => spans[k]
    {
      var key := keys[i];
      var bound := if i + 1 < |keys| then keys[i + 1] else |spans|;
      forall j | key < j < bound
        ensures spans[j] == null
      {
      }
      RedisIndexSkipsFalsy(spans, key + 1, bound);
      var span := spans[key];
      if span.name == RedisCommand {
        redis := span;
      }
      i := i - 1;
    }
    var start := if 0 < |keys| then keys[0] else |spans|;
    forall j | 0 <= j < start
      ensures spans[j] == null
    {
    }
    RedisIndexSkipsFalsy(spans, 0, start);
  }

  /**
   * The first `childOf`: the context extracted from `metadata.clientSpan`
   * when a carrier was sent (nothing when extraction fails), otherwise the
   * located redis span (nothing when there is none).
   */
  function CandidateParent(clientSpan: Option<Carrier>, redis: Span?, extract: Carrier -> Option<SpanContext>)
    : (childOf: Option<Parent>)
    ensures clientSpan.Some? ==>
      childOf == (if extract(clientSpan.value).Some? then Some(Extracted(extract(clientSpan.value).value)) else None)
    ensures clientSpan.None? ==> (childOf.Some? <==> redis != null)
    ensures clientSpan.None? && redis != null ==> childOf == Some(Live(redis))
  {
    if clientSpan.Some? then
      match extract(clientSpan.value)
      case Some(ctx) => Some(Extracted(ctx))
      case None => None
    else if redis != null then Some(Live(redis))
    else None
  }

  /**
   * The reparenting guard: a redis span exists, `childOf` is set, has a
   * truthy `_spanId`, and is not the redis span itself.
   */
  predicate Reparents(redis: Span?, childOf: Option<Parent>)
  {
    redis != null && childOf.Some? && OwnSpanId(childOf.value) != "" && childOf.value != Live(redis)
  }

  /**
   * Reparenting happens exactly when a carrier was sent, it extracts to a
   * context with a span id, and a redis span is open; without a carrier the
   * candidate parent is the redis span itself and nothing is rewritten.
   */
  lemma ReparentsIffCarrier(clientSpan: Option<Carrier>, redis: Span?, extract: Carrier -> Option<SpanContext>)
    ensures Reparents(redis, CandidateParent(clientSpan, redis, extract)) <==>
      redis != null && clientSpan.Some? && extract(clientSpan.value).Some? &&
      extract(clientSpan.value).value.spanId != ""
    ensures clientSpan.None? ==> !Reparents(redis, CandidateParent(clientSpan, redis, extract))
  {
    var childOf := CandidateParent(clientSpan, redis, extract);
    if clientSpan.None? && redis != null {
      assert childOf == Some(Live(redis));
      assert OwnSpanId(childOf.value) == "";
    }
  }

  /**
   * The `childOf` of `imq.response`: the finished redis span after a rewrite
   * whose `finish()` did not throw, otherwise the candidate parent.
   */
  function FinalParent(clientSpan: Option<Carrier>, redis: Span?, extract: Carrier -> Option<SpanContext>,
                       finishThrows: bool): (childOf: Option<Parent>)
    ensures Reparents(redis, CandidateParent(clientSpan, redis, extract)) && !finishThrows ==>
      childOf == Some(Live(redis))
    ensures !(Reparents(redis, CandidateParent(clientSpan, redis, extract)) && !finishThrows) ==>
      childOf == CandidateParent(clientSpan, redis, extract)
  {
    var candidate := CandidateParent(clientSpan, redis, extract);
    if Reparents(redis, candidate) && !finishThrows then Some(Live(redis)) else candidate
  }

  /**
   * `beforeCall` of the service. `extract` is dd-trace's carrier decoder;
   * `id` is the id dd-trace draws for the new span; `finishThrows` says
   * whether the redis span's `finish()` throws (the hook swallows that).
   */
  method BeforeCall(serviceName: string, req: Request, spans: seq<Span?>,
                    extract: Carrier -> Option<SpanContext>, id: string, finishThrows: bool)
    modifies req, RedisSpan(spans)
    ensures req.hasToJSON && req.Serialized().span.None?
    ensures req.metadata == old(req.metadata)
    ensures req.span != null && fresh(req.span)
    ensures req.span.name == ResponseSpanName && req.span.spanId == id && req.span.finished == 0
    ensures req.span.tags == CallTags(ServerCall, serviceName, req.methodName, req.from)
    // the redis span: rewritten and closed only under the reparenting guard
    ensures var redis := RedisSpan(spans);
      var candidate := CandidateParent(ClientSpanMeta(old(req.metadata)), redis, extract);
      redis != null ==>
        if Reparents(redis, candidate) then
          redis.parentId == OwnSpanId(candidate.value) && redis.traceId == OwnTraceId(candidate.value) &&
          redis.finished == old(redis.finished) + (if finishThrows then 0 else 1) && redis.tags == old(redis.tags)
        else
          redis.parentId == old(redis.parentId) && redis.traceId == old(redis.traceId) &&
          redis.finished == old(redis.finished) && redis.tags == old(redis.tags)
    // the handling span: a child of the final parent, or a root
    ensures var childOf := FinalParent(ClientSpanMeta(old(req.metadata)), RedisSpan(spans), extract, finishThrows);
      if childOf.Some? then
        req.span.parentId == ParentContext(childOf.value).spanId &&
        req.span.traceId == ParentContext(childOf.value).traceId
      else
        req.span.parentId == "" && req.span.traceId == id
  {
    req.hasToJSON := true;

    var clientSpanMeta := ClientSpanMeta(req.metadata);
    var redis := GetRedisSpan(spans);

    var childOf: Option<Parent>;
    if clientSpanMeta.Some? {
      var ctx := extract(clientSpanMeta.value);
      childOf := if ctx.Some? then Some(Extracted(ctx.value)) else None;
    } else {
      childOf := if redis != null then Some(Live(redis)) else None;
    }

    if redis != null && childOf.Some? && OwnSpanId(childOf.value) != "" && childOf.value != Live(redis) {
      redis.parentId := OwnSpanId(childOf.value);
      redis.traceId := OwnTraceId(childOf.value);
      if !finishThrows {
        redis.Finish();
        childOf := Some(Live(redis));
      }
    }

    var span := StartSpan(ResponseSpanName,
      SpanOptions(childOf, Some(CallTags(ServerCall, serviceName, req.methodName, req.from))), id);
    req.span := span;
  }

  /**
   * The chain `client -> redis.command -> imq.response`: after a reparenting
   * whose `finish()` succeeded, the response span is the redis span's child,
   * the redis span is the child of the sender's span, and all three share the
   * sender's trace id.
   */
  method BeforeCallSplicesRedis(serviceName: string, req: Request, spans: seq<Span?>,
                                extract: Carrier -> Option<SpanContext>, id: string)
    requires RedisSpan(spans) != null
    requires ClientSpanMeta(req.metadata).Some?
    requires extract(ClientSpanMeta(req.metadata).value).Some?
    requires extract(ClientSpanMeta(req.metadata).value).value.spanId != ""
    modifies req, RedisSpan(spans)
    ensures var sender := extract(ClientSpanMeta(old(req.metadata)).value).value;
      var redis := RedisSpan(spans);
      && redis.parentId == sender.spanId && redis.traceId == sender.traceId
      && redis.finished == old(redis.finished) + 1
      && req.span != null && req.span.parentId == redis.spanId && req.span.traceId == sender.traceId
  {
    ReparentsIffCarrier(ClientSpanMeta(req.metadata), RedisSpan(spans), extract);
    BeforeCall(serviceName, req, spans, extract, id, false);
  }
}
