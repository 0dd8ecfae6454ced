/**
 * The client-side `beforeCall` hook: open `imq.request` under the active
 * span, write its carrier into the outgoing metadata, attach it to the
 * request and activate it.
 */
module Client {
  import opened Wrappers
  import opened Tracer
  import opened Envelope
  import Server

  const RequestSpanName := "imq.request"

  /**
   * `req.metadata = req.metadata || {}` followed by a fresh `clientSpan`:
   * an existing metadata object keeps its other fields; a missing one is
   * created empty; the carrier is always replaced.
   */
  function OutgoingMetadata(metadata: Option<Metadata>, carrier: Carrier): (m: Metadata)
    ensures m.clientSpan == Some(carrier)
    ensures metadata.Some? ==> m.fields == metadata.value.fields
    ensures metadata.None? ==> m.fields == map[]
  {
    match metadata
    case Some(existing) => existing.(clientSpan := Some(carrier))
    case None => Metadata(Some(carrier), map[])
  }

  /**
   * `beforeCall` of the client. `inject` is dd-trace's carrier encoder, `id`
   * the id dd-trace draws for the new span, and `activateThrows` whether
   * `scope().activate` throws. Activation is one step: on success the new
   * span becomes the active span; either way the returned promise resolves.
   */
  method BeforeCall(serviceName: string, req: Request, scope: Scope,
                    inject: SpanContext -> Carrier, id: string, activateThrows: bool)
    returns (resolved: bool)
    modifies req, scope
    ensures resolved
    ensures req.hasToJSON && req.Serialized().span.None?
    ensures req.span != null && fresh(req.span)
    ensures req.span.name == RequestSpanName && req.span.spanId == id && req.span.finished == 0
    ensures req.span.tags == CallTags(ClientCall, serviceName, req.methodName, req.from)
    // the parent is the active span only; without one the span is a root
    ensures old(scope.active) == null ==> req.span.parentId == "" && req.span.traceId == id
    ensures old(scope.active) != null ==>
      req.span.parentId == old(scope.active.spanId) && req.span.traceId == old(scope.active.traceId)
    ensures req.metadata == Some(OutgoingMetadata(old(req.metadata), inject(req.span.Context())))
    ensures scope.spans == old(scope.spans)
    ensures scope.active == if activateThrows then old(scope.active) else req.span
  {
    req.hasToJSON := true;

    var active := scope.active;
    var childOf := if active != null then Some(Live(active)) else None;
    var span := StartSpan(RequestSpanName,
      SpanOptions(childOf, Some(CallTags(ClientCall, serviceName, req.methodName, req.from))), id);

    var carrier := inject(span.Context());
    req.metadata := Some(OutgoingMetadata(req.metadata, carrier));
    req.span := span;

    if !activateThrows {
      scope.active := span;
    }
    resolved := true;
  }

  /**
   * The round trip through both hooks, given dd-trace's promise that
   * `extract(inject(ctx)) == ctx`: the server sees the client span's identity
   * in the carrier, so its candidate parent is the client span's context
   * whatever redis span is open.
   */
  lemma CarrierNamesClientSpan(m: Metadata, inject: SpanContext -> Carrier,
                               extract: Carrier -> Option<SpanContext>, ctx: SpanContext, existing: Option<Metadata>,
                               redis: Span?)
    requires m == OutgoingMetadata(existing, inject(ctx))
    requires forall c :: extract(inject(c)) == Some(c)
    ensures ClientSpanMeta(Some(m)).Some?
    ensures extract(ClientSpanMeta(Some(m)).value) == Some(ctx)
    ensures Server.CandidateParent(ClientSpanMeta(Some(m)), redis, extract) == Some(Extracted(ctx))
  {
  }
}
