/**
 * The RPC request envelope as the imq hooks see it, the tag set both hooks
 * give their spans, and the parts of the two hook pairs that are identical on
 * the client and the server side.
 */
module Envelope {
  import opened Wrappers
  import opened Tracer

  /** `req.metadata`: the carrier under `clientSpan`, and every other field. */
  datatype Metadata = Metadata(clientSpan: Option<Carrier>, fields: map<string, string>)

  /** A plain copy of the request's own properties; a property that is absent is `None`. */
  datatype RequestView = RequestView(methodName: string, from: string, metadata: Option<Metadata>, span: Option<Span>)

  /** An `IMQRPCRequest`, with the properties the hooks add to it. */
  class Request {
    const methodName: string
    const from: string
    var metadata: Option<Metadata>
    var span: Span?
    var hasToJSON: bool

    constructor (methodName: string, from: string, metadata: Option<Metadata>)
      ensures this.methodName == methodName && this.from == from && this.metadata == metadata
      ensures span == null && !hasToJSON
    {
      this.methodName := methodName;
      this.from := from;
      this.metadata := metadata;
      span := null;
      hasToJSON := false;
    }

    /** `Object.assign({}, req)`: the request's own properties. */
    function Properties(): (view: RequestView)
      reads this
      ensures view.span.Some? <==> span != null
    {
      RequestView(methodName, from, metadata, if span == null then None else Some(span))
    }

    /**
     * What the envelope serializes to: once a hook has installed `toJSON`, the
     * copy of `Properties()` with `span` deleted; before that, every property.
     */
    function Serialized(): (view: RequestView)
      reads this
      ensures hasToJSON ==> view.span.None?
      ensures view.methodName == methodName && view.from == from && view.metadata == metadata
      ensures !hasToJSON ==> view == Properties()
    {
      var copy := Properties();
      if hasToJSON then copy.(span := None) else copy
    }
  }

  /** `(req.metadata || { clientSpan: null }).clientSpan`. */
  function ClientSpanMeta(metadata: Option<Metadata>): (carrier: Option<Carrier>)
    ensures carrier.Some? <==> metadata.Some? && metadata.value.clientSpan.Some?
    ensures carrier.Some? ==> carrier == metadata.value.clientSpan
  {
    match metadata
    case None => None
    case Some(m) => m.clientSpan
  }

  /** The `span.kind` value of a hook's span. */
  datatype CallKind = ClientCall | ServerCall

  function KindName(kind: CallKind): string
  {
    match kind
    case ClientCall => "client"
    case ServerCall => "server"
  }

  /**
   * The tags of an `imq.request` / `imq.response` span: kind, the resource
   * `<service>.<method>`, the service name, the caller and the component.
   */
  function CallTags(kind: CallKind, serviceName: string, methodName: string, from: string): (tags: Tags)
    ensures tags.Keys == {"span.kind", "resource.name", "service.name", "imq.client", "component"}
    ensures tags["span.kind"] in {"client", "server"} && (tags["span.kind"] == "client" <==> kind == ClientCall)
    ensures tags["resource.name"] == serviceName + "." + methodName
    ensures tags["service.name"] == serviceName && tags["imq.client"] == from
    ensures tags["component"] == "imq"
  {
    map["span.kind" := KindName(kind),
        "resource.name" := serviceName + "." + methodName,
        "service.name" := serviceName,
        "imq.client" := from,
        "component" := "imq"]
  }

  /**
   * `afterCall` of both the client and the server: `span && span.finish()`.
   * The attached span is closed once; without one nothing happens.
   */
  method AfterCall(req: Request)
    modifies req.span
    ensures req.span == old(req.span)
    ensures req.span != null ==> req.span.finished == old(req.span.finished) + 1
    ensures req.span != null ==>
      req.span.traceId == old(req.span.traceId) && req.span.parentId == old(req.span.parentId) &&
      req.span.tags == old(req.span.tags)
  {
    var span := req.span;
    if span != null {
      span.Finish();
    }
  }
}
