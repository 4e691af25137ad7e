/** The span data that generator and sinks exchange, as values. */
module Telemetry {
  import opened Catalog

  datatype TraceId = TraceId(lo: nat, hi: nat)

  datatype StatusCode = Unset | Ok | Error

  datatype Event = Event(name: string, time: nat, attrs: map<string, string>)

  datatype Link = Link(traceId: TraceId, spanId: nat, traceState: string, attrs: map<string, string>)

  /** Times are nanoseconds since the epoch; the parent id 0 means that there is no parent. */
  datatype Span = Span(
    traceId: TraceId, spanId: nat, parentId: nat, traceState: string,
    name: string, kind: SpanKind, start: nat, end: nat,
    attrs: map<string, string>, status: StatusCode, statusMessage: string,
    events: seq<Event>, links: seq<Link>)

  datatype ScopeSpans = ScopeSpans(name: string, version: string, attrs: map<string, string>, spans: seq<Span>)

  datatype ResourceSpans = ResourceSpans(attrs: map<string, string>, scopes: seq<ScopeSpans>)
}
