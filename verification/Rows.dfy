/** Positional encoding of a span for the two table schemas. */
module Rows {
  import opened Catalog
  import opened Oracle
  import opened Telemetry
  import opened Hex

  type Attrs = map<string, string>

  /** Prints a non-empty attribute map as a JSON object. */
  type Printer = Attrs -> string

  datatype Value =
    | VTime(time: nat) | VText(text: string) | VMap(attrs: Attrs) | VUInt(u: nat) | VInt(i: int)
    | VTimes(times: seq<nat>) | VTexts(texts: seq<string>) | VMaps(maps: seq<Attrs>)

  type Row = seq<Value>

  datatype Column =
    | Timestamp | TraceIdCol | SpanIdCol | ParentSpanId | TraceState | SpanName | SpanKindCol | ServiceName
    | ResourceAttributes | ScopeName | ScopeVersion | SpanAttributes | ScopeAttributes
    | Duration | StatusCodeCol | StatusMessage
    | EventsTimestamp | EventsName | EventsAttributes
    | LinksTraceId | LinksSpanId | LinksTraceState | LinksAttributes

  /** Both column lists begin alike. */
  const HEAD_COLUMNS: seq<Column> := [
    Timestamp, TraceIdCol, SpanIdCol, ParentSpanId, TraceState, SpanName, SpanKindCol, ServiceName]

  const MAP_REST: seq<Column> := [
    ResourceAttributes, ScopeName, ScopeVersion, SpanAttributes,
    Duration, StatusCodeCol, StatusMessage]

  const MAP_NESTED: seq<Column> := [
    EventsTimestamp, EventsName, EventsAttributes,
    LinksTraceId, LinksSpanId, LinksTraceState, LinksAttributes]

  const JSON_STATUS: seq<Column> := [Duration, StatusCodeCol, StatusMessage]

  const JSON_CONTEXT: seq<Column> := [
    ResourceAttributes, SpanAttributes, ScopeAttributes, ScopeName, ScopeVersion]

  const JSON_NESTED: seq<Column> := [
    LinksTraceId, LinksSpanId, LinksTraceState, LinksAttributes,
    EventsTimestamp, EventsName, EventsAttributes]

  const MAP_COLUMNS: seq<Column> := HEAD_COLUMNS + MAP_REST + MAP_NESTED
  const JSON_COLUMNS: seq<Column> := HEAD_COLUMNS + JSON_STATUS + JSON_CONTEXT + JSON_NESTED

  /** The resource and scope that a span is stored under. */
  datatype Context = Context(resAttrs: Attrs, svcName: string, scopeName: string, scopeVer: string, scopeAttrs: Attrs)

  function KindText(k: SpanKind): string {
    match k
    case KindInternal => "Internal"
    case KindServer => "Server"
    case KindClient => "Client"
    case KindProducer => "Producer"
    case KindConsumer => "Consumer"
  }

  function StatusText(s: StatusCode): string {
    match s
    case Unset => "Unset"
    case Ok => "Ok"
    case Error => "Error"
  }

  /** Difference of two 64-bit timestamps, which wraps around when the end lies before the start. */
  function SubU64(end: nat, start: nat): (d: nat)
    requires end < TWO_64 && start < TWO_64
    ensures d < TWO_64
  {
    if end >= start then end - start else end + TWO_64 - start
  }

  /** Reinterpretation of an unsigned 64-bit number as a signed one. */
  function AsInt64(u: nat): int
    requires u < TWO_64
  {
    if u < TWO_63 then u else u - TWO_64
  }

  function JsonAttr(printer: Printer, m: Attrs): string {
    if |m| == 0 then "{}" else printer(m)
  }

  // ---- parallel arrays ----

  function EventTimes(es: seq<Event>): (r: seq<nat>)
    ensures |r| == |es|
  {
    seq(|es|, i requires 0 <= i < |es| => es[i].time)
  }

  function EventNames(es: seq<Event>): (r: seq<string>)
    ensures |r| == |es|
  {
    seq(|es|, i requires 0 <= i < |es| => es[i].name)
  }

  function EventMaps(es: seq<Event>): (r: seq<Attrs>)
    ensures |r| == |es|
  {
    seq(|es|, i requires 0 <= i < |es| => es[i].attrs)
  }

  function LinkTraceIds(ls: seq<Link>): (r: seq<string>)
    ensures |r| == |ls|
  {
    seq(|ls|, i requires 0 <= i < |ls| => TraceHex(ls[i].traceId))
  }

  function LinkSpanIds(ls: seq<Link>): (r: seq<string>)
    ensures |r| == |ls|
  {
    seq(|ls|, i requires 0 <= i < |ls| => SpanHex(ls[i].spanId))
  }

  function LinkStates(ls: seq<Link>): (r: seq<string>)
    ensures |r| == |ls|
  {
    seq(|ls|, i requires 0 <= i < |ls| => ls[i].traceState)
  }

  function LinkMaps(ls: seq<Link>): (r: seq<Attrs>)
    ensures |r| == |ls|
  {
    seq(|ls|, i requires 0 <= i < |ls| => ls[i].attrs)
  }

  function Printed(printer: Printer, ms: seq<Attrs>): (r: seq<string>)
    ensures |r| == |ms|
  {
    seq(|ms|, i requires 0 <= i < |ms| => JsonAttr(printer, ms[i]))
  }

  /** Fills the event arrays in one pass. */
  method Events(sp: Span) returns (ts: seq<nat>, names: seq<string>, attrs: seq<Attrs>)
    ensures |ts| == |names| == |attrs| == |sp.events|
    ensures sp.events == seq(|ts|, i requires 0 <= i < |ts| => Event(names[i], ts[i], attrs[i]))
    ensures ts == EventTimes(sp.events) && names == EventNames(sp.events) && attrs == EventMaps(sp.events)
  {
    var n := |sp.events|;
    if n == 0 {
      return [], [], [];
    }
    var ta, na, aa := new nat[n], new string[n], new Attrs[n];
    for i := 0 to n
      invariant forall k :: 0 <= k < i ==>
                  ta[k] == sp.events[k].time && na[k] == sp.events[k].name && aa[k] == sp.events[k].attrs
    {
      var e := sp.events[i];
      ta[i], na[i], aa[i] := e.time, e.name, e.attrs;
    }
    ts, names, attrs := ta[..], na[..], aa[..];
  }

  method Links(sp: Span) returns (traceIds: seq<string>, spanIds: seq<string>, states: seq<string>, attrs: seq<Attrs>)
    ensures traceIds == LinkTraceIds(sp.links) && spanIds == LinkSpanIds(sp.links)
    ensures states == LinkStates(sp.links) && attrs == LinkMaps(sp.links)
    ensures |traceIds| == |spanIds| == |states| == |attrs| == |sp.links|
    ensures forall i :: 0 <= i < |sp.links| ==>
              && traceIds[i] == TraceHex(sp.links[i].traceId) && spanIds[i] == SpanHex(sp.links[i].spanId)
              && states[i] == sp.links[i].traceState && attrs[i] == sp.links[i].attrs
  {
    var n := |sp.links|;
    if n == 0 {
      return [], [], [], [];
    }
    var ta, sa, st, aa := new string[n], new string[n], new string[n], new Attrs[n];
    for i := 0 to n
      invariant forall k :: 0 <= k < i ==>
                  && ta[k] == TraceHex(sp.links[k].traceId) && sa[k] == SpanHex(sp.links[k].spanId)
                  && st[k] == sp.links[k].traceState && aa[k] == sp.links[k].attrs
    {
      var l := sp.links[i];
      ta[i], sa[i], st[i], aa[i] := TraceHex(l.traceId), SpanHex(l.spanId), l.traceState, l.attrs;
    }
    traceIds, spanIds, states, attrs := ta[..], sa[..], st[..], aa[..];
  }

  lemma {:induction false} EmptyPrints(printer: Printer, m: Attrs)
    ensures JsonAttr(printer, m) == if m == map[] then "{}" else printer(m)
  {
    assert m == map[] <==> |m| == 0;
  }

  /** Maps whose values print as JSON, in place of the maps. */
  method PrintAll(printer: Printer, ms: seq<Attrs>) returns (texts: seq<string>)
    ensures texts == Printed(printer, ms) && |texts| == |ms|
    ensures forall i :: 0 <= i < |ms| ==> texts[i] == if ms[i] == map[] then "{}" else printer(ms[i])
  {
    var a := new string[|ms|];
    for i := 0 to |ms|
      invariant forall k :: 0 <= k < i ==> a[k] == JsonAttr(printer, ms[k])
    {
      a[i] := JsonAttr(printer, ms[i]);
    }
    texts := a[..];
    forall i | 0 <= i < |ms| ensures texts[i] == if ms[i] == map[] then "{}" else printer(ms[i]) {
      EmptyPrints(printer, ms[i]);
    }
  }

  method EventsJson(printer: Printer, sp: Span) returns (ts: seq<nat>, names: seq<string>, attrs: seq<string>)
    ensures ts == EventTimes(sp.events) && names == EventNames(sp.events)
    ensures attrs == Printed(printer, EventMaps(sp.events))
    ensures |ts| == |names| == |attrs| == |sp.events|
    ensures forall i :: 0 <= i < |sp.events| ==>
              && ts[i] == sp.events[i].time && names[i] == sp.events[i].name
              && attrs[i] == if sp.events[i].attrs == map[] then "{}" else printer(sp.events[i].attrs)
  {
    var maps;
    ts, names, maps := Events(sp);
    attrs := PrintAll(printer, maps);
  }

  method LinksJson(printer: Printer, sp: Span)
    returns (traceIds: seq<string>, spanIds: seq<string>, states: seq<string>, attrs: seq<string>)
    ensures traceIds == LinkTraceIds(sp.links) && spanIds == LinkSpanIds(sp.links)
    ensures states == LinkStates(sp.links) && attrs == Printed(printer, LinkMaps(sp.links))
    ensures |traceIds| == |spanIds| == |states| == |attrs| == |sp.links|
    ensures forall i :: 0 <= i < |sp.links| ==>
              && traceIds[i] == TraceHex(sp.links[i].traceId) && spanIds[i] == SpanHex(sp.links[i].spanId)
              && states[i] == sp.links[i].traceState
              && attrs[i] == if sp.links[i].attrs == map[] then "{}" else printer(sp.links[i].attrs)
  {
    var maps;
    traceIds, spanIds, states, maps := Links(sp);
    attrs := PrintAll(printer, maps);
  }

  // ---- what each column holds ----

  ghost predicate Timed(sp: Span) {
    sp.start < TWO_64 && sp.end < TWO_64
  }

  /** The value of a column that is not of an attribute type: the same in both schemas but for the
      signedness of the duration. */
  function PlainCell(c: Column, sp: Span, x: Context): Value
    requires Timed(sp)
  {
    match c
    case Timestamp => VTime(sp.start)
    case TraceIdCol => VText(TraceHex(sp.traceId))
    case SpanIdCol => VText(SpanHex(sp.spanId))
    case ParentSpanId => VText(SpanHex(sp.parentId))
    case TraceState => VText(sp.traceState)
    case SpanName => VText(sp.name)
    case SpanKindCol => VText(KindText(sp.kind))
    case ServiceName => VText(x.svcName)
    case ScopeName => VText(x.scopeName)
    case ScopeVersion => VText(x.scopeVer)
    case Duration => VUInt(SubU64(sp.end, sp.start))
    case StatusCodeCol => VText(StatusText(sp.status))
    case StatusMessage => VText(sp.statusMessage)
    case EventsTimestamp => VTimes(EventTimes(sp.events))
    case EventsName => VTexts(EventNames(sp.events))
    case LinksTraceId => VTexts(LinkTraceIds(sp.links))
    case LinksSpanId => VTexts(LinkSpanIds(sp.links))
    case LinksTraceState => VTexts(LinkStates(sp.links))
    case _ => VText("")
  }

  function MapCell(c: Column, sp: Span, x: Context): Value
    requires Timed(sp)
  {
    match c
    case ResourceAttributes => VMap(x.resAttrs)
    case SpanAttributes => VMap(sp.attrs)
    case EventsAttributes => VMaps(EventMaps(sp.events))
    case LinksAttributes => VMaps(LinkMaps(sp.links))
    case _ => PlainCell(c, sp, x)
  }

  function JsonCell(printer: Printer, c: Column, sp: Span, x: Context): Value
    requires Timed(sp)
  {
    match c
    case ResourceAttributes => VText(JsonAttr(printer, x.resAttrs))
    case SpanAttributes => VText(JsonAttr(printer, sp.attrs))
    case ScopeAttributes => VText(JsonAttr(printer, x.scopeAttrs))
    case EventsAttributes => VTexts(Printed(printer, EventMaps(sp.events)))
    case LinksAttributes => VTexts(Printed(printer, LinkMaps(sp.links)))
    case Duration => VInt(AsInt64(SubU64(sp.end, sp.start)))
    case _ => PlainCell(c, sp, x)
  }

  function MapRow(sp: Span, x: Context): (row: Row)
    requires Timed(sp)
    ensures |row| == |MAP_COLUMNS|
  {
    seq(|MAP_COLUMNS|, k requires 0 <= k < |MAP_COLUMNS| => MapCell(MAP_COLUMNS[k], sp, x))
  }

  function JsonRow(printer: Printer, sp: Span, x: Context): (row: Row)
    requires Timed(sp)
    ensures |row| == |JSON_COLUMNS|
  {
    seq(|JSON_COLUMNS|, k requires 0 <= k < |JSON_COLUMNS| => JsonCell(printer, JSON_COLUMNS[k], sp, x))
  }

  // ---- the encoders ----

  /** The arguments that both schemas send first. */
  function HeadCells(sp: Span, x: Context): (row: Row)
    requires Timed(sp)
    ensures |row| == |HEAD_COLUMNS|
    ensures forall k :: 0 <= k < |row| ==> row[k] == PlainCell(HEAD_COLUMNS[k], sp, x)
  {
    [VTime(sp.start), VText(TraceHex(sp.traceId)), VText(SpanHex(sp.spanId)), VText(SpanHex(sp.parentId)),
     VText(sp.traceState), VText(sp.name), VText(KindText(sp.kind)), VText(x.svcName)]
  }

  function MapCells(sp: Span, x: Context): (row: Row)
    requires Timed(sp)
    ensures |row| == |MAP_REST|
    ensures forall k :: 0 <= k < |row| ==> row[k] == MapCell(MAP_REST[k], sp, x)
  {
    [VMap(x.resAttrs), VText(x.scopeName), VText(x.scopeVer), VMap(sp.attrs),
     VUInt(SubU64(sp.end, sp.start)), VText(StatusText(sp.status)), VText(sp.statusMessage)]
  }

  function MapNested(sp: Span, x: Context, evTs: seq<nat>, evNames: seq<string>, evAttrs: seq<Attrs>,
                     lkTraceIds: seq<string>, lkSpanIds: seq<string>, lkStates: seq<string>,
                     lkAttrs: seq<Attrs>): (row: Row)
    requires Timed(sp)
    requires evTs == EventTimes(sp.events) && evNames == EventNames(sp.events) && evAttrs == EventMaps(sp.events)
    requires lkTraceIds == LinkTraceIds(sp.links) && lkSpanIds == LinkSpanIds(sp.links)
    requires lkStates == LinkStates(sp.links) && lkAttrs == LinkMaps(sp.links)
    ensures |row| == |MAP_NESTED|
    ensures forall k :: 0 <= k < |row| ==> row[k] == MapCell(MAP_NESTED[k], sp, x)
  {
    [VTimes(evTs), VTexts(evNames), VMaps(evAttrs),
     VTexts(lkTraceIds), VTexts(lkSpanIds), VTexts(lkStates), VMaps(lkAttrs)]
  }

  /** The classic schema: every argument stands where the column list expects its column. */
  method EncodeMap(sp: Span, x: Context) returns (row: Row)
    requires Timed(sp)
    ensures row == MapRow(sp, x)
  {
    hide HeadCells, MapCells, MapNested, PlainCell, EventTimes, EventNames, EventMaps;
    hide LinkTraceIds, LinkSpanIds, LinkStates, LinkMaps;
    var evTs, evNames, evAttrs := Events(sp);
    var lkTraceIds, lkSpanIds, lkStates, lkAttrs := Links(sp);
    row := HeadCells(sp, x) + MapCells(sp, x)
         + MapNested(sp, x, evTs, evNames, evAttrs, lkTraceIds, lkSpanIds, lkStates, lkAttrs);
    forall k | 0 <= k < |HEAD_COLUMNS| ensures row[k] == MapCell(HEAD_COLUMNS[k], sp, x) {
      HeadAgrees(k, sp, x);
    }
    hide MapCell, HEAD_COLUMNS, MAP_REST, MAP_NESTED;
  }

  function JsonStatus(printer: Printer, sp: Span, x: Context): (row: Row)
    requires Timed(sp)
    ensures |row| == |JSON_STATUS|
    ensures forall k :: 0 <= k < |row| ==> row[k] == JsonCell(printer, JSON_STATUS[k], sp, x)
  {
    [VInt(AsInt64(SubU64(sp.end, sp.start))), VText(StatusText(sp.status)), VText(sp.statusMessage)]
  }

  function JsonContext(printer: Printer, sp: Span, x: Context): (row: Row)
    requires Timed(sp)
    ensures |row| == |JSON_CONTEXT|
    ensures forall k :: 0 <= k < |row| ==> row[k] == JsonCell(printer, JSON_CONTEXT[k], sp, x)
  {
    [VText(JsonAttr(printer, x.resAttrs)), VText(JsonAttr(printer, sp.attrs)), VText(JsonAttr(printer, x.scopeAttrs)),
     VText(x.scopeName), VText(x.scopeVer)]
  }

  function JsonNested(printer: Printer, sp: Span, x: Context, evTs: seq<nat>, evNames: seq<string>,
                      evAttrs: seq<string>,
                      lkTraceIds: seq<string>, lkSpanIds: seq<string>, lkStates: seq<string>,
                      lkAttrs: seq<string>): (row: Row)
    requires Timed(sp)
    requires evTs == EventTimes(sp.events) && evNames == EventNames(sp.events)
    requires evAttrs == Printed(printer, EventMaps(sp.events))
    requires lkTraceIds == LinkTraceIds(sp.links) && lkSpanIds == LinkSpanIds(sp.links)
    requires lkStates == LinkStates(sp.links) && lkAttrs == Printed(printer, LinkMaps(sp.links))
    ensures |row| == |JSON_NESTED|
    ensures forall k :: 0 <= k < |row| ==> row[k] == JsonCell(printer, JSON_NESTED[k], sp, x)
  {
    [VTexts(lkTraceIds), VTexts(lkSpanIds), VTexts(lkStates), VTexts(lkAttrs),
     VTimes(evTs), VTexts(evNames), VTexts(evAttrs)]
  }

  /** The JSON schema, in the order of its own column list. */
  method EncodeJson(printer: Printer, sp: Span, x: Context) returns (row: Row)
    requires Timed(sp)
    ensures row == JsonRow(printer, sp, x)
  {
    hide HeadCells, JsonStatus, JsonContext, JsonNested, PlainCell, Printed, JsonAttr, EventTimes, EventNames,
         EventMaps;
    hide LinkTraceIds, LinkSpanIds, LinkStates, LinkMaps;
    var evTs, evNames, evAttrs := EventsJson(printer, sp);
    var lkTraceIds, lkSpanIds, lkStates, lkAttrs := LinksJson(printer, sp);
    row := HeadCells(sp, x) + JsonStatus(printer, sp, x) + JsonContext(printer, sp, x)
         + JsonNested(printer, sp, x, evTs, evNames, evAttrs, lkTraceIds, lkSpanIds, lkStates, lkAttrs);
    forall k | 0 <= k < |HEAD_COLUMNS| ensures row[k] == JsonCell(printer, HEAD_COLUMNS[k], sp, x) {
      HeadAgreesJson(printer, k, sp, x);
    }
    hide JsonCell, HEAD_COLUMNS, JSON_STATUS, JSON_CONTEXT, JSON_NESTED;
  }

  lemma {:induction false} HeadAgrees(k: nat, sp: Span, x: Context)
    requires Timed(sp) && k < |HEAD_COLUMNS|
    ensures MapCell(HEAD_COLUMNS[k], sp, x) == PlainCell(HEAD_COLUMNS[k], sp, x)
  {
  }

  lemma {:induction false} HeadAgreesJson(printer: Printer, k: nat, sp: Span, x: Context)
    requires Timed(sp) && k < |HEAD_COLUMNS|
    ensures JsonCell(printer, HEAD_COLUMNS[k], sp, x) == PlainCell(HEAD_COLUMNS[k], sp, x)
  {
  }
}
