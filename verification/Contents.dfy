/** What every column of a stored row says about the span that was emitted, and about its draws. */
module Contents {
  import opened Catalog
  import opened ClickHouse
  import opened Hex
  import opened Pipeline
  import opened Rows
  import opened Schemas
  import opened Telemetry
  import opened Traces
  import Draws
  import Forest
  import Oracle
  import Shape

  // ---- the cells of one span ----

  lemma {:induction false} HeadContents(schema: Schema, sp: Span, x: Context)
    requires Timed(sp)
    ensures CellOf(schema, Timestamp, sp, x) == VTime(sp.start)
    ensures CellOf(schema, TraceState, sp, x) == VText(sp.traceState)
    ensures CellOf(schema, SpanName, sp, x) == VText(sp.name)
    ensures CellOf(schema, SpanKindCol, sp, x) == VText(KindText(sp.kind))
    ensures CellOf(schema, ScopeName, sp, x) == VText(x.scopeName)
    ensures CellOf(schema, ScopeVersion, sp, x) == VText(x.scopeVer)
    ensures CellOf(schema, StatusCodeCol, sp, x) == VText(StatusText(sp.status))
    ensures CellOf(schema, StatusMessage, sp, x) == VText(sp.statusMessage)
  {
    hide KindText, StatusText;
  }

  /** An attribute map, as the schema stores it. */
  function Shown(schema: Schema, m: Attrs): Value {
    match schema
    case MapSchema => VMap(m)
    case JsonSchema(printer) => VText(if m == map[] then "{}" else printer(m))
  }

  lemma {:induction false} AttrContents(schema: Schema, sp: Span, x: Context)
    requires Timed(sp)
    ensures CellOf(schema, ResourceAttributes, sp, x) == Shown(schema, x.resAttrs)
    ensures CellOf(schema, SpanAttributes, sp, x) == Shown(schema, sp.attrs)
    ensures schema.JsonSchema? ==> CellOf(schema, ScopeAttributes, sp, x) == Shown(schema, x.scopeAttrs)
  {
    assert x.resAttrs == map[] <==> |x.resAttrs| == 0;
    assert sp.attrs == map[] <==> |sp.attrs| == 0;
    assert x.scopeAttrs == map[] <==> |x.scopeAttrs| == 0;
  }

  /** The event columns of a span with at most one event. */
  ghost predicate EventsShown(schema: Schema, sp: Span, x: Context)
    requires Timed(sp)
  {
    && (sp.events == [] ==>
         && CellOf(schema, EventsTimestamp, sp, x) == VTimes([]) && CellOf(schema, EventsName, sp, x) == VTexts([]))
    && (|sp.events| == 1 ==>
         && CellOf(schema, EventsTimestamp, sp, x) == VTimes([sp.events[0].time])
         && CellOf(schema, EventsName, sp, x) == VTexts([sp.events[0].name])
         && (schema.MapSchema? ==> CellOf(schema, EventsAttributes, sp, x) == VMaps([sp.events[0].attrs])))
  }

  lemma {:induction false} EventContents(schema: Schema, sp: Span, x: Context)
    requires Timed(sp)
    ensures EventsShown(schema, sp, x)
  {
    assert sp.events == [] ==> EventTimes(sp.events) == [] && EventNames(sp.events) == [];
    if |sp.events| == 1 {
      var ev := sp.events[0];
      assert EventTimes(sp.events) == [ev.time] && EventNames(sp.events) == [ev.name];
      assert EventMaps(sp.events) == [ev.attrs];
    }
  }

  lemma {:induction false} LinkContents(schema: Schema, sp: Span, x: Context)
    requires Timed(sp) && sp.links == []
    ensures CellOf(schema, LinksTraceId, sp, x) == CellOf(schema, LinksSpanId, sp, x) == VTexts([])
    ensures CellOf(schema, LinksTraceState, sp, x) == VTexts([])
  {
    assert LinkTraceIds(sp.links) == [] && LinkSpanIds(sp.links) == [] && LinkStates(sp.links) == [];
  }

  // ---- the rows of a batch ----

  /** The row of an entry in each column. */
  ghost predicate RowOk(schema: Schema, g: Gen, log: seq<Emission>, i: nat)
    requires Shape.Built(g, log) && i < |log|
  {
    var row, cols, e := RowAt(schema, g, log, i), Columns(schema), log[i];
    && e.svc < |g.cat.services| && Timed(e.span)
    && forall c :: c in cols ==> Cell(cols, row, c) == CellOf(schema, c, e.span, ServiceContext(g.cat, e.svc))
  }

  lemma {:induction false} RowsOk(schema: Schema, g: Gen, log: seq<Emission>, i: nat)
    requires g.Ok() && Shape.Built(g, log) && i < |log|
    ensures RowOk(schema, g, log, i)
  {
    hide Valid, Shape.Built, RowAt, CellOf, Columns, Cell, ServiceContext;
    ServiceOf(g, log, i);
    forall c | c in Columns(schema)
      ensures Cell(Columns(schema), RowAt(schema, g, log, i), c)
           == CellOf(schema, c, log[i].span, ServiceContext(g.cat, log[i].svc))
    {
      CellValue(schema, g, log, i, c);
    }
  }

  lemma {:induction false} SharedColumns(schema: Schema, c: Column)
    ensures c != ScopeAttributes || schema.JsonSchema? ==> c in Columns(schema)
  {
    ColumnLists();
  }

  lemma {:induction false} ContextFields(cat: Catalog, svc: nat)
    requires svc < |cat.services|
    ensures var x := ServiceContext(cat, svc);
            && x.resAttrs == cat.services[svc].resourceAttrs
            && x.scopeName == cat.scopeName && x.scopeVer == cat.scopeVer && x.scopeAttrs == map[]
  {
  }

  /** The row of an entry shows its start, its operation's name, the attributes of its service and of the span,
      and the scope of the catalog. */
  lemma {:induction false} RowContents(schema: Schema, g: Gen, log: seq<Emission>, i: nat)
    requires g.Ok() && Shape.Built(g, log) && i < |log|
    ensures forall c :: c != ScopeAttributes || schema.JsonSchema? ==> c in Columns(schema)
    ensures var row, cols, e := RowAt(schema, g, log, i), Columns(schema), log[i];
            && e.svc < |g.cat.services|
            && Cell(cols, row, Timestamp) == VTime(e.span.start)
            && Cell(cols, row, SpanName) == VText(e.span.name)
            && Cell(cols, row, SpanKindCol) == VText(KindText(e.span.kind))
            && Cell(cols, row, ScopeName) == VText(g.cat.scopeName)
            && Cell(cols, row, ScopeVersion) == VText(g.cat.scopeVer)
            && Cell(cols, row, ResourceAttributes) == Shown(schema, g.cat.services[e.svc].resourceAttrs)
            && Cell(cols, row, SpanAttributes) == Shown(schema, e.span.attrs)
            && (schema.JsonSchema? ==> Cell(cols, row, ScopeAttributes) == VText("{}"))
  {
    forall c ensures c != ScopeAttributes || schema.JsonSchema? ==> c in Columns(schema) {
      SharedColumns(schema, c);
    }
    hide Valid, Shape.Built, RowAt, CellOf, Columns, Cell, KindText, ServiceContext;
    RowsOk(schema, g, log, i);
    var x := ServiceContext(g.cat, log[i].svc);
    HeadContents(schema, log[i].span, x);
    AttrContents(schema, log[i].span, x);
    ContextFields(g.cat, log[i].svc);
  }

  // ---- kinds ----

  /** What is stored as the kind of a span that does this kind of work. */
  function KindOf(typ: OpType): string {
    match typ
    case HttpServer | RpcServer => "Server"
    case HttpClient | RpcClient | DbClient => "Client"
    case Internal => "Internal"
    case MsgProducer => "Producer"
    case MsgConsumer => "Consumer"
  }

  lemma {:induction false} EntryKind(cat: Catalog, svc: nat, op: Operation)
    requires Valid(cat) && svc < |cat.services| && op in cat.services[svc].entryOps
    ensures KindText(op.kind) == KindOf(op.typ)
  {
    assert Described(cat.services[svc], svc);
    assert EntryOp(op, cat.services[svc].name);
  }

  lemma {:induction false} ChildKind(cat: Catalog, svc: nat, op: Operation)
    requires Valid(cat) && svc < |cat.services| && op in cat.services[svc].childOps
    ensures KindText(op.kind) == KindOf(op.typ)
  {
    hide Valid;
    Forest.IsChildOp(cat, svc, op);
  }

  lemma {:induction false} ServerKind(op: Operation)
    ensures KindText(ServerCounterpart(op).kind) == KindOf(ServerCounterpart(op).typ)
  {
  }

  /** The stored kind is that of the work, whatever the entry. */
  lemma {:induction false} KindShown(schema: Schema, g: Gen, log: seq<Emission>, i: nat)
    requires g.Ok() && Shape.Built(g, log) && i < |log|
    ensures SpanKindCol in Columns(schema)
    ensures Cell(Columns(schema), RowAt(schema, g, log, i), SpanKindCol) == VText(KindOf(log[i].op.typ))
  {
    hide Valid, RowAt, Columns, Cell, KindText, KindOf;
    RowContents(schema, g, log, i);
    assert Shape.SpanOk(g, log, i);
    var e := log[i];
    if e.parentAt == -1 {
      EntryKind(g.cat, e.svc, e.op);
    } else {
      var q := log[e.parentAt];
      if q.op.kind == KindClient {
        ServerKind(q.op);
      } else {
        ChildKind(g.cat, q.svc, e.op);
      }
    }
  }

  // ---- outcomes and ids, back to the draws ----

  /** The status, message, event and link columns of a span that failed or not, and got an event or not. */
  ghost predicate EndCells(status: Value, message: Value, times: Value, names: Value, links: Value, state: Value,
                           failed: bool, noted: bool, start: nat, dur: nat) {
    && status == VText(if failed then "Error" else "Unset")
    && message == VText(if failed then "operation failed" else "")
    && times == VTimes(if failed then [start + dur / 2] else if noted then [start + dur / 3] else [])
    && names == VTexts(if failed then ["exception"] else if noted then ["processing"] else [])
    && links == VTexts([]) && state == VText("")
  }

  ghost predicate EndShown(schema: Schema, g: Gen, log: seq<Emission>, i: nat)
    requires g.Ok() && Shape.Built(g, log) && i < |log|
  {
    var row, cols, e := RowAt(schema, g, log, i), Columns(schema), log[i];
    && StatusCodeCol in cols && StatusMessage in cols && EventsTimestamp in cols && EventsName in cols
    && LinksTraceId in cols && TraceState in cols
    && EndCells(Cell(cols, row, StatusCodeCol), Cell(cols, row, StatusMessage), Cell(cols, row, EventsTimestamp),
                Cell(cols, row, EventsName), Cell(cols, row, LinksTraceId), Cell(cols, row, TraceState),
                Draws.Failed(g, e.drawnAt), Draws.Noted(g, e.drawnAt), e.span.start, e.dur)
  }

  lemma {:induction false} EndCellsOf(schema: Schema, g: Gen, p: nat, op: Operation, sp: Span, dur: nat, x: Context)
    requires Timed(sp) && Draws.Outcome(g, p, op, sp.start, dur, sp)
    ensures EndCells(CellOf(schema, StatusCodeCol, sp, x), CellOf(schema, StatusMessage, sp, x),
                     CellOf(schema, EventsTimestamp, sp, x), CellOf(schema, EventsName, sp, x),
                     CellOf(schema, LinksTraceId, sp, x), CellOf(schema, TraceState, sp, x),
                     Draws.Failed(g, p), Draws.Noted(g, p), sp.start, dur)
  {
    hide CellOf, Draws.Failed, Draws.Noted, Timed, KindText;
    HeadContents(schema, sp, x);
    EventContents(schema, sp, x);
    LinkContents(schema, sp, x);
  }

  lemma {:induction false} EndOf(schema: Schema, g: Gen, log: seq<Emission>, i: nat)
    requires g.Ok() && Shape.Built(g, log) && i < |log|
    requires var e := log[i]; Draws.Outcome(g, e.drawnAt, e.op, e.span.start, e.dur, e.span)
    ensures EndShown(schema, g, log, i)
  {
    EndColumns(schema);
    hide Valid, Shape.Built, RowAt, CellOf, Columns, Cell, ServiceContext, EndCells, Draws.Outcome;
    hide Draws.Failed, Draws.Noted, Timed;
    var e := log[i];
    RowsOk(schema, g, log, i);
    EndCellsOf(schema, g, e.drawnAt, e.op, e.span, e.dur, ServiceContext(g.cat, e.svc));
  }

  lemma {:induction false} EndColumns(schema: Schema)
    ensures var cols := Columns(schema);
            && StatusCodeCol in cols && StatusMessage in cols && EventsTimestamp in cols && EventsName in cols
            && LinksTraceId in cols && TraceState in cols
  {
    forall c ensures c != ScopeAttributes ==> c in Columns(schema) {
      SharedColumns(schema, c);
    }
    hide Columns;
  }

  /** The stored outcome and event of every span of a batch, from its error and event draws. */
  lemma {:induction false} StoredEnd(schema: Schema, g: Gen, pos: nat, target: int, i: nat)
    requires g.Ok() && i < |FillBatch(g, pos, target).log|
    ensures var log := FillBatch(g, pos, target).log; Shape.Built(g, log) && EndShown(schema, g, log, i)
  {
    hide Valid, FillBatch, Shape.Built, EndShown, Draws.Outcome;
    Shape.BatchShape(g, pos, target);
    Draws.EverySpanEnds(g, pos, target, i);
    EndOf(schema, g, FillBatch(g, pos, target).log, i);
  }

  /** The stored ids read back: they give the words that were drawn, in the order in which they were. */
  lemma {:induction false} StoredIdsRead(schema: Schema, g: Gen, log: seq<Emission>, i: nat)
    requires g.Ok() && Shape.Built(g, log) && i < |log|
    ensures TraceIdCol in Columns(schema) && SpanIdCol in Columns(schema)
    ensures var row, sp := RowAt(schema, g, log, i), log[i].span;
            && (sp.spanId != 0 ==>
                 var text := Text(schema, row, SpanIdCol);
                 |text| == 16 && HexDigits(text) && Hex.Parse(text) == sp.spanId)
            && (sp.traceId != TraceId(0, 0) ==>
                 var text := Text(schema, row, TraceIdCol);
                 && |text| == 32 && HexDigits(text)
                 && Hex.Parse(text[..16]) == sp.traceId.lo && Hex.Parse(text[16..]) == sp.traceId.hi)
  {
    RowCells(schema, g, log, i);
    IdsBounded(g, log, i);
    hide Valid, Shape.Built, RowAt, Text, Columns, SpanHex, TraceHex, HexDigits, Hex.Parse;
    var sp := log[i].span;
    if sp.spanId != 0 {
      SpanHexRead(sp.spanId);
    }
    if sp.traceId != TraceId(0, 0) {
      TraceHexRead(sp.traceId);
    }
  }
}
