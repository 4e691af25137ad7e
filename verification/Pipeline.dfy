/** From generated spans to stored rows: what one successful send of one generated batch leaves behind. */
module Pipeline {
  import opened Catalog
  import opened ClickHouse
  import opened Forest
  import opened Grouping
  import opened Hex
  import opened Oracle
  import opened Rows
  import opened Schemas
  import opened Shape
  import opened Telemetry
  import opened Traces
  import Names
  import SpanBudget = Budget

  function Columns(schema: Schema): seq<Column> {
    match schema
    case MapSchema => MAP_COLUMNS
    case JsonSchema(_) => JSON_COLUMNS
  }

  function ServiceContext(cat: Catalog, svc: nat): Context
    requires svc < |cat.services|
  {
    ContextOf(Stored(cat, Group(svc, [])), ScopeSpans(cat.scopeName, cat.scopeVer, map[], []))
  }

  /** The row of one emitted span. */
  ghost function Encoder(schema: Schema, cat: Catalog): (nat, Span) -> Row {
    (svc: nat, sp: Span) =>
      if svc < |cat.services| && Timed(sp) then RowOf(schema, sp, ServiceContext(cat, svc)) else []
  }

  ghost predicate TimedGroups(gs: seq<Group>) {
    forall k :: 0 <= k < |gs| ==> TimedSpans(gs[k].spans)
  }

  // ---- rows follow groups ----

  lemma {:induction false} SpanRowAt(schema: Schema, x: Context, spans: seq<Span>, k: nat)
    requires TimedSpans(spans) && k < |spans|
    ensures SpanRows(schema, x, spans)[k] == RowOf(schema, spans[k], x)
  {
    hide RowOf, Timed;
    if k < |spans| - 1 {
      SpanRowAt(schema, x, spans[..|spans| - 1], k);
    }
  }

  lemma {:induction false} GroupRows(schema: Schema, cat: Catalog, g: Group)
    requires g.svc < |cat.services| && TimedSpans(g.spans)
    ensures TimedScopes(Stored(cat, g).scopes)
    ensures ScopeRows(schema, Stored(cat, g), Stored(cat, g).scopes) == OfGroup(g, Encoder(schema, cat))
  {
    hide RowOf, Timed;
    var rs := Stored(cat, g);
    var x := ServiceContext(cat, g.svc);
    assert rs.scopes[..0] == [];
    assert ScopeRows(schema, rs, rs.scopes) == [] + SpanRows(schema, x, g.spans);
    forall k | 0 <= k < |g.spans| ensures SpanRows(schema, x, g.spans)[k] == OfGroup(g, Encoder(schema, cat))[k] {
      SpanRowAt(schema, x, g.spans, k);
    }
  }

  lemma {:induction false} RowsFollowGroups(schema: Schema, cat: Catalog, gs: seq<Group>)
    requires Owned(cat, gs) && TimedGroups(gs)
    ensures TimedBatch(StoredBatch(cat, gs))
    ensures BatchRows(schema, StoredBatch(cat, gs)) == Flat(gs, Encoder(schema, cat))
  {
    hide ScopeRows, OfGroup, Stored, TimedScopes, Timed, RowOf, Encoder;
    var td := StoredBatch(cat, gs);
    if gs == [] {
    } else {
      var n := |gs| - 1;
      RowsFollowGroups(schema, cat, gs[..n]);
      assert td[..n] == StoredBatch(cat, gs[..n]);
      GroupRows(schema, cat, gs[n]);
      forall rs | rs in td ensures TimedScopes(rs.scopes) {
        var k :| 0 <= k < |td| && td[k] == rs;
        GroupRows(schema, cat, gs[k]);
      }
    }
  }

  lemma {:induction false} SpansOfTimed(g: Gen, log: seq<Emission>, svc: nat)
    requires Built(g, log)
    ensures TimedSpans(SpansOf(log, svc))
  {
    hide RootOk, EdgeOk;
    if log == [] {
    } else {
      var n := |log| - 1;
      assert SpanOk(g, log, n);
      assert Built(g, log[..n]) by {
        forall i | 0 <= i < n ensures SpanOk(g, log[..n], i) {
          assert SpanOk(g, log, i);
        }
      }
      SpansOfTimed(g, log[..n], svc);
    }
  }

  /** The batch, once stored, is one row per emitted span, in group order: nothing lost, doubled or
      invented, whatever the catalog, the tape and the schema. */
  lemma {:induction false} StoredExactly(schema: Schema, g: Gen, pos: nat, target: int)
    requires g.Ok()
    ensures var log := FillBatch(g, pos, target).log;
            && Owned(g.cat, Grouped(log))
            && var td := StoredBatch(g.cat, Grouped(log));
            && TimedBatch(td)
            && var rows := BatchRows(schema, td);
            && |rows| == (if target >= 0 then target else 0)
            && rows == Flat(Grouped(log), Encoder(schema, g.cat))
            && multiset(rows) == multiset(Emitted(log, Encoder(schema, g.cat)))
  {
    hide Valid, FillBatch, SpanOk, Encoder, BatchRows, TimedBatch;
    var log := FillBatch(g, pos, target).log;
    BatchShape(g, pos, target);
    SpanBudget.FillBatchExact(g, pos, target);
    forall i | 0 <= i < |log| ensures log[i].svc < |g.cat.services| {
      InsideRoot(g, log, i);
    }
    GroupedOwned(g.cat, log);
    StablePartition(log, Encoder(schema, g.cat));
    forall k | 0 <= k < |Grouped(log)| ensures TimedSpans(Grouped(log)[k].spans) {
      SpansOfTimed(g, log, Grouped(log)[k].svc);
    }
    RowsFollowGroups(schema, g.cat, Grouped(log));
    var rows := BatchRows(schema, StoredBatch(g.cat, Grouped(log)));
    assert |multiset(rows)| == |rows|;
    assert |multiset(Emitted(log, Encoder(schema, g.cat)))| == |log|;
  }

  // ---- what the rows say ----

  function RowAt(schema: Schema, g: Gen, log: seq<Emission>, i: nat): (row: Row)
    requires Built(g, log) && i < |log|
    ensures |row| == |Columns(schema)|
  {
    assert SpanOk(g, log, i);
    RowOf(schema, log[i].span, ServiceContext(g.cat, log[i].svc))
  }

  lemma {:induction false} RowIsEncoded(schema: Schema, g: Gen, log: seq<Emission>, i: nat)
    requires Built(g, log) && i < |log|
    ensures RowAt(schema, g, log, i) == Emitted(log, Encoder(schema, g.cat))[i]
  {
    hide RowOf;
    assert SpanOk(g, log, i);
  }

  function Text(schema: Schema, row: Row, c: Column): string
    requires |row| == |Columns(schema)| && c in Columns(schema)
  {
    var v := Cell(Columns(schema), row, c);
    if v.VText? then v.text else ""
  }

  lemma {:induction false} PlainColumns(schema: Schema)
    ensures TraceIdCol in Columns(schema) && SpanIdCol in Columns(schema) && ParentSpanId in Columns(schema)
    ensures ServiceName in Columns(schema) && Duration in Columns(schema)
  {
    ColumnLists();
  }

  /** In either schema the row of a log entry shows the entry's ids in hex, the name of the service
      that emitted it, and its duration without underflow. */
  lemma {:induction false} RowCells(schema: Schema, g: Gen, log: seq<Emission>, i: nat)
    requires g.Ok() && Built(g, log) && i < |log|
    ensures var row := RowAt(schema, g, log, i); var e := log[i]; var cols := Columns(schema);
            && TraceIdCol in cols && SpanIdCol in cols && ParentSpanId in cols
            && ServiceName in cols && Duration in cols
            && Text(schema, row, TraceIdCol) == TraceHex(e.span.traceId)
            && Text(schema, row, SpanIdCol) == SpanHex(e.span.spanId)
            && Text(schema, row, ParentSpanId) == SpanHex(e.span.parentId)
            && e.svc < |g.cat.services| && Text(schema, row, ServiceName) == g.cat.services[e.svc].name
            && Cell(cols, row, Duration) == if schema.MapSchema? then VUInt(e.dur) else VInt(e.dur)
  {
    hide Valid, SpanOk, Built, RowAt, SpanHex, TraceHex, CellOf, Columns, Cell, ServiceContext;
    ServiceOf(g, log, i);
    PlainColumns(schema);
    CellValue(schema, g, log, i, TraceIdCol);
    CellValue(schema, g, log, i, SpanIdCol);
    CellValue(schema, g, log, i, ParentSpanId);
    CellValue(schema, g, log, i, ServiceName);
    CellValue(schema, g, log, i, Duration);
    PlainCells(schema, log[i].span, ServiceContext(g.cat, log[i].svc));
  }

  lemma {:induction false} ServiceOf(g: Gen, log: seq<Emission>, i: nat)
    requires g.Ok() && Built(g, log) && i < |log|
    ensures var e := log[i];
            && Timed(e.span)
            && e.dur < TWO_63 && e.span.end == e.span.start + e.dur
            && e.svc < |g.cat.services|
            && ServiceContext(g.cat, e.svc).svcName == g.cat.services[e.svc].name
  {
    assert SpanOk(g, log, i);
    assert Described(g.cat.services[log[i].svc], log[i].svc);
  }

  function CellOf(schema: Schema, c: Column, sp: Span, x: Context): Value
    requires Timed(sp)
  {
    match schema
    case MapSchema => MapCell(c, sp, x)
    case JsonSchema(printer) => JsonCell(printer, c, sp, x)
  }

  lemma {:induction false} CellValue(schema: Schema, g: Gen, log: seq<Emission>, i: nat, c: Column)
    requires Built(g, log) && i < |log| && c in Columns(schema)
    requires Timed(log[i].span) && log[i].svc < |g.cat.services|
    ensures Cell(Columns(schema), RowAt(schema, g, log, i), c)
         == CellOf(schema, c, log[i].span, ServiceContext(g.cat, log[i].svc))
  {
    hide Built, Cell, MapRow, JsonRow, MapCell, JsonCell, MAP_COLUMNS, JSON_COLUMNS, ServiceContext;
    var x := ServiceContext(g.cat, log[i].svc);
    match schema {
      case MapSchema => CellOfMapRow(log[i].span, x, c);
      case JsonSchema(printer) => CellOfJsonRow(printer, log[i].span, x, c);
    }
  }

  lemma {:induction false} PlainCells(schema: Schema, sp: Span, x: Context)
    requires Timed(sp)
    ensures CellOf(schema, TraceIdCol, sp, x) == VText(TraceHex(sp.traceId))
    ensures CellOf(schema, SpanIdCol, sp, x) == VText(SpanHex(sp.spanId))
    ensures CellOf(schema, ParentSpanId, sp, x) == VText(SpanHex(sp.parentId))
    ensures CellOf(schema, ServiceName, sp, x) == VText(x.svcName)
    ensures sp.start <= sp.end < sp.start + TWO_63 ==>
              (CellOf(schema, Duration, sp, x)
               == if schema.MapSchema? then VUInt(sp.end - sp.start) else VInt(sp.end - sp.start))
  {
    hide TraceHex, SpanHex;
  }

  /** Row `j` is what the stored parent columns of row `i` point to. */
  ghost predicate RowLinks(schema: Schema, r: Row, s: Row)
    requires |r| == |s| == |Columns(schema)|
    requires TraceIdCol in Columns(schema) && SpanIdCol in Columns(schema) && ParentSpanId in Columns(schema)
  {
    && Text(schema, r, ParentSpanId) != ""
    && Text(schema, s, SpanIdCol) == Text(schema, r, ParentSpanId)
    && Text(schema, s, TraceIdCol) == Text(schema, r, TraceIdCol)
  }

  lemma {:induction false} RowLinksIff(schema: Schema, g: Gen, log: seq<Emission>, i: nat, j: nat)
    requires g.Ok() && Built(g, log) && i < |log| && j < |log|
    ensures TraceIdCol in Columns(schema) && SpanIdCol in Columns(schema) && ParentSpanId in Columns(schema)
    ensures RowLinks(schema, RowAt(schema, g, log, i), RowAt(schema, g, log, j))
       <==> log[i].span.parentId != 0 && LinksTo(log, i, j)
  {
    RowCells(schema, g, log, i);
    RowCells(schema, g, log, j);
    IdsBounded(g, log, i);
    IdsBounded(g, log, j);
    hide RowAt, Text, SpanHex, TraceHex, Columns;
    SpanHexInjective(log[i].span.parentId, log[j].span.spanId);
    SpanHexInjective(log[i].span.parentId, 0);
    TraceHexInjective(log[i].span.traceId, log[j].span.traceId);
  }

  lemma {:induction false} IdsBounded(g: Gen, log: seq<Emission>, i: nat)
    requires Built(g, log) && i < |log|
    ensures IdOk(log[i].span.traceId) && log[i].span.spanId < TWO_64 && log[i].span.parentId < TWO_64
  {
    assert SpanOk(g, log, i);
    if log[i].parentAt != -1 {
      assert SpanOk(g, log, log[i].parentAt);
    }
  }

  /** Rows of two spans carry the same ServiceName exactly when the same service emitted them. */
  lemma {:induction false} ServiceNameIdentifies(schema: Schema, g: Gen, log: seq<Emission>, i: nat, j: nat)
    requires g.Ok() && Built(g, log) && i < |log| && j < |log|
    ensures ServiceName in Columns(schema)
    ensures Text(schema, RowAt(schema, g, log, i), ServiceName) == Text(schema, RowAt(schema, g, log, j), ServiceName)
       <==> log[i].svc == log[j].svc
  {
    RowCells(schema, g, log, i);
    RowCells(schema, g, log, j);
    assert Described(g.cat.services[log[i].svc], log[i].svc);
    assert Described(g.cat.services[log[j].svc], log[j].svc);
    hide Valid, RowAt, Text;
    if Text(schema, RowAt(schema, g, log, i), ServiceName) == Text(schema, RowAt(schema, g, log, j), ServiceName) {
      Names.NamesInjective(log[i].svc, log[j].svc);
    }
  }

  /** The stored rows of a batch whose ids were drawn without an accident rebuild its forest: every row
      with a parent id has exactly one parent row, the row of the span it was emitted below, and the
      rows without one are the roots. */
  lemma {:induction false} RowsRebuildForest(schema: Schema, g: Gen, pos: nat, target: int)
    requires g.Ok() && FreshIds(FillBatch(g, pos, target).log)
    ensures var log := FillBatch(g, pos, target).log;
            && Built(g, log)
            && TraceIdCol in Columns(schema) && SpanIdCol in Columns(schema) && ParentSpanId in Columns(schema)
            && (forall i :: 0 <= i < |log| ==>
                 (Text(schema, RowAt(schema, g, log, i), ParentSpanId) == "" <==> log[i].parentAt == -1))
            && (forall i, j :: 0 <= i < |log| && 0 <= j < |log| ==>
                 (RowLinks(schema, RowAt(schema, g, log, i), RowAt(schema, g, log, j)) <==> j == log[i].parentAt))
  {
    hide Valid, FillBatch, RowAt, Text, SpanOk, Columns;
    var log := FillBatch(g, pos, target).log;
    BatchShape(g, pos, target);
    LinksRebuildForest(g, pos, target);
    PlainColumns(schema);
    forall i | 0 <= i < |log|
      ensures Text(schema, RowAt(schema, g, log, i), ParentSpanId) == "" <==> log[i].parentAt == -1
    {
      RowCells(schema, g, log, i);
      IdsBounded(g, log, i);
      SpanHexInjective(log[i].span.parentId, 0);
    }
    forall i, j | 0 <= i < |log| && 0 <= j < |log|
      ensures RowLinks(schema, RowAt(schema, g, log, i), RowAt(schema, g, log, j)) <==> j == log[i].parentAt
    {
      RowLinksIff(schema, g, log, i, j);
      if !IsRoot(log, i) {
        ParentLinked(g, log, i);
      }
    }
  }

  /** Row `r` among the stored rows: one row exactly is its parent's, if it has a parent id. */
  ghost predicate OneParent(schema: Schema, rows: seq<Row>, r: Row) {
    && TraceIdCol in Columns(schema) && SpanIdCol in Columns(schema) && ParentSpanId in Columns(schema)
    && (forall s :: s in rows || s == r ==> |s| == |Columns(schema)|)
    && (Text(schema, r, ParentSpanId) != "" ==>
         exists s :: s in rows && multiset(rows)[s] == 1 && RowLinks(schema, r, s)
                     && forall t :: t in rows && RowLinks(schema, r, t) ==> t == s)
  }

  lemma {:induction false} CountsOnce<T>(xs: seq<T>, i: nat)
    requires i < |xs| && forall j :: 0 <= j < |xs| && j != i ==> xs[j] != xs[i]
    ensures multiset(xs)[xs[i]] == 1
  {
    var before, after := xs[..i], xs[i + 1..];
    assert xs == before + [xs[i]] + after;
    assert forall j :: 0 <= j < |before| ==> before[j] != xs[i];
    assert forall j :: 0 <= j < |after| ==> after[j] != xs[i];
    assert xs[i] !in multiset(before) && xs[i] !in multiset(after);
  }

  lemma {:induction false} SameElements<T>(xs: seq<T>, ys: seq<T>, x: T)
    requires multiset(xs) == multiset(ys)
    ensures x in xs <==> x in ys
  {
    assert x in xs <==> x in multiset(xs);
    assert x in ys <==> x in multiset(ys);
  }

  /** Rows of different spans differ when the ids do. */
  lemma {:induction false} RowsDiffer(schema: Schema, g: Gen, log: seq<Emission>, i: nat, j: nat)
    requires g.Ok() && Built(g, log) && i < |log| && j < |log|
    requires log[i].span.spanId != log[j].span.spanId
    ensures RowAt(schema, g, log, i) != RowAt(schema, g, log, j)
  {
    RowCells(schema, g, log, i);
    RowCells(schema, g, log, j);
    IdsBounded(g, log, i);
    IdsBounded(g, log, j);
    hide Valid, RowAt, Text, SpanHex, Columns;
    SpanHexInjective(log[i].span.spanId, log[j].span.spanId);
  }

  /** The rows that a batch with fresh ids leaves in a table rebuild its forest: each row that shows a
      parent id has one parent row among them, and it is there once. */
  lemma {:induction false} StoredRowsRebuildForest(schema: Schema, g: Gen, pos: nat, target: int)
    requires g.Ok() && FreshIds(FillBatch(g, pos, target).log)
    ensures var log := FillBatch(g, pos, target).log;
            && Owned(g.cat, Grouped(log))
            && var td := StoredBatch(g.cat, Grouped(log));
            && TimedBatch(td)
            && var rows := BatchRows(schema, td);
            && Built(g, log)
            && (forall r :: r in rows ==> OneParent(schema, rows, r))
            && (forall i :: 0 <= i < |log| ==> RowAt(schema, g, log, i) in rows)
            && (forall r :: r in rows ==> exists i :: 0 <= i < |log| && r == RowAt(schema, g, log, i))
  {
    hide Valid, FillBatch, RowAt, Text, Columns, RowLinks, Encoder, BatchRows, TimedBatch, Owned, StoredBatch, Built,
         Flat, OneParent;
    var log := FillBatch(g, pos, target).log;
    StoredExactly(schema, g, pos, target);
    RowsRebuildForest(schema, g, pos, target);
    var rows := BatchRows(schema, StoredBatch(g.cat, Grouped(log)));
    var made := Emitted(log, Encoder(schema, g.cat));
    forall i | 0 <= i < |log| ensures made[i] == RowAt(schema, g, log, i) {
      RowIsEncoded(schema, g, log, i);
    }
    forall r ensures r in rows <==> r in made {
      SameElements(rows, made, r);
    }
    forall i, j | 0 <= i < |log| && 0 <= j < |log| && j != i ensures made[i] != made[j] {
      RowsDiffer(schema, g, log, i, j);
    }
    hide Emitted;
    forall r | r in rows ensures OneParent(schema, rows, r) {
      var i: nat :| i < |made| && made[i] == r;
      ParentRow(schema, g, log, rows, made, i);
    }
  }

  lemma {:induction false} ParentRow(schema: Schema, g: Gen, log: seq<Emission>, rows: seq<Row>, made: seq<Row>, i: nat)
    requires Built(g, log) && i < |log| == |made| && multiset(rows) == multiset(made)
    requires forall k :: 0 <= k < |log| ==> made[k] == RowAt(schema, g, log, k)
    requires forall j, k :: 0 <= j < |log| && 0 <= k < |log| && k != j ==> made[j] != made[k]
    requires TraceIdCol in Columns(schema) && SpanIdCol in Columns(schema) && ParentSpanId in Columns(schema)
    requires Text(schema, RowAt(schema, g, log, i), ParentSpanId) == "" <==> log[i].parentAt == -1
    requires forall j :: 0 <= j < |log| ==>
                           (RowLinks(schema, RowAt(schema, g, log, i), RowAt(schema, g, log, j)) <==>
                             j == log[i].parentAt)
    ensures OneParent(schema, rows, made[i])
  {
    hide RowAt, Text, Columns, RowLinks;
    forall r ensures r in rows <==> r in made {
      SameElements(rows, made, r);
    }
    var p := log[i].parentAt;
    if p != -1 {
      IdsBounded(g, log, i);
      assert SpanOk(g, log, i);
      hide Built, SpanOk;
      CountsOnce(made, p);
      assert made[p] in rows && multiset(rows)[made[p]] == 1;
    }
  }
}
