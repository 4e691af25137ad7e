/** The two table schemas store the same data. */
module Schemas {
  import opened Oracle
  import opened Telemetry
  import opened Hex
  import opened Rows

  /** The place of a column in a column list, or the length of the list. */
  function Find(cols: seq<Column>, c: Column): (k: nat)
    ensures k <= |cols|
    ensures k < |cols| ==> cols[k] == c
  {
    if cols == [] || cols[0] == c then 0 else 1 + Find(cols[1..], c)
  }

  lemma {:induction false} FindPresent(cols: seq<Column>, k: nat)
    requires k < |cols|
    ensures Find(cols, cols[k]) <= k
  {
    if cols[0] != cols[k] {
      FindPresent(cols[1..], k - 1);
    }
  }

  /** Reads a positional row back through its column list. */
  function Cell(cols: seq<Column>, row: Row, c: Column): Value
    requires |row| == |cols| && c in cols
  {
    FindInside(cols, c);
    row[Find(cols, c)]
  }

  lemma {:induction false} FindInside(cols: seq<Column>, c: Column)
    requires c in cols
    ensures Find(cols, c) < |cols|
  {
    var k :| 0 <= k < |cols| && cols[k] == c;
    FindPresent(cols, k);
  }

  lemma {:induction false} CellOfMapRow(sp: Span, x: Context, c: Column)
    requires Timed(sp) && c in MAP_COLUMNS
    ensures Cell(MAP_COLUMNS, MapRow(sp, x), c) == MapCell(c, sp, x)
  {
    hide MAP_COLUMNS, MapCell;
    FindInside(MAP_COLUMNS, c);
  }

  lemma {:induction false} CellOfJsonRow(printer: Printer, sp: Span, x: Context, c: Column)
    requires Timed(sp) && c in JSON_COLUMNS
    ensures Cell(JSON_COLUMNS, JsonRow(printer, sp, x), c) == JsonCell(printer, c, sp, x)
  {
    hide JSON_COLUMNS, JsonCell;
    FindInside(JSON_COLUMNS, c);
  }

  /** Both lists name every column once; only the JSON schema stores scope attributes. */
  lemma {:induction false} ColumnLists()
    ensures forall c :: c in JSON_COLUMNS
    ensures forall c :: c in MAP_COLUMNS <==> c != ScopeAttributes
    ensures |MAP_COLUMNS| == 22 && |JSON_COLUMNS| == 23
  {
    forall c ensures c in HEAD_COLUMNS || c in JSON_STATUS || c in JSON_CONTEXT || c in JSON_NESTED { InJson(c); }
    forall c ensures c == ScopeAttributes || c in HEAD_COLUMNS || c in MAP_REST || c in MAP_NESTED { InMap(c); }
    NoScopeAttributes();
  }

  lemma {:induction false} NoScopeAttributes()
    ensures ScopeAttributes !in HEAD_COLUMNS && ScopeAttributes !in MAP_REST && ScopeAttributes !in MAP_NESTED
  {
  }

  lemma {:induction false} InJson(c: Column)
    ensures c in HEAD_COLUMNS || c in JSON_STATUS || c in JSON_CONTEXT || c in JSON_NESTED
  {
    assert HEAD_COLUMNS[0] == Timestamp && JSON_STATUS[0] == Duration;
    assert JSON_CONTEXT[0] == ResourceAttributes && JSON_NESTED[0] == LinksTraceId;
  }

  lemma {:induction false} InMap(c: Column)
    ensures c == ScopeAttributes || c in HEAD_COLUMNS || c in MAP_REST || c in MAP_NESTED
  {
    assert HEAD_COLUMNS[0] == Timestamp && MAP_REST[0] == ResourceAttributes && MAP_NESTED[0] == EventsTimestamp;
  }

  /** `w` stores in the JSON schema what `v` stores in the map schema. */
  ghost predicate SameDatum(printer: Printer, v: Value, w: Value) {
    match v
    case VMap(m) => w == VText(JsonAttr(printer, m))
    case VMaps(ms) => w == VTexts(Printed(printer, ms))
    case VUInt(u) => w == VInt(u)
    case _ => w == v
  }

  /** Read back through their column lists, both rows of a span store the same datum in every column
      that both schemas have, exactly when the span's duration fits in 63 bits. */
  lemma {:induction false} SchemasAgreeIff(printer: Printer, sp: Span, x: Context)
    requires Timed(sp)
    ensures (forall c :: c in MAP_COLUMNS && c in JSON_COLUMNS ==>
               SameDatum(printer, Cell(MAP_COLUMNS, MapRow(sp, x), c), Cell(JSON_COLUMNS, JsonRow(printer, sp, x), c)))
       <==> SubU64(sp.end, sp.start) < TWO_63
  {
    ColumnLists();
    hide MAP_COLUMNS, JSON_COLUMNS, MapRow, JsonRow, Cell, SubU64;
    forall c | c in MAP_COLUMNS && c in JSON_COLUMNS
      ensures SameDatum(printer, Cell(MAP_COLUMNS, MapRow(sp, x), c), Cell(JSON_COLUMNS, JsonRow(printer, sp, x), c))
         <==> c == Duration ==> SubU64(sp.end, sp.start) < TWO_63
    {
      CellOfMapRow(sp, x, c);
      CellOfJsonRow(printer, sp, x, c);
      CellsAgreeIff(printer, sp, x, c);
    }
    assert Duration in MAP_COLUMNS;
  }

  lemma {:induction false} CellsAgreeIff(printer: Printer, sp: Span, x: Context, c: Column)
    requires Timed(sp) && c != ScopeAttributes
    ensures SameDatum(printer, MapCell(c, sp, x), JsonCell(printer, c, sp, x))
       <==> c == Duration ==> SubU64(sp.end, sp.start) < TWO_63
  {
  }

  /** In particular a span that ends after it starts keeps its true duration in both schemas. */
  lemma {:induction false} DurationKept(printer: Printer, sp: Span, x: Context)
    requires Timed(sp)
    ensures Cell(MAP_COLUMNS, MapRow(sp, x), Duration).VUInt?
    ensures sp.start + Cell(MAP_COLUMNS, MapRow(sp, x), Duration).u == sp.end <==> sp.start <= sp.end
    ensures sp.start <= sp.end < sp.start + TWO_63 ==>
              Cell(JSON_COLUMNS, JsonRow(printer, sp, x), Duration) == VInt(sp.end - sp.start)
  {
    ColumnLists();
    CellOfMapRow(sp, x, Duration);
    CellOfJsonRow(printer, sp, x, Duration);
  }

  /** The parallel link arrays determine the links: nothing is lost in splitting them up. */
  lemma {:induction false} LinksRecovered(ls: seq<Link>, ms: seq<Link>)
    requires forall l :: l in ls || l in ms ==> IdOk(l.traceId) && l.spanId < TWO_64
    requires LinkTraceIds(ls) == LinkTraceIds(ms) && LinkSpanIds(ls) == LinkSpanIds(ms)
    requires LinkStates(ls) == LinkStates(ms) && LinkMaps(ls) == LinkMaps(ms)
    ensures ls == ms
  {
    hide TraceHex, SpanHex, IdOk;
    assert |ls| == |LinkMaps(ls)| == |LinkMaps(ms)| == |ms|;
    forall i | 0 <= i < |ls| ensures ls[i] == ms[i] {
      assert LinkTraceIds(ls)[i] == LinkTraceIds(ms)[i] && LinkSpanIds(ls)[i] == LinkSpanIds(ms)[i];
      assert LinkStates(ls)[i] == LinkStates(ms)[i] && LinkMaps(ls)[i] == LinkMaps(ms)[i];
      TraceHexInjective(ls[i].traceId, ms[i].traceId);
      SpanHexInjective(ls[i].spanId, ms[i].spanId);
    }
  }

  /** The parallel event arrays determine the events. */
  lemma {:induction false} EventsRecovered(es: seq<Event>, fs: seq<Event>)
    requires EventTimes(es) == EventTimes(fs) && EventNames(es) == EventNames(fs) && EventMaps(es) == EventMaps(fs)
    ensures es == fs
  {
    assert |es| == |EventMaps(es)| == |EventMaps(fs)| == |fs|;
    forall i | 0 <= i < |es| ensures es[i] == fs[i] {
      assert EventTimes(es)[i] == EventTimes(fs)[i] && EventNames(es)[i] == EventNames(fs)[i];
      assert EventMaps(es)[i] == EventMaps(fs)[i];
    }
  }
}
