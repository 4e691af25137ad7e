/** What the tables say after a whole run: the rows of all batches together. */
module Tables {
  import opened ClickHouse
  import opened Engine
  import opened Pipeline
  import opened Rows
  import opened Stored
  import Catalog
  import Deliveries
  import Forest
  import Grouping
  import Hex
  import Oracle
  import Shape
  import Traces

  /** Ids without an accident: fresh within each batch that landed, and no span id in two of them. */
  ghost predicate IdsApart(cfg: Config, ids: seq<BatchId>)
    requires cfg.Ok() && AllKnown(cfg, ids)
  {
    && (forall id :: id in ids ==> Forest.FreshIds(LogOf(cfg, id)))
    && (forall id, jd :: id in ids && jd in ids && id != jd ==> NoCommonId(LogOf(cfg, id), LogOf(cfg, jd)))
  }

  ghost predicate NoCommonId(log: seq<Traces.Emission>, other: seq<Traces.Emission>) {
    forall i, j :: 0 <= i < |log| && 0 <= j < |other| ==> log[i].span.spanId != other[j].span.spanId
  }

  /** Row `r` shows the ids of entry `i` of a log. */
  ghost predicate Shows(schema: Schema, log: seq<Traces.Emission>, r: Row, i: nat) {
    && i < |log| && |r| == |Columns(schema)|
    && SpanIdCol in Columns(schema)
    && log[i].span.spanId < Oracle.TWO_64
    && Text(schema, r, SpanIdCol) == Hex.SpanHex(log[i].span.spanId)
  }

  /** The rows of one batch: each has its parent among them, and shows one of the batch's spans. */
  lemma {:induction false} BatchRebuilds(schema: Schema, cfg: Config, id: BatchId)
    requires cfg.Ok() && Known(cfg, id) && Forest.FreshIds(LogOf(cfg, id))
    ensures var rows := RowsOf(schema, cfg, id);
            forall r :: r in rows ==> OneParent(schema, rows, r) && exists i :: Shows(schema, LogOf(cfg, id), r, i)
  {
    hide Catalog.Valid, Traces.FillBatch, BatchRows, TimedBatch, Grouping.StoredBatch, Grouping.Owned, Grouping.Grouped;
    hide OneParent, Text, RowAt, Columns, Shape.Built, Shows;
    var g, pos := cfg.gens[id.w], Deliveries.Progress(cfg, id.w, id.nth - 1);
    var log := LogOf(cfg, id);
    StoredRowsRebuildForest(schema, g, pos, cfg.batch);
    var rows := RowsOf(schema, cfg, id);
    assert rows == BatchRows(schema, Grouping.StoredBatch(g.cat, Grouping.Grouped(log)));
    forall r | r in rows ensures OneParent(schema, rows, r) && exists i :: Shows(schema, log, r, i) {
      var i :| 0 <= i < |log| && r == RowAt(schema, g, log, i);
      ShowsEntry(schema, g, log, i);
      assert Shows(schema, log, r, i);
    }
  }

  lemma {:induction false} ShowsEntry(schema: Schema, g: Traces.Gen, log: seq<Traces.Emission>, i: nat)
    requires g.Ok() && Shape.Built(g, log) && i < |log|
    ensures Shows(schema, log, RowAt(schema, g, log, i), i)
  {
    RowCells(schema, g, log, i);
    IdsBounded(g, log, i);
    hide Catalog.Valid, RowAt, Text, Columns, Shape.Built;
  }

  lemma {:induction false} TextsApart(schema: Schema, log: seq<Traces.Emission>, other: seq<Traces.Emission>, r: Row,
                                      t: Row, i: nat, j: nat)
    requires NoCommonId(log, other) && Shows(schema, log, r, i) && Shows(schema, other, t, j)
    ensures Text(schema, r, SpanIdCol) != Text(schema, t, SpanIdCol)
  {
    hide Text, Columns, Hex.SpanHex;
    Hex.SpanHexInjective(log[i].span.spanId, other[j].span.spanId);
  }

  /** Rows of different batches are different, and no link leads from one batch to another. */
  lemma {:induction false} RowsApart(schema: Schema, cfg: Config, ids: seq<BatchId>, id: BatchId, jd: BatchId,
                                     r: Row, t: Row)
    requires cfg.Ok() && AllKnown(cfg, ids) && IdsApart(cfg, ids)
    requires id in ids && jd in ids && id != jd
    requires r in RowsOf(schema, cfg, id) && t in RowsOf(schema, cfg, jd)
    ensures r != t
    ensures |r| == |t| == |Columns(schema)|
    ensures TraceIdCol in Columns(schema) && SpanIdCol in Columns(schema) && ParentSpanId in Columns(schema)
    ensures !RowLinks(schema, r, t)
  {
    hide Catalog.Valid, LogOf, RowsOf, Text, Columns, Shows, Forest.FreshIds, NoCommonId;
    BatchRebuilds(schema, cfg, id);
    BatchRebuilds(schema, cfg, jd);
    var log, other := LogOf(cfg, id), LogOf(cfg, jd);
    var j: nat :| Shows(schema, other, t, j);
    var i: nat :| Shows(schema, log, r, i);
    assert OneParent(schema, RowsOf(schema, cfg, id), r);
    assert OneParent(schema, RowsOf(schema, cfg, jd), t);
    TextsApart(schema, log, other, r, t, i, j);
    if Text(schema, r, ParentSpanId) != "" {
      var s :| s in RowsOf(schema, cfg, id) && RowLinks(schema, r, s);
      var k: nat :| Shows(schema, log, s, k);
      TextsApart(schema, log, other, s, t, k, j);
    }
  }

  lemma {:induction false} InTable(schema: Schema, cfg: Config, ids: seq<BatchId>, r: Row)
    requires cfg.Ok() && AllKnown(cfg, ids)
    ensures r in TableRows(schema, cfg, ids) <==> exists id :: id in ids && r in RowsOf(schema, cfg, id)
  {
    hide Catalog.Valid, RowsOf;
    if ids == [] {
    } else {
      var n := |ids| - 1;
      InTable(schema, cfg, ids[..n], r);
      assert ids == ids[..n] + [ids[n]];
    }
  }

  /** A row of one batch only is in the table as often as that batch landed. */
  lemma {:induction false} TableCopies(schema: Schema, cfg: Config, ids: seq<BatchId>, id: BatchId, s: Row)
    requires cfg.Ok() && AllKnown(cfg, ids) && Known(cfg, id)
    requires multiset(RowsOf(schema, cfg, id))[s] == 1
    requires forall jd :: jd in ids && jd != id ==> s !in RowsOf(schema, cfg, jd)
    ensures multiset(TableRows(schema, cfg, ids))[s] == multiset(ids)[id]
  {
    hide Catalog.Valid, RowsOf;
    if ids == [] {
    } else {
      var n := |ids| - 1;
      TableCopies(schema, cfg, ids[..n], id, s);
      assert ids == ids[..n] + [ids[n]];
      assert s !in RowsOf(schema, cfg, ids[n]) ==> multiset(RowsOf(schema, cfg, ids[n]))[s] == 0;
    }
  }

  lemma {:induction false} OneParentInTable(schema: Schema, cfg: Config, ids: seq<BatchId>, id: BatchId, r: Row)
    requires cfg.Ok() && AllKnown(cfg, ids) && IdsApart(cfg, ids)
    requires id in ids && multiset(ids)[id] == 1 && r in RowsOf(schema, cfg, id)
    requires forall t :: t in TableRows(schema, cfg, ids) ==> |t| == |Columns(schema)|
    ensures OneParent(schema, TableRows(schema, cfg, ids), r)
  {
    hide Catalog.Valid, LogOf, RowsOf, TableRows, Text, Columns, RowLinks, IdsApart;
    var rows, all := RowsOf(schema, cfg, id), TableRows(schema, cfg, ids);
    assert Forest.FreshIds(LogOf(cfg, id)) by { FreshBatch(cfg, ids, id); }
    BatchRebuilds(schema, cfg, id);
    assert OneParent(schema, rows, r);
    if Text(schema, r, ParentSpanId) != "" {
      var s :| s in rows && multiset(rows)[s] == 1 && RowLinks(schema, r, s)
               && forall t :: t in rows && RowLinks(schema, r, t) ==> t == s;
      forall jd | jd in ids && jd != id ensures s !in RowsOf(schema, cfg, jd) {
        if s in RowsOf(schema, cfg, jd) {
          RowsApart(schema, cfg, ids, id, jd, s, s);
        }
      }
      TableCopies(schema, cfg, ids, id, s);
      InTable(schema, cfg, ids, s);
      forall t | t in all && RowLinks(schema, r, t) ensures t == s {
        InTable(schema, cfg, ids, t);
        var jd :| jd in ids && t in RowsOf(schema, cfg, jd);
        if jd != id {
          RowsApart(schema, cfg, ids, id, jd, r, t);
        }
      }
    }
  }

  lemma {:induction false} FreshBatch(cfg: Config, ids: seq<BatchId>, id: BatchId)
    requires cfg.Ok() && AllKnown(cfg, ids) && IdsApart(cfg, ids) && id in ids
    ensures Forest.FreshIds(LogOf(cfg, id))
  {
    hide Catalog.Valid, LogOf, Forest.FreshIds, NoCommonId;
  }

  lemma {:induction false} RowWidth(schema: Schema, cfg: Config, ids: seq<BatchId>, t: Row)
    requires cfg.Ok() && AllKnown(cfg, ids) && IdsApart(cfg, ids) && t in TableRows(schema, cfg, ids)
    ensures |t| == |Columns(schema)|
  {
    hide Catalog.Valid, LogOf, RowsOf, TableRows, Text, Columns, IdsApart, RowLinks, Shows;
    InTable(schema, cfg, ids, t);
    var id :| id in ids && t in RowsOf(schema, cfg, id);
    FreshBatch(cfg, ids, id);
    BatchRebuilds(schema, cfg, id);
    assert OneParent(schema, RowsOf(schema, cfg, id), t);
  }

  /** After any run without unconfirmed inserts, if the ids that landed are apart: every row in the tables
      that shows a parent id has exactly one parent row in all tables, and it is there once. */
  lemma {:induction false} TablesRebuildForests(schema: Schema, cfg: Config, run: seq<State>, i: nat)
    requires cfg.Ok() && Run(cfg, run) && i < |run| && run[i].g.unconfirmed == []
    requires AllKnown(cfg, run[i].g.landed) && IdsApart(cfg, run[i].g.landed)
    ensures var all := TableRows(schema, cfg, run[i].g.landed);
            forall r :: r in all ==> OneParent(schema, all, r)
  {
    hide Catalog.Valid, LogOf, RowsOf, TableRows, Columns, IdsApart, OneParent, Run;
    var ids := run[i].g.landed;
    var all := TableRows(schema, cfg, ids);
    forall t | t in all ensures |t| == |Columns(schema)| {
      RowWidth(schema, cfg, ids, t);
    }
    forall r | r in all ensures OneParent(schema, all, r) {
      InTable(schema, cfg, ids, r);
      var id :| id in ids && r in RowsOf(schema, cfg, id);
      Deliveries.AtMostTwice(cfg, run, i, id.w, id.nth);
      assert BatchId(id.w, id.nth) == id;
      OneParentInTable(schema, cfg, ids, id, r);
    }
  }
}
