/** The rows that a run of the worker pool leaves in the store. */
module Stored {
  import opened Deliveries
  import opened Engine
  import opened Lifecycle
  import opened Rows
  import Catalog
  import ClickHouse
  import Grouping
  import Pipeline
  import Traces

  predicate Known(cfg: Config, id: BatchId) {
    id.w < |cfg.gens| && id.nth >= 1
  }

  /** What the worker generated as this batch: it does not depend on the schedule. */
  function LogOf(cfg: Config, id: BatchId): seq<Traces.Emission>
    requires cfg.Ok() && Known(cfg, id)
  {
    Filled(cfg, id.w, Progress(cfg, id.w, id.nth - 1)).log
  }

  /** The rows of the batch that is generated from a tape position. */
  function RowsFrom(schema: ClickHouse.Schema, g: Traces.Gen, pos: nat, target: nat): seq<Row>
    requires g.Ok()
  {
    var log := Traces.FillBatch(g, pos, target).log;
    Pipeline.StoredExactly(schema, g, pos, target);
    ClickHouse.BatchRows(schema, Grouping.StoredBatch(g.cat, Grouping.Grouped(log)))
  }

  function RowsOf(schema: ClickHouse.Schema, cfg: Config, id: BatchId): seq<Row>
    requires cfg.Ok() && Known(cfg, id)
  {
    RowsFrom(schema, cfg.gens[id.w], Progress(cfg, id.w, id.nth - 1), cfg.batch)
  }

  /** A stored batch is one row for each span that the worker generated for it. */
  lemma {:induction false} RowsOfBatch(schema: ClickHouse.Schema, cfg: Config, id: BatchId)
    requires cfg.Ok() && Known(cfg, id)
    ensures |RowsOf(schema, cfg, id)| == cfg.batch
    ensures multiset(RowsOf(schema, cfg, id))
         == multiset(Grouping.Emitted(LogOf(cfg, id), Pipeline.Encoder(schema, cfg.gens[id.w].cat)))
  {
    hide Catalog.Valid, Traces.FillBatch, Grouping.Emitted, Grouping.Flat, ClickHouse.BatchRows, ClickHouse.TimedBatch;
    hide Grouping.StoredBatch, Grouping.Owned, Pipeline.Encoder;
    Pipeline.StoredExactly(schema, cfg.gens[id.w], Progress(cfg, id.w, id.nth - 1), cfg.batch);
  }

  ghost predicate AllKnown(cfg: Config, ids: seq<BatchId>) {
    forall id :: id in ids ==> Known(cfg, id)
  }

  /** The rows of all batches that landed, in the order in which they did. */
  function TableRows(schema: ClickHouse.Schema, cfg: Config, ids: seq<BatchId>): seq<Row>
    requires cfg.Ok() && AllKnown(cfg, ids)
  {
    if ids == [] then [] else TableRows(schema, cfg, ids[..|ids| - 1]) + RowsOf(schema, cfg, ids[|ids| - 1])
  }

  lemma {:induction false} TableSize(schema: ClickHouse.Schema, cfg: Config, ids: seq<BatchId>)
    requires cfg.Ok() && AllKnown(cfg, ids)
    ensures |TableRows(schema, cfg, ids)| == cfg.batch * |ids|
  {
    hide RowsOf, LogOf, Catalog.Valid, Grouping.Emitted, Pipeline.Encoder;
    if ids == [] {
    } else {
      var n := |ids| - 1;
      TableSize(schema, cfg, ids[..n]);
      RowsOfBatch(schema, cfg, ids[n]);
      assert cfg.batch * (n + 1) == cfg.batch * n + cfg.batch;
    }
  }

  lemma {:induction false} LandedKnown(cfg: Config, run: seq<State>, i: nat)
    requires cfg.Ok() && Run(cfg, run) && i < |run|
    ensures AllKnown(cfg, run[i].g.landed)
  {
    StoreAlways(cfg, run, i);
    forall id | id in run[i].g.landed ensures Known(cfg, id) {
      AtMostTwice(cfg, run, i, id.w, id.nth);
      hide Run;
      assert BatchId(id.w, id.nth) == id;
      assert Copies(run[i].g.landed, id.w, id.nth) > 0;
    }
  }

  /** After any run and under every schedule: the rows in the store are as many as the spans counted as
      sent, plus a second copy for each insert that landed although it was reported as an error. If
      there is none of these, they are exactly the rows of the confirmed batches, each stored once. */
  lemma {:induction false} RowsAtRest(schema: ClickHouse.Schema, cfg: Config, run: seq<State>, i: nat)
    requires cfg.Ok() && Run(cfg, run) && i < |run| && AllDone(run[i])
    ensures AllKnown(cfg, run[i].g.landed)
    ensures var g := run[i].g; var rows := TableRows(schema, cfg, g.landed);
            && |rows| == g.sent + cfg.batch * |g.unconfirmed| <= 2 * (g.sent + g.errors)
            && (g.unconfirmed == [] <==> |rows| == g.sent)
            && (g.unconfirmed == [] ==> forall j, k :: 0 <= j < k < |g.landed| ==> g.landed[j] != g.landed[k])
  {
    hide TableRows;
    LandedKnown(cfg, run, i);
    StoreAtRest(cfg, run, i);
    var g := run[i].g;
    TableSize(schema, cfg, g.landed);
    if g.unconfirmed == [] {
      forall j, k | 0 <= j < k < |g.landed| ensures g.landed[j] != g.landed[k] {
        OnceIfConfirmed(cfg, run, i, j, k);
      }
    } else {
      Deliveries.Grows(cfg.batch, 1, |g.unconfirmed|);
    }
  }

  lemma {:induction false} OnceIfConfirmed(cfg: Config, run: seq<State>, i: nat, j: nat, k: nat)
    requires cfg.Ok() && Run(cfg, run) && i < |run|
    requires run[i].g.unconfirmed == [] && j < k < |run[i].g.landed|
    ensures run[i].g.landed[j] != run[i].g.landed[k]
  {
    var xs := run[i].g.landed;
    var id := xs[k];
    AtMostTwice(cfg, run, i, id.w, id.nth);
    hide Run;
    assert BatchId(id.w, id.nth) == id;
    TwoCopies(xs, j, k);
  }

  lemma {:induction false} TwoCopies(xs: seq<BatchId>, j: nat, k: nat)
    requires j < k < |xs|
    ensures xs[j] == xs[k] ==> multiset(xs)[xs[k]] >= 2
  {
    assert xs == xs[..k] + xs[k..];
    assert xs[..k][j] == xs[j] && xs[k..][0] == xs[k];
    assert xs[j] in multiset(xs[..k]) && xs[k] in multiset(xs[k..]);
  }
}
