/** A worker as the source writes it: its loop, its retries, and what they do to counters and tables. */
module Work {
  import opened Alone
  import opened ClickHouse
  import opened Engine
  import opened Pool
  import opened Rows
  import opened Stored
  import opened Telemetry
  import Catalog
  import Conservation
  import Deliveries
  import Gen = Generator
  import Grouping
  import Pipeline
  import Traces

  // ---- the tables of all shards ----

  function AllRows(tables: seq<seq<Row>>): multiset<Row> {
    if tables == [] then multiset{} else AllRows(tables[..|tables| - 1]) + multiset(tables[|tables| - 1])
  }

  lemma {:induction false} AllRowsUpdate(tables: seq<seq<Row>>, i: nat, rows: seq<Row>)
    requires i < |tables|
    ensures AllRows(tables[i := tables[i] + rows]) == AllRows(tables) + multiset(rows)
  {
    var n := |tables| - 1;
    var r := tables[i := tables[i] + rows];
    if i == n {
      assert r[..n] == tables[..n];
    } else {
      assert r[..n] == tables[..n][i := tables[i] + rows];
      AllRowsUpdate(tables[..n], i, rows);
    }
  }

  /** The rows in all tables once an attempt with this reply was made. */
  function Inserted(all: multiset<Row>, rows: seq<Row>, reply: Reply): multiset<Row> {
    if reply.Failure? then all else all + multiset(rows)
  }

  function RowsAfterSend(all: multiset<Row>, rows: seq<Row>, stopping: bool, first: Reply,
                         second: Reply): multiset<Row> {
    var once := Inserted(all, rows, first);
    if first.Success? || stopping then once else Inserted(once, rows, second)
  }

  function ReplyOf(outcome: Outcome, n: nat): Reply {
    if Succeeds(outcome, n) then Success else if Lands(outcome, n) then Unconfirmed else Failure
  }

  // ---- the source's methods ----

  /** What one send changes in the tables of all shards. */
  method Transmit(sink: ChSink, td: seq<ResourceSpans>, outcome: Outcome) returns (reply: Reply)
    requires sink.Valid() && TimedBatch(td)
    modifies sink
    ensures sink.Valid()
    ensures var rows := BatchRows(sink.schema, td);
            && reply == ReplyOf(outcome, |rows|)
            && AllRows(sink.tables) == Inserted(old(AllRows(sink.tables)), rows, reply)
  {
    hide TimedBatch, BatchRows, AllRows, Succeeds, Lands;
    var rows := BatchRows(sink.schema, td);
    ghost var before := sink.tables;
    var ok := sink.Send(td, outcome);
    LandsIfSucceeds(outcome, |rows|);
    AllRowsUpdate(before, sink.picked[|sink.picked| - 1], rows);
    reply := if ok then Success else ReplyOf(outcome, |rows|);
  }

  /** One insert attempt: its latency is observed, and an error is counted. */
  method Try(pool: Pool, sink: ChSink, td: seq<ResourceSpans>, id: BatchId, outcome: Outcome) returns (ok: bool)
    requires sink.Valid() && TimedBatch(td)
    modifies pool, pool.met, sink
    ensures sink.Valid()
    ensures var rows := BatchRows(sink.schema, td); var reply := ReplyOf(outcome, |rows|);
            && ok == reply.Success?
            && pool.Now() == State(Attempted(old(pool.Now()).g, id, reply), old(pool.workers))
            && AllRows(sink.tables) == Inserted(old(AllRows(sink.tables)), rows, reply)
  {
    hide TimedBatch, BatchRows, AllRows, ReplyOf, Inserted;
    var reply := Transmit(sink, td, outcome);
    ok := reply.Success?;
    pool.Insert(id, reply);
    pool.met.observed := pool.met.observed + 1;
    if !ok {
      pool.met.sendErrors := pool.met.sendErrors + 1;
    }
  }

  method CountSent(pool: Pool, n: nat)
    modifies pool, pool.met
    ensures pool.Now() == State(Left(Settled(old(pool.Now()).g, n, true)), old(pool.workers))
  {
    pool.met.batchesOk := pool.met.batchesOk + 1;
    pool.met.spansSent := pool.met.spansSent + n;
    pool.sent := pool.sent + n;
    pool.met.inflight := pool.met.inflight - 1;
  }

  method CountDropped(pool: Pool, n: nat)
    modifies pool, pool.met
    ensures pool.Now() == State(Left(Settled(old(pool.Now()).g, n, false)), old(pool.workers))
  {
    pool.met.batchesErr := pool.met.batchesErr + 1;
    pool.met.dropped := pool.met.dropped + n;
    pool.errors := pool.errors + n;
    pool.met.inflight := pool.met.inflight - 1;
  }

  /** Counters and rows of a send in progress, after `k` failed attempts. */
  ghost predicate Tried(k: nat, now: Shared, all: multiset<Row>, g: Shared, before: multiset<Row>,
                        id: BatchId, rows: seq<Row>, first: Reply, second: Reply) {
    match k
    case 0 => now == g && all == before
    case 1 => !first.Success? && now == Attempted(g, id, first) && all == Inserted(before, rows, first)
    case _ =>
      && !first.Success? && !second.Success?
      && now == Attempted(Attempted(g, id, first), id, second)
      && all == Inserted(Inserted(before, rows, first), rows, second)
  }

  /** Sends a batch of `n` spans, once more after an error unless the run is being stopped; counts it
      as sent or as dropped. */
  method Send(pool: Pool, sink: ChSink, td: seq<ResourceSpans>, id: BatchId, n: nat, outcomes: seq<Outcome>)
    requires sink.Valid() && TimedBatch(td) && |BatchRows(sink.schema, td)| == n
    requires |outcomes| == SEND_ATTEMPTS
    modifies pool, pool.met, sink
    ensures sink.Valid()
    ensures var rows := BatchRows(sink.schema, td);
            var first, second := ReplyOf(outcomes[0], n), ReplyOf(outcomes[1], n);
            && pool.Now() == State(AfterSend(old(pool.Now()).g, id, n, first, second), old(pool.workers))
            && AllRows(sink.tables)
               == RowsAfterSend(old(AllRows(sink.tables)), rows, old(pool.cancelled), first, second)
  {
    hide TimedBatch, BatchRows, AllRows, ReplyOf, Settled, Inserted;
    pool.met.inflight := pool.met.inflight + 1;
    ghost var g := pool.Now().g;
    ghost var before, rows := AllRows(sink.tables), BatchRows(sink.schema, td);
    ghost var first, second := ReplyOf(outcomes[0], n), ReplyOf(outcomes[1], n);
    var attempt := 0;
    while attempt < SEND_ATTEMPTS
      invariant 0 <= attempt <= SEND_ATTEMPTS
      invariant sink.Valid() && pool.workers == old(pool.workers)
      invariant Tried(attempt, pool.Now().g, AllRows(sink.tables), g, before, id, rows, first, second)
      invariant attempt > 0 ==> !g.cancelled
    {
      var ok := Try(pool, sink, td, id, outcomes[attempt]);
      if ok {
        CountSent(pool, n);
        LeftSend(old(pool.Now()).g, id, n, first, second);
        return;
      }
      if pool.cancelled {
        break;
      }
      attempt := attempt + 1;
    }
    CountDropped(pool, n);
    LeftSend(old(pool.Now()).g, id, n, first, second);
  }

  lemma {:induction false} LandsIfSucceeds(outcome: Outcome, n: nat)
    ensures Succeeds(outcome, n) ==> Lands(outcome, n)
  {
  }

  // ---- one pass of the worker's loop ----

  /** What the limiter and the store answer during one pass. */
  datatype Answers = Answers(granted: bool, first: Outcome, second: Outcome)

  /** A wait is granted unless the batch exceeds the burst or the context is cancelled meanwhile. */
  function WaitReply(cfg: Config, w: nat, g: Shared, n: nat, granted: bool): (reply: Reply)
    requires w < |cfg.gens|
    ensures WaitMay(cfg, w, g, n, reply)
  {
    if n <= Burst(cfg, w) && (granted || !g.cancelled) then Success else Failure
  }

  /** Worker, pool and generator belong together. */
  ghost predicate Matches(pool: Pool, w: nat, gen: Gen.Generator)
    reads pool, gen, gen.rng
  {
    && pool.cfg.Ok() && w < |pool.workers| == |pool.cfg.gens|
    && gen.g == pool.cfg.gens[w] && gen.Ok()
    && gen.rng.pos == pool.workers[w].pos == Deliveries.Progress(pool.cfg, w, pool.workers[w].filled)
  }

  /** The pass that worker `w` makes from here with these answers. */
  ghost function Pass(cfg: Config, w: nat, s: State, answers: Answers): (Shared, Worker)
    requires cfg.Ok() && w < |s.ws| == |cfg.gens|
  {
    var n := cfg.batch;
    AfterTurn(cfg, w, s.g, s.ws[w], WaitReply(cfg, w, AfterFill(cfg, s.g, n), n, answers.granted),
              ReplyOf(answers.first, n), ReplyOf(answers.second, n))
  }

  /** The rows in all tables after a pass that led worker `w` to `t`: those of its batch were added if it
      came to the send. */
  ghost function RowsAfterPass(schema: Schema, cfg: Config, w: nat, t: Worker, answers: Answers,
                               all: multiset<Row>): multiset<Row>
    requires cfg.Ok() && w < |cfg.gens|
  {
    if t.pc.CtxCheck? && t.filled >= 1 then
      RowsAfterSend(all, RowsOf(schema, cfg, BatchId(w, t.filled)), false,
                    ReplyOf(answers.first, cfg.batch), ReplyOf(answers.second, cfg.batch))
    else all
  }

  method Count(pool: Pool, n: nat)
    modifies pool, pool.met
    ensures pool.Now() == State(AfterFill(pool.cfg, old(pool.Now()).g, n), old(pool.workers))
  {
    if pool.cfg.maxSpans > 0 {
      pool.generated := pool.generated + n;
      if pool.generated >= pool.cfg.maxSpans {
        pool.cancelled := true;
      }
    } else {
      pool.generated := pool.generated + n;
    }
    pool.met.spansGenerated := pool.met.spansGenerated + n;
  }

  /** Generates the next batch of worker `w`; its rows are those of the batch's number. */
  method FillNext(pool: Pool, w: nat, gen: Gen.Generator, schema: Schema) returns (td: seq<ResourceSpans>, n: nat)
    requires Matches(pool, w, gen)
    modifies gen, gen.rng
    ensures n == pool.cfg.batch && gen.Ok()
    ensures var b := Filled(pool.cfg, w, pool.workers[w].pos); n == |b.log| && gen.rng.pos == b.pos
    ensures gen.rng.pos == Deliveries.Progress(pool.cfg, w, pool.workers[w].filled + 1)
    ensures TimedBatch(td)
    ensures BatchRows(schema, td) == RowsOf(schema, pool.cfg, BatchId(w, pool.workers[w].filled + 1))
    ensures |BatchRows(schema, td)| == n
  {
    hide Catalog.Valid, TimedBatch, BatchRows, Grouping.StoredBatch, Grouping.Owned, Grouping.Emitted, Grouping.Flat;
    hide Pipeline.Encoder, Traces.FillBatch;
    Pipeline.StoredExactly(schema, gen.g, gen.rng.pos, pool.cfg.batch);
    var batch := new Gen.TraceData();
    n := gen.FillBatch(batch, pool.cfg.batch);
    td := batch.View();
  }

  /** Leaves the loop with a batch of `lost` spans in hand. */
  method Stop(pool: Pool, w: nat, t: Worker, lost: nat)
    requires w < |pool.workers|
    modifies pool
    ensures pool.Now() == State(old(pool.Now()).g, old(pool.workers)[w := t.(pc := Done(lost))])
  {
    pool.workers := pool.workers[w := t.(pc := Done(lost))];
  }

  /** One pass of the loop of worker `w`. It does what its steps in the step system do, and adds the rows
      of the batch to the tables once for each attempt that landed. */
  method Turn(pool: Pool, w: nat, gen: Gen.Generator, sink: ChSink, answers: Answers) returns (again: bool)
    requires Matches(pool, w, gen) && sink.Valid()
    requires pool.workers[w].pc.CtxCheck?
    modifies pool, pool.met, gen, gen.rng, sink
    ensures var after := Pass(pool.cfg, w, old(pool.Now()), answers);
            && pool.Now() == State(after.0, old(pool.workers)[w := after.1])
            && again == after.1.pc.CtxCheck?
    ensures Matches(pool, w, gen) && sink.Valid()
    ensures AllRows(sink.tables)
         == RowsAfterPass(sink.schema, pool.cfg, w, pool.workers[w], answers, old(AllRows(sink.tables)))
  {
    hide Catalog.Valid, TimedBatch, BatchRows, AllRows, ReplyOf, AfterSend, RowsOf, RowsAfterSend, Filled, Burst;
    var t := pool.workers[w];
    if pool.cancelled {
      Stop(pool, w, t, 0);
      return false;
    }
    ghost var g := pool.Now().g;
    var td, n := FillNext(pool, w, gen, sink.schema);
    var over := Crosses(pool.cfg, pool.Now().g, n);
    Count(pool, n);
    t := Worker(CtxCheck, n, gen.rng.pos, t.filled + 1, over);
    if pool.cfg.limited && WaitReply(pool.cfg, w, pool.Now().g, n, answers.granted).Failure? {
      Stop(pool, w, t, n);
      return false;
    }
    if pool.cancelled {
      Stop(pool, w, t, n);
      return false;
    }
    Send(pool, sink, td, BatchId(w, t.filled), n, [answers.first, answers.second]);
    pool.workers := pool.workers[w := t];
    return true;
  }

  // ---- the whole loop ----

  lemma {:induction false} ReachesKeeps(cfg: Config, w: nat, s: State, h: Shared, u: Worker, steps: nat)
    requires cfg.Ok() && w < |s.ws| == |cfg.gens|
    requires Conservation.Inv(cfg, s) && Deliveries.StoreInv(cfg, s)
    requires Reaches(cfg, w, s.g, s.ws[w], h, u, steps)
    ensures var r := State(h, s.ws[w := u]); Conservation.Inv(cfg, r) && Deliveries.StoreInv(cfg, r)
    decreases steps
  {
    hide Config.Ok, Deliveries.StoreInv, StepShared, StepWorker, Conservation.Sum;
    if steps == 0 {
      assert s.ws[w := u] == s.ws;
    } else {
      var reply :| Enabled(cfg, w, s.g, s.ws[w], reply)
                && Reaches(cfg, w, StepShared(cfg, w, s.g, s.ws[w], reply),
                           StepWorker(cfg, w, s.g, s.ws[w], reply), h, u, steps - 1);
      var r := Move(cfg, s, w, reply);
      WorkersOk(cfg, s, w);
      hide Enabled, Conservation.Inv, Reaches;
      assert Moves(cfg, s, w, reply);
      Conservation.MoveKeepsInv(cfg, s, w, reply);
      Deliveries.MoveKeepsStore(cfg, s, w, reply);
      assert r.ws[w := u] == s.ws[w := u];
      ReachesKeeps(cfg, w, r, h, u, steps - 1);
    }
  }

  lemma {:induction false} WorkersOk(cfg: Config, s: State, w: nat)
    requires Conservation.Inv(cfg, s) && w < |s.ws|
    ensures Conservation.WorkerOk(cfg, s.g, s.ws[w])
  {
    hide Conservation.Sum, Conservation.WorkerOk;
  }

  /** A pass keeps all that holds throughout a run. */
  lemma {:induction false} PassKeeps(cfg: Config, w: nat, s: State, answers: Answers)
    requires cfg.Ok() && w < |s.ws| == |cfg.gens| && s.ws[w].pc.CtxCheck?
    requires Conservation.Inv(cfg, s) && Deliveries.StoreInv(cfg, s)
    ensures var after := Pass(cfg, w, s, answers); var r := State(after.0, s.ws[w := after.1]);
            Conservation.Inv(cfg, r) && Deliveries.StoreInv(cfg, r)
  {
    hide Config.Ok, Conservation.Inv, Deliveries.StoreInv, AfterTurn, Reaches, Filled, Burst, ReplyOf;
    var n := cfg.batch;
    var waited := WaitReply(cfg, w, AfterFill(cfg, s.g, n), n, answers.granted);
    Conservation.FillsExactly(cfg, w, s.ws[w].pos);
    TurnSteps(cfg, w, s.g, s.ws[w], waited, ReplyOf(answers.first, n), ReplyOf(answers.second, n));
    var after := Pass(cfg, w, s, answers);
    var steps: nat :| Reaches(cfg, w, s.g, s.ws[w], after.0, after.1, steps);
    ReachesKeeps(cfg, w, s, after.0, after.1, steps);
  }

  lemma {:induction false} TableGrows(schema: Schema, cfg: Config, ids: seq<BatchId>, id: BatchId)
    requires cfg.Ok() && AllKnown(cfg, ids) && Known(cfg, id)
    ensures AllKnown(cfg, ids + [id])
    ensures multiset(TableRows(schema, cfg, ids + [id]))
            == multiset(TableRows(schema, cfg, ids)) + multiset(RowsOf(schema, cfg, id))
  {
    hide RowsOf;
    assert (ids + [id])[..|ids|] == ids;
  }

  /** The tables hold the rows of exactly the batches that landed. */
  ghost predicate Coupled(schema: Schema, cfg: Config, landed: seq<BatchId>, all: multiset<Row>)
    requires cfg.Ok()
  {
    AllKnown(cfg, landed) && all == multiset(TableRows(schema, cfg, landed))
  }

  lemma {:induction false} InsertKeeps(schema: Schema, cfg: Config, g: Shared, id: BatchId, reply: Reply,
                                       all: multiset<Row>)
    requires cfg.Ok() && Known(cfg, id) && Coupled(schema, cfg, g.landed, all)
    ensures Coupled(schema, cfg, Attempted(g, id, reply).landed, Inserted(all, RowsOf(schema, cfg, id), reply))
  {
    hide TableRows, RowsOf;
    TableGrows(schema, cfg, g.landed, id);
  }

  lemma {:induction false} SendKeeps(schema: Schema, cfg: Config, g: Shared, id: BatchId, n: nat, first: Reply,
                                     second: Reply, all: multiset<Row>)
    requires cfg.Ok() && Known(cfg, id) && Coupled(schema, cfg, g.landed, all)
    ensures Coupled(schema, cfg, AfterSend(g, id, n, first, second).landed,
                    RowsAfterSend(all, RowsOf(schema, cfg, id), g.cancelled, first, second))
  {
    hide Config.Ok, Coupled, RowsOf, Inserted;
    InsertKeeps(schema, cfg, g, id, first, all);
    InsertKeeps(schema, cfg, Attempted(g, id, first), id, second, Inserted(all, RowsOf(schema, cfg, id), first));
  }

  lemma {:induction false} PassKeepsRows(schema: Schema, cfg: Config, w: nat, s: State, answers: Answers,
                                         all: multiset<Row>)
    requires cfg.Ok() && w < |s.ws| == |cfg.gens|
    requires Coupled(schema, cfg, s.g.landed, all)
    ensures var after := Pass(cfg, w, s, answers);
            Coupled(schema, cfg, after.0.landed, RowsAfterPass(schema, cfg, w, after.1, answers, all))
  {
    hide Catalog.Valid, Coupled, RowsOf, RowsAfterSend, AfterSend, ReplyOf, Filled, Burst;
    var n := |Filled(cfg, w, s.ws[w].pos).log|;
    Conservation.FillsExactly(cfg, w, s.ws[w].pos);
    SendKeeps(schema, cfg, AfterFill(cfg, s.g, n), BatchId(w, s.ws[w].filled + 1), n,
              ReplyOf(answers.first, n), ReplyOf(answers.second, n), all);
  }

  /** The worker's loop, for as many passes as the script has answers for. Whatever the other workers did
      before, counters, metrics and tables agree afterwards as they did: the tables hold exactly the rows
      of the batches that landed, which are as many as the spans counted as sent and one more batch for
      each unconfirmed insert. */
  method Loop(pool: Pool, w: nat, gen: Gen.Generator, sink: ChSink, script: seq<Answers>)
    requires Matches(pool, w, gen) && sink.Valid()
    requires pool.workers[w].pc.CtxCheck?
    requires Conservation.Inv(pool.cfg, pool.Now()) && Deliveries.StoreInv(pool.cfg, pool.Now())
    requires Coupled(sink.schema, pool.cfg, pool.landed, AllRows(sink.tables))
    modifies pool, pool.met, gen, gen.rng, sink
    ensures Conservation.Inv(pool.cfg, pool.Now()) && Deliveries.StoreInv(pool.cfg, pool.Now())
    ensures Coupled(sink.schema, pool.cfg, pool.landed, AllRows(sink.tables))
    ensures |AllRows(sink.tables)|
         == pool.sent + pool.cfg.batch * |pool.unconfirmed| + Conservation.Sum(pool.workers, Deliveries.Acknowledged)
    ensures |pool.workers| == |old(pool.workers)|
    ensures forall v :: 0 <= v < |pool.workers| && v != w ==> pool.workers[v] == old(pool.workers[v])
  {
    hide Config.Ok, Conservation.Inv, Deliveries.StoreInv, Coupled, AllRows, Pass, RowsAfterSend;
    var k := 0;
    while k < |script|
      invariant 0 <= k <= |script|
      invariant Matches(pool, w, gen) && sink.Valid() && pool.workers[w].pc.CtxCheck?
      invariant Conservation.Inv(pool.cfg, pool.Now()) && Deliveries.StoreInv(pool.cfg, pool.Now())
      invariant Coupled(sink.schema, pool.cfg, pool.landed, AllRows(sink.tables))
      invariant |pool.workers| == |old(pool.workers)|
      invariant forall v :: 0 <= v < |pool.workers| && v != w ==> pool.workers[v] == old(pool.workers[v])
    {
      ghost var s := pool.Now();
      PassKeeps(pool.cfg, w, s, script[k]);
      PassKeepsRows(sink.schema, pool.cfg, w, s, script[k], AllRows(sink.tables));
      var again := Turn(pool, w, gen, sink, script[k]);
      if !again {
        break;
      }
      k := k + 1;
    }
    TableCount(sink.schema, pool.cfg, pool.Now(), AllRows(sink.tables));
  }

  lemma {:induction false} TableCount(schema: Schema, cfg: Config, s: State, all: multiset<Row>)
    requires cfg.Ok() && |s.ws| == |cfg.gens| && Deliveries.StoreInv(cfg, s)
    requires Coupled(schema, cfg, s.g.landed, all)
    ensures |all| == s.g.sent + cfg.batch * |s.g.unconfirmed| + Conservation.Sum(s.ws, Deliveries.Acknowledged)
  {
    hide Conservation.Sum, TableRows, Deliveries.Delivered;
    TableSize(schema, cfg, s.g.landed);
    assert |multiset(TableRows(schema, cfg, s.g.landed))| == |TableRows(schema, cfg, s.g.landed)|;
  }
}
