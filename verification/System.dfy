/** Generators, pool and sink together, under every interleaving of the workers' atomic steps. */
module System {
  import opened ClickHouse
  import opened Engine
  import opened Pool
  import opened Stored
  import opened Telemetry
  import opened Work
  import Catalog
  import Conservation
  import Crossing
  import Deliveries
  import Generator
  import Lifecycle
  import Rows
  import Traces

  /** One entry of a schedule: a worker makes its step, the limiter and the store answering it like this
      if it asks them, or the context is cancelled from outside. */
  datatype Entry = Step(w: nat, granted: bool, outcome: Outcome) | Cancelled

  /** Each worker that has filled a batch and is not done with it holds that batch. */
  ghost predicate HandsOk(schema: Schema, cfg: Config, ws: seq<Worker>, hands: seq<seq<ResourceSpans>>)
    requires cfg.Ok()
  {
    && |hands| == |ws| == |cfg.gens|
    && forall w :: 0 <= w < |ws| && !Deliveries.Idle(ws[w].pc) ==>
         && ws[w].filled >= 1
         && TimedBatch(hands[w])
         && BatchRows(schema, hands[w]) == RowsOf(schema, cfg, BatchId(w, ws[w].filled))
         && |BatchRows(schema, hands[w])| == ws[w].n
  }

  lemma {:induction false} HandsKept(schema: Schema, cfg: Config, s: State, w: nat, reply: Reply,
                                     hands: seq<seq<ResourceSpans>>)
    requires cfg.Ok() && Moves(cfg, s, w, reply) && !s.ws[w].pc.Fill?
    requires HandsOk(schema, cfg, s.ws, hands)
    ensures HandsOk(schema, cfg, Move(cfg, s, w, reply).ws, hands)
    ensures Move(cfg, s, w, reply).ws == s.ws[w := Move(cfg, s, w, reply).ws[w]]
    ensures Move(cfg, s, w, reply).ws[w].pos == s.ws[w].pos
  {
    hide Config.Ok, BatchRows, RowsOf, TimedBatch, Filled, Burst;
  }

  lemma {:induction false} HandFilled(schema: Schema, cfg: Config, s: State, w: nat, reply: Reply,
                                      hands: seq<seq<ResourceSpans>>, td: seq<ResourceSpans>)
    requires cfg.Ok() && Moves(cfg, s, w, reply) && s.ws[w].pc.Fill?
    requires HandsOk(schema, cfg, s.ws, hands)
    requires TimedBatch(td) && BatchRows(schema, td) == RowsOf(schema, cfg, BatchId(w, s.ws[w].filled + 1))
    requires |BatchRows(schema, td)| == |Filled(cfg, w, s.ws[w].pos).log|
    ensures HandsOk(schema, cfg, Move(cfg, s, w, reply).ws, hands[w := td])
    ensures Move(cfg, s, w, reply).ws == s.ws[w := Move(cfg, s, w, reply).ws[w]]
    ensures Move(cfg, s, w, reply).ws[w].pos == Filled(cfg, w, s.ws[w].pos).pos
  {
    hide Catalog.Valid, BatchRows, RowsOf, TimedBatch, Filled, Burst;
  }

  /** Only an attempt changes the store. */
  lemma {:induction false} StoreUntouched(cfg: Config, s: State, w: nat, reply: Reply)
    requires cfg.Ok() && Moves(cfg, s, w, reply) && !s.ws[w].pc.Attempt?
    ensures Move(cfg, s, w, reply).g.landed == s.g.landed
  {
    hide Config.Ok, Filled, Burst;
  }

  lemma {:induction false} StoreExtended(schema: Schema, cfg: Config, s: State, w: nat, reply: Reply,
                                         all: multiset<Rows.Row>)
    requires cfg.Ok() && Moves(cfg, s, w, reply) && s.ws[w].pc.Attempt? && s.ws[w].filled >= 1
    requires Coupled(schema, cfg, s.g.landed, all)
    ensures var id := BatchId(w, s.ws[w].filled);
            Coupled(schema, cfg, Move(cfg, s, w, reply).g.landed, Inserted(all, RowsOf(schema, cfg, id), reply))
  {
    hide Config.Ok, RowsOf, Coupled, Inserted, Filled, Burst;
    InsertKeeps(schema, cfg, s.g, BatchId(w, s.ws[w].filled), reply, all);
  }

  /** A generator for each configured one, all distinct and at the start of their streams. */
  method MakeGenerators(gs: seq<Traces.Gen>) returns (gens: seq<Generator.Generator>)
    requires forall g :: g in gs ==> g.Ok()
    ensures |gens| == |gs|
    ensures forall k :: 0 <= k < |gens| ==> fresh(gens[k]) && fresh(gens[k].rng)
    ensures forall k :: 0 <= k < |gens| ==> gens[k].g == gs[k] && gens[k].Ok() && gens[k].rng.pos == 0
    ensures forall j, k :: 0 <= j < k < |gens| ==> gens[j] != gens[k] && gens[j].rng != gens[k].rng
  {
    hide Traces.Gen.Ok;
    gens := [];
    for i := 0 to |gs|
      invariant |gens| == i
      invariant forall k :: 0 <= k < i ==> fresh(gens[k]) && fresh(gens[k].rng)
      invariant forall k :: 0 <= k < i ==> gens[k].g == gs[k] && gens[k].Ok() && gens[k].rng.pos == 0
      invariant forall j, k :: 0 <= j < k < i ==> gens[j] != gens[k] && gens[j].rng != gens[k].rng
    {
      var gen := new Generator.Generator(gs[i]);
      gens := gens + [gen];
    }
  }

  lemma {:induction false} StartsValid(schema: Schema, cfg: Config, s: State, hands: seq<seq<ResourceSpans>>,
                                       all: multiset<Rows.Row>)
    requires cfg.Ok() && Init(cfg, s) && |hands| == |cfg.gens| && all == multiset{}
    ensures Conservation.Inv(cfg, s) && Deliveries.StoreInv(cfg, s)
    ensures HandsOk(schema, cfg, s.ws, hands) && Coupled(schema, cfg, s.g.landed, all)
  {
    hide Conservation.Inv, Deliveries.StoreInv, Catalog.Valid;
    Lifecycle.InitInv(cfg, s);
    Deliveries.InitStore(cfg, s);
  }

  class System {
    const pool: Pool
    const sink: ChSink
    const gens: seq<Generator.Generator>
    var hands: seq<seq<ResourceSpans>>

    /** A pool at its start, a generator for each worker, and a sink that has not stored anything. */
    constructor (cfg: Config, sink: ChSink)
      requires cfg.Ok() && sink.Valid() && AllRows(sink.tables) == multiset{}
      ensures Valid() && this.sink == sink && pool.cfg == cfg && fresh(pool) && fresh(pool.met)
      ensures Init(cfg, pool.Now())
      ensures forall k :: 0 <= k < |gens| ==> fresh(gens[k]) && fresh(gens[k].rng)
    {
      hide Catalog.Valid, Conservation.Inv, Deliveries.StoreInv, HandsOk, Coupled, AllRows;
      var p := new Pool(cfg);
      var gs := MakeGenerators(cfg.gens);
      var none: seq<seq<ResourceSpans>> := seq(|cfg.gens|, _ => []);
      StartsValid(sink.schema, cfg, p.Now(), none, AllRows(sink.tables));
      pool, this.sink, gens, hands := p, sink, gs, none;
    }

    /** Every worker has a generator of its own, which stands where the worker's record says. */
    ghost predicate Generating()
      reads pool, gens, set k | 0 <= k < |gens| :: gens[k].rng
    {
      && |gens| == |pool.workers| == |pool.cfg.gens|
      && (forall v :: 0 <= v < |gens| ==>
         gens[v].g == pool.cfg.gens[v] && gens[v].Ok() && gens[v].rng.pos == pool.workers[v].pos)
      && (forall j, k :: 0 <= j < k < |gens| ==> gens[j] != gens[k] && gens[j].rng != gens[k].rng)
    }

    ghost predicate Valid()
      reads this, pool, pool.met, sink, gens, set k | 0 <= k < |gens| :: gens[k].rng
    {
      && pool.cfg.Ok() && sink.Valid() && Generating()
      && Conservation.Inv(pool.cfg, pool.Now()) && Deliveries.StoreInv(pool.cfg, pool.Now())
      && HandsOk(sink.schema, pool.cfg, pool.workers, hands)
      && Coupled(sink.schema, pool.cfg, pool.landed, AllRows(sink.tables))
    }

    /** The answer of the call that worker `w`'s next step makes, if it makes one. */
    method Call(w: nat, granted: bool, outcome: Outcome) returns (reply: Reply)
      requires Valid() && w < |pool.workers|
      modifies sink
      ensures sink.Valid()
      ensures pool.workers[w].pc.Wait? ==> reply == WaitReply(pool.cfg, w, pool.Now().g, pool.workers[w].n, granted)
      ensures pool.workers[w].pc.Attempt? ==>
              pool.workers[w].filled >= 1 && reply == ReplyOf(outcome, pool.workers[w].n)
      ensures AllRows(sink.tables) == if !pool.workers[w].pc.Attempt? then old(AllRows(sink.tables)) else
                Inserted(old(AllRows(sink.tables)),
                         RowsOf(sink.schema, pool.cfg, BatchId(w, pool.workers[w].filled)), reply)
    {
      hide Config.Ok, Generating, Conservation.Inv, Deliveries.StoreInv, Coupled, AllRows, Inserted, RowsOf, ReplyOf,
           BatchRows, TimedBatch, WaitMay, Burst;
      var t := pool.workers[w];
      reply := Success;
      if t.pc.Wait? {
        reply := WaitReply(pool.cfg, w, pool.Now().g, t.n, granted);
      } else if t.pc.Attempt? {
        reply := Transmit(sink, hands[w], outcome);
      }
    }

    /** The batch that worker `w` fills in its next step. */
    method Generate(w: nat)
      requires Valid() && w < |pool.workers| && pool.workers[w].pc.Fill?
      modifies this, gens[w], gens[w].rng
      ensures HandsOk(sink.schema, pool.cfg, old(pool.workers), old(hands))
      ensures w < |hands| == |old(hands)| && hands == old(hands)[w := hands[w]]
      ensures TimedBatch(hands[w])
      ensures BatchRows(sink.schema, hands[w]) == RowsOf(sink.schema, pool.cfg, BatchId(w, pool.workers[w].filled + 1))
      ensures |BatchRows(sink.schema, hands[w])| == |Filled(pool.cfg, w, pool.workers[w].pos).log|
      ensures gens[w].Ok() && gens[w].rng.pos == Filled(pool.cfg, w, pool.workers[w].pos).pos
    {
      hide Conservation.Inv, Coupled, AllRows, RowsOf, BatchRows, TimedBatch, Filled, Catalog.Valid;
      Progressed(pool.cfg, pool.Now(), w);
      var td, n := FillNext(pool, w, gens[w], sink.schema);
      hands := hands[w := td];
    }

    static lemma {:induction false} Progressed(cfg: Config, s: State, w: nat)
      requires cfg.Ok() && |s.ws| == |cfg.gens| && Deliveries.StoreInv(cfg, s) && w < |s.ws|
      ensures s.ws[w].pos == Deliveries.Progress(cfg, w, s.ws[w].filled)
    {
      hide Conservation.Sum, Catalog.Valid;
      assert Deliveries.Delivered(cfg, s.g, w, s.ws[w]);
    }

    static lemma {:induction false} StepKeeps(schema: Schema, cfg: Config, s: State, w: nat, reply: Reply)
      requires cfg.Ok() && Moves(cfg, s, w, reply)
      requires Conservation.Inv(cfg, s) && Deliveries.StoreInv(cfg, s)
      ensures Conservation.Inv(cfg, Move(cfg, s, w, reply)) && Deliveries.StoreInv(cfg, Move(cfg, s, w, reply))
    {
      hide Config.Ok, Move, Conservation.Inv, Deliveries.StoreInv;
      WorkersOk(cfg, s, w);
      Conservation.MoveKeepsInv(cfg, s, w, reply);
      Deliveries.MoveKeepsStore(cfg, s, w, reply);
    }

    /** One atomic step of worker `w`: the pool makes it, and what the step calls for is done by the
        worker's generator or by the sink. */
    method Advance(w: nat, granted: bool, outcome: Outcome)
      requires Valid() && w < |pool.workers| && !pool.workers[w].pc.Done?
      modifies this, pool, pool.met, sink, gens[w], gens[w].rng
      ensures Valid()
      ensures exists reply ::
                Moves(pool.cfg, old(pool.Now()), w, reply) && pool.Now() == Move(pool.cfg, old(pool.Now()), w, reply)
    {
      hide Config.Ok, Conservation.Inv, Deliveries.StoreInv, HandsOk, Coupled, AllRows, Inserted, RowsOf, ReplyOf,
           BatchRows, TimedBatch, Filled, Move;
      ghost var s, before, all := pool.Now(), hands, AllRows(sink.tables);
      var reply := Call(w, granted, outcome);
      assert Moves(pool.cfg, s, w, reply);
      StepKeeps(sink.schema, pool.cfg, s, w, reply);
      if pool.workers[w].pc.Attempt? {
        StoreExtended(sink.schema, pool.cfg, s, w, reply, all);
      } else {
        StoreUntouched(pool.cfg, s, w, reply);
      }
      if pool.workers[w].pc.Fill? {
        Generate(w);
        HandFilled(sink.schema, pool.cfg, s, w, reply, before, hands[w]);
      } else {
        HandsKept(sink.schema, pool.cfg, s, w, reply, before);
      }
      pool.Advance(w, reply);
    }

    /** The deadline of the run, a signal or a caller. */
    method Cancel()
      requires Valid()
      modifies pool
      ensures Valid() && pool.Now() == Interrupt(old(pool.Now()))
    {
      hide Config.Ok, Conservation.Inv, Deliveries.StoreInv, HandsOk, Coupled, AllRows;
      ghost var s := pool.Now();
      SizeOk(s);
      Lifecycle.InterruptKeepsInv(pool.cfg, s);
      Deliveries.InterruptKeepsStore(pool.cfg, s);
      pool.cancelled := true;
    }

    lemma {:induction false} SizeOk(s: State)
      requires Conservation.Inv(pool.cfg, s)
      ensures |s.ws| == |pool.cfg.gens|
    {
      hide Conservation.WorkerOk, Conservation.Sum;
    }

    lemma {:induction false} ValidCfg()
      requires Valid()
      ensures pool.cfg.Ok() && |gens| == |pool.workers|
    {
      hide Conservation.Inv, Deliveries.StoreInv, HandsOk, Coupled, AllRows;
    }

    lemma {:induction false} RowsNow()
      requires Valid()
      ensures pool.cfg.Ok() && Coupled(sink.schema, pool.cfg, pool.landed, AllRows(sink.tables))
      ensures |AllRows(sink.tables)|
           == pool.sent + pool.cfg.batch * |pool.unconfirmed| + Conservation.Sum(pool.workers, Deliveries.Acknowledged)
      ensures Lifecycle.AllDone(pool.Now()) ==> Conservation.Sum(pool.workers, Deliveries.Acknowledged) == 0
    {
      hide Config.Ok, Conservation.Inv, Deliveries.StoreInv, HandsOk, Coupled, AllRows;
      SizeOk(pool.Now());
      TableCount(sink.schema, pool.cfg, pool.Now(), AllRows(sink.tables));
      if Lifecycle.AllDone(pool.Now()) {
        Lifecycle.ZeroSum(pool.workers, Deliveries.Acknowledged);
      }
    }

    /** Any number of workers under any schedule, at the level of single steps; entries of stopped workers
        are skipped. At every moment the tables hold exactly the rows of the batches that landed; they
        are as many as the spans counted as sent, one more batch for each unconfirmed insert, and the
        spans of sends that were acknowledged and are about to be counted. */
    method Drive(schedule: seq<Entry>) returns (ghost run: seq<State>)
      requires Valid() && Init(pool.cfg, pool.Now())
      modifies this, pool, pool.met, sink, gens, set k | 0 <= k < |gens| :: gens[k].rng
      ensures Run(pool.cfg, run) && run[|run| - 1] == pool.Now()
      ensures Valid()
      ensures Coupled(sink.schema, pool.cfg, pool.landed, AllRows(sink.tables))
      ensures |AllRows(sink.tables)|
           == pool.sent + pool.cfg.batch * |pool.unconfirmed| + Conservation.Sum(pool.workers, Deliveries.Acknowledged)
      ensures Lifecycle.AllDone(pool.Now()) ==>
              |AllRows(sink.tables)| == pool.sent + pool.cfg.batch * |pool.unconfirmed|
    {
      hide Config.Ok, Valid, Init, Move, Moves;
      ValidCfg();
      run := [pool.Now()];
      for i := 0 to |schedule|
        invariant Valid()
        invariant Run(pool.cfg, run) && run[|run| - 1] == pool.Now()
      {
        match schedule[i] {
          case Cancelled =>
            Cancel();
            Crossing.NextState(pool.cfg, run, pool.Now());
            run := run + [pool.Now()];
          case Step(w, granted, outcome) =>
            if w < |pool.workers| && !pool.workers[w].pc.Done? {
              ValidCfg();
              Advance(w, granted, outcome);
              Crossing.NextState(pool.cfg, run, pool.Now());
              run := run + [pool.Now()];
            }
        }
      }
      RowsNow();
    }
  }
}
