/** A run in which the span cap is reached: it exists for every cap, and its last batch is not sent. */
module Crossing {
  import opened Alone
  import opened Conservation
  import opened Deliveries
  import opened Engine
  import Catalog

  /** A run can be continued by steps that one worker can take. */
  lemma {:induction false} ExtendRun(cfg: Config, run: seq<State>, w: nat, h: Shared, u: Worker, steps: nat)
    requires cfg.Ok() && Run(cfg, run)
    requires w < |run[|run| - 1].ws| == |cfg.gens|
    requires Reaches(cfg, w, run[|run| - 1].g, run[|run| - 1].ws[w], h, u, steps)
    ensures exists more :: Run(cfg, more) && more[|more| - 1] == State(h, run[|run| - 1].ws[w := u])
    decreases steps
  {
    hide Config.Ok, Init, StepShared, StepWorker;
    var s := run[|run| - 1];
    if steps == 0 {
      assert run[|run| - 1] == State(h, s.ws[w := u]);
    } else {
      var reply :| Enabled(cfg, w, s.g, s.ws[w], reply)
                && Reaches(cfg, w, StepShared(cfg, w, s.g, s.ws[w], reply),
                           StepWorker(cfg, w, s.g, s.ws[w], reply), h, u, steps - 1);
      hide Enabled, Reaches;
      var t := Move(cfg, s, w, reply);
      assert Moves(cfg, s, w, reply);
      assert Next(cfg, s, t);
      NextState(cfg, run, t);
      ExtendRun(cfg, run + [t], w, h, u, steps - 1);
      assert t.ws[w := u] == s.ws[w := u];
    }
  }

  lemma {:induction false} NextState(cfg: Config, run: seq<State>, t: State)
    requires cfg.Ok() && Run(cfg, run) && Next(cfg, run[|run| - 1], t)
    ensures Run(cfg, run + [t])
  {
    hide Config.Ok, Init, Next;
  }

  /** Worker 0 has reached the cap and stopped, and its last batch is not in the store. */
  ghost predicate Capped(cfg: Config, s: State) {
    && |s.ws| > 0
    && s.ws[0].crossed && s.ws[0].pc == Done(cfg.batch)
    && s.g.cancelled && s.g.generated >= cfg.maxSpans
    && s.ws[0].filled >= 1 && Copies(s.g.landed, 0, s.ws[0].filled) == 0
  }

  /** From the head of its loop on, worker 0 alone reaches the cap. */
  lemma {:induction false} GoOn(cfg: Config, run: seq<State>)
    requires cfg.Ok() && cfg.maxSpans > 0 && Run(cfg, run)
    requires var s := run[|run| - 1]; |s.ws| == |cfg.gens| > 0 && !s.g.cancelled && s.ws[0].pc.CtxCheck?
    ensures exists more :: Run(cfg, more) && Capped(cfg, more[|more| - 1])
    decreases cfg.maxSpans - run[|run| - 1].g.generated
  {
    hide Init, Next, Reaches, Filled, Copies, Catalog.Valid;
    var s := run[|run| - 1];
    var after := AfterTurn(cfg, 0, s.g, s.ws[0], Success, Success, Success);
    FillsExactly(cfg, 0, s.ws[0].pos);
    BurstCovers(cfg, 0);
    TurnSteps(cfg, 0, s.g, s.ws[0], Success, Success, Success);
    var steps: nat :| Reaches(cfg, 0, s.g, s.ws[0], after.0, after.1, steps);
    ExtendRun(cfg, run, 0, after.0, after.1, steps);
    var more :| Run(cfg, more) && more[|more| - 1] == State(after.0, s.ws[0 := after.1]);
    if after.0.cancelled {
      AbandonedNeverLands(cfg, more, |more| - 1, 0);
    } else {
      GoOn(cfg, more);
    }
  }

  function Start(cfg: Config): State {
    State(Shared(0, 0, 0, false, 0, 0, 0, 0, 0, 0, 0, 0, [], []),
          seq(|cfg.gens|, _ => Worker(CtxCheck, 0, 0, 0, false)))
  }

  lemma {:induction false} Starts(cfg: Config)
    requires cfg.Ok()
    ensures Run(cfg, [Start(cfg)])
  {
    hide Config.Ok;
  }

  /** Whatever the cap, the configuration and the generators: the pool has a run that reaches the cap, and
      the batch that reached it, which the source's comment says is still sent, is lost. */
  lemma {:induction false} CapIsReached(cfg: Config)
    requires cfg.Ok() && cfg.maxSpans > 0 && |cfg.gens| > 0
    ensures exists run :: Run(cfg, run) && Capped(cfg, run[|run| - 1])
  {
    hide Config.Ok, Capped;
    var s := Start(cfg);
    Starts(cfg);
    GoOn(cfg, [s]);
  }

  /** The first batch has landed twice, and all its spans are counted as dropped. */
  ghost predicate DroppedTwice(cfg: Config, s: State) {
    Copies(s.g.landed, 0, 1) == 2 && s.g.sent == 0 && s.g.errors == cfg.batch
  }

  ghost predicate StoredTwice(s: State) {
    exists w: nat, nth: nat :: Copies(s.g.landed, w, nth) == 2
  }

  lemma {:induction false} TwoInserts(g: Shared, id: BatchId, n: nat)
    requires g.landed == [] && !g.cancelled
    ensures var h := AfterSend(g, id, n, Unconfirmed, Unconfirmed);
            h.landed == [id, id] && h.sent == g.sent && h.errors == g.errors + n
  {
  }

  /** With a worker, and without a cap or with one beyond a batch, there is a run in which the first batch
      lands twice although it is counted as dropped. */
  lemma {:induction false} FirstBatchTwice(cfg: Config)
    requires cfg.Ok() && |cfg.gens| > 0 && (cfg.maxSpans == 0 || cfg.maxSpans > cfg.batch)
    ensures exists run :: Run(cfg, run) && DroppedTwice(cfg, run[|run| - 1])
  {
    hide Init, Next, Reaches, Filled, Catalog.Valid, AfterSend;
    var s := Start(cfg);
    Starts(cfg);
    var after := AfterTurn(cfg, 0, s.g, s.ws[0], Success, Unconfirmed, Unconfirmed);
    FillsExactly(cfg, 0, 0);
    BurstCovers(cfg, 0);
    TurnSteps(cfg, 0, s.g, s.ws[0], Success, Unconfirmed, Unconfirmed);
    var steps: nat :| Reaches(cfg, 0, s.g, s.ws[0], after.0, after.1, steps);
    ExtendRun(cfg, [s], 0, after.0, after.1, steps);
    TwoInserts(AfterFill(cfg, s.g, cfg.batch), BatchId(0, 1), cfg.batch);
    assert multiset(after.0.landed)[BatchId(0, 1)] == 2;
    assert DroppedTwice(cfg, State(after.0, s.ws[0 := after.1]));
  }

  /** Exactly the configurations that can send at all have runs in which a batch lands twice. */
  lemma {:induction false} TwiceIff(cfg: Config)
    requires cfg.Ok() && |cfg.gens| > 0
    ensures (exists run :: Run(cfg, run) && StoredTwice(run[|run| - 1])) <==>
            cfg.maxSpans == 0 || cfg.maxSpans > cfg.batch
  {
    hide Config.Ok, Init, Next;
    if cfg.maxSpans == 0 || cfg.maxSpans > cfg.batch {
      FirstBatchTwice(cfg);
    } else {
      forall run | Run(cfg, run) ensures !StoredTwice(run[|run| - 1]) {
        SmallCapStoresNothing(cfg, run, |run| - 1);
      }
    }
  }
}
