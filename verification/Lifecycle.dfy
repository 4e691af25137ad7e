/** Whole runs of the worker pool: what is true throughout, at rest, and on the way to shutdown. */
module Lifecycle {
  import opened Engine
  import opened Conservation

  lemma {:induction false} ZeroSum(ws: seq<Worker>, f: Worker -> int)
    requires forall w :: 0 <= w < |ws| ==> f(ws[w]) == 0
    ensures Sum(ws, f) == 0
  {
    SumBounds(ws, f, 0, 0);
  }

  lemma {:induction false} InitInv(cfg: Config, s: State)
    requires cfg.Ok() && Init(cfg, s)
    ensures Inv(cfg, s)
  {
    hide Sum;
    ZeroSum(s.ws, OpenLoad);
    ZeroSum(s.ws, CrossedLoad);
    ZeroSum(s.ws, Inside);
    ZeroSum(s.ws, Uncounted);
    ZeroSum(s.ws, Answered);
    ZeroSum(s.ws, SpansSentAhead);
    ZeroSum(s.ws, DroppedAhead);
    ZeroSum(s.ws, OkAhead);
    ZeroSum(s.ws, ErrAhead);
    ZeroSum(s.ws, Fails);
  }

  lemma {:induction false} InterruptKeepsInv(cfg: Config, s: State)
    requires Inv(cfg, s)
    ensures Inv(cfg, Interrupt(s))
  {
    hide Sum;
    forall w | 0 <= w < |s.ws| ensures WorkerOk(cfg, Interrupt(s).g, s.ws[w]) {
      assert WorkerOk(cfg, s.g, s.ws[w]);
    }
  }

  /** The invariant holds in every state of every run, however the workers interleave. */
  lemma {:induction false} Always(cfg: Config, run: seq<State>, i: nat)
    requires cfg.Ok() && Run(cfg, run) && i < |run|
    ensures Inv(cfg, run[i])
  {
    hide Inv, Move, Interrupt, Init;
    if i == 0 {
      InitInv(cfg, run[0]);
    } else {
      Always(cfg, run, i - 1);
      var s := run[i - 1];
      assert Next(cfg, s, run[i - 1 + 1]);
      if run[i] == Interrupt(s) {
        InterruptKeepsInv(cfg, s);
      } else {
        var w: nat, reply: Reply :| Moves(cfg, s, w, reply) && run[i] == Move(cfg, s, w, reply);
        MoveKeepsInv(cfg, s, w, reply);
      }
    }
  }

  // ---- the span cap ----

  /** With a cap of L, fewer than L spans ever reach an outcome, and at no point have the workers
      generated more than one batch each beyond the cap. A finished batch counts in full, so the
      number of finished batches stays below L / batch. */
  lemma {:induction false} SpanCap(cfg: Config, run: seq<State>, i: nat)
    requires cfg.Ok() && Run(cfg, run) && i < |run|
    requires cfg.maxSpans > 0
    ensures var g := run[i].g;
            && g.sent + g.errors < cfg.maxSpans
            && g.generated < cfg.maxSpans + |cfg.gens| * cfg.batch
            && cfg.batch * g.batchesOk + cfg.batch * g.batchesErr < cfg.maxSpans
  {
    Always(cfg, run, i);
    var s := run[i];
    CrossedLoadsCount(cfg, s);
    forall w | 0 <= w < |s.ws|
      ensures 0 <= OpenLoad(s.ws[w]) && Finished(s.ws[w]) <= OpenLoad(s.ws[w])
    {
      assert WorkerOk(cfg, s.g, s.ws[w]);
    }
    hide Sum, WorkerOk, Run;
    SumBounds(s.ws, OpenLoad, 0, cfg.batch) by {
      forall w | 0 <= w < |s.ws| ensures OpenLoad(s.ws[w]) <= cfg.batch { LoadSmall(cfg, s, w); }
    }
    SumCompare(s.ws, Finished, OpenLoad);
    FinishedSplits(s.ws);
  }

  /** Spans of batches whose outcome is counted by batch and not yet by span. */
  function Finished(t: Worker): int { OkAhead(t) + ErrAhead(t) }

  lemma {:induction false} FinishedSplits(ws: seq<Worker>)
    ensures Sum(ws, Finished) == Sum(ws, OkAhead) + Sum(ws, ErrAhead)
  {
    if ws == [] {
    } else {
      FinishedSplits(ws[..|ws| - 1]);
    }
  }

  lemma {:induction false} LoadSmall(cfg: Config, s: State, w: nat)
    requires Inv(cfg, s) && w < |s.ws|
    ensures Load(s.ws[w]) <= cfg.batch && OpenLoad(s.ws[w]) <= cfg.batch
  {
    hide Sum;
    assert WorkerOk(cfg, s.g, s.ws[w]);
  }

  /** The batch whose Add reaches the cap is never sent, although the source's comment says it is:
      when a worker has crossed, it is not sending, and it has stopped or is about to. */
  lemma {:induction false} CrossingBatchIsNotSent(cfg: Config, run: seq<State>, i: nat, w: nat)
    requires cfg.Ok() && Run(cfg, run) && i < |run| && w < |run[i].ws|
    requires run[i].ws[w].crossed
    ensures !InSend(run[i].ws[w].pc) && run[i].ws[w].pc != Enter && run[i].ws[w].pc != CtxCheck
    ensures run[i].ws[w].pc != Cancel ==> run[i].g.cancelled
  {
    Always(cfg, run, i);
    hide Sum;
    assert WorkerOk(cfg, run[i].g, run[i].ws[w]);
  }

  /** A cap no larger than a batch stops the run before anything is sent. */
  lemma {:induction false} SmallCapSendsNothing(cfg: Config, run: seq<State>, i: nat)
    requires cfg.Ok() && Run(cfg, run) && i < |run|
    requires 0 < cfg.maxSpans <= cfg.batch
    ensures run[i].g.batchesOk == run[i].g.batchesErr == 0
    ensures run[i].g.sent == run[i].g.errors == 0
  {
    SpanCap(cfg, run, i);
    Always(cfg, run, i);
    var s := run[i];
    forall w | 0 <= w < |s.ws| ensures 0 <= OkAhead(s.ws[w]) <= cfg.batch && 0 <= ErrAhead(s.ws[w]) <= cfg.batch {
      assert WorkerOk(cfg, s.g, s.ws[w]);
    }
    hide Sum, WorkerOk, Run;
    SumBounds(s.ws, OkAhead, 0, cfg.batch);
    SumBounds(s.ws, ErrAhead, 0, cfg.batch);
    AtLeastOne(cfg.batch, s.g.batchesOk);
    AtLeastOne(cfg.batch, s.g.batchesErr);
  }

  lemma {:induction false} AtLeastOne(b: nat, n: nat)
    ensures n > 0 ==> b * n >= b
    ensures n == 0 ==> b * n == 0
  {
    if n > 0 {
      assert b * n == b * (n - 1) + b;
    }
  }

  // ---- conservation ----

  /** Every generated span is sent, dropped, held by a worker, or was abandoned by one that stopped;
      a stopped worker abandoned one batch or none, and only after cancellation. */
  lemma {:induction false} Conserved(cfg: Config, run: seq<State>, i: nat)
    requires cfg.Ok() && Run(cfg, run) && i < |run|
    ensures var s := run[i];
            && s.g.generated == s.g.sent + s.g.errors + Sum(s.ws, Load)
            && 0 <= Sum(s.ws, Load) <= |cfg.gens| * cfg.batch
            && |s.ws| == |cfg.gens|
            && forall w :: 0 <= w < |s.ws| && s.ws[w].pc.Done? ==>
                 s.g.cancelled && (s.ws[w].pc.lost == 0 || s.ws[w].pc.lost == cfg.batch)
  {
    Always(cfg, run, i);
    var s := run[i];
    forall w | 0 <= w < |s.ws| && s.ws[w].pc.Done?
      ensures s.g.cancelled && (s.ws[w].pc.lost == 0 || s.ws[w].pc.lost == cfg.batch)
    {
      assert WorkerOk(cfg, s.g, s.ws[w]);
    }
    hide Sum, WorkerOk, Run;
    LoadSplits(s.ws);
    CrossedLoadsCount(cfg, s);
  }

  /** The gauge of sends in flight is always the number of workers inside one. */
  lemma {:induction false} InflightCounts(cfg: Config, run: seq<State>, i: nat)
    requires cfg.Ok() && Run(cfg, run) && i < |run|
    ensures run[i].g.inflight == Sum(run[i].ws, Inside)
    ensures 0 <= run[i].g.inflight <= |cfg.gens|
  {
    Always(cfg, run, i);
    hide Run;
    SumBounds(run[i].ws, Inside, 0, 1);
  }

  /** When no worker is inside a send, metrics and counters agree: every batch that entered one was
      counted once, as sent or as dropped, with all its spans; every attempt was observed; and each
      dropped batch failed once or twice, each delivered one at most once before. */
  lemma {:induction false} BooksBalance(cfg: Config, run: seq<State>, i: nat)
    requires cfg.Ok() && Run(cfg, run) && i < |run|
    requires forall w :: 0 <= w < |run[i].ws| ==> !InSend(run[i].ws[w].pc)
    ensures var g := run[i].g;
            && g.inflight == 0
            && g.sent == g.spansSent == cfg.batch * g.batchesOk
            && g.errors == g.dropped == cfg.batch * g.batchesErr
            && g.observed == g.batchesOk + g.sendErrors
            && g.batchesErr <= g.sendErrors <= 2 * g.batchesErr + g.batchesOk
  {
    hide Sum, Run, WorkerOk, Config.Ok;
    Always(cfg, run, i);
    var s := run[i];
    ZeroSum(s.ws, Inside);
    ZeroSum(s.ws, Answered);
    ZeroSum(s.ws, SpansSentAhead);
    ZeroSum(s.ws, DroppedAhead);
    ZeroSum(s.ws, OkAhead);
    ZeroSum(s.ws, ErrAhead);
    ZeroSum(s.ws, Fails);
  }

  ghost predicate AllDone(s: State) {
    forall w :: 0 <= w < |s.ws| ==> s.ws[w].pc.Done?
  }

  /** When all workers have stopped, what was generated and has no outcome is at most one batch each. */
  lemma {:induction false} AtRest(cfg: Config, run: seq<State>, i: nat)
    requires cfg.Ok() && Run(cfg, run) && i < |run| && AllDone(run[i])
    ensures var g := run[i].g;
            && g.spansGenerated == g.generated
            && g.sent == g.spansSent == cfg.batch * g.batchesOk
            && g.errors == g.dropped == cfg.batch * g.batchesErr
            && 0 <= g.generated - g.sent - g.errors <= |cfg.gens| * cfg.batch
  {
    Conserved(cfg, run, i);
    BooksBalance(cfg, run, i);
    Always(cfg, run, i);
    hide Sum, Run;
    ZeroSum(run[i].ws, Uncounted);
  }

  // ---- shutdown ----

  /** An upper bound on the steps a worker can still take once the context is cancelled. */
  function Rank(t: Worker): int {
    match t.pc
    case Done(_) => 0
    case CtxCheck => 1
    case Recheck => 1
    case Leave => 2
    case Wait => 2
    case CountGenerated => 3
    case AddSent => 3
    case AddErrors => 3
    case Cancel => 4
    case CountSpansSent => 4
    case CountDropped => 4
    case Add => 5
    case CountOk(_) => 5
    case CountErr(_) => 5
    case Fill => 6
    case CheckRetry(_) => 6
    case CountError(_) => 7
    case Observe(_, _) => 8
    case Attempt(_) => 9
    case Enter => 10
    case Pause(_) => 10
  }

  /** After cancellation every step of a worker brings it closer to its end; one that is not inside a
      send, or entering it, never starts one. */
  lemma {:induction false} ShutdownStep(cfg: Config, w: nat, g: Shared, t: Worker, reply: Reply)
    requires cfg.Ok() && Enabled(cfg, w, g, t, reply) && g.cancelled
    ensures StepShared(cfg, w, g, t, reply).cancelled
    ensures Rank(StepWorker(cfg, w, g, t, reply)) < Rank(t)
    ensures var u := StepWorker(cfg, w, g, t, reply);
            !InSend(t.pc) && t.pc != Enter ==> !InSend(u.pc) && u.pc != Enter
  {
    hide Filled;
  }

  /** A stretch of a run in which workers move and the context was cancelled before. */
  ghost predicate Winding(cfg: Config, run: seq<State>)
    requires cfg.Ok()
  {
    && run != [] && run[0].g.cancelled
    && forall i :: 0 <= i < |run| - 1 ==> exists w: nat, reply: Reply ::
         Moves(cfg, run[i], w, reply) && run[i + 1] == Move(cfg, run[i], w, reply)
  }

  lemma {:induction false} MoveRank(cfg: Config, s: State, w: nat, reply: Reply)
    requires cfg.Ok() && Moves(cfg, s, w, reply) && s.g.cancelled
    ensures var t := Move(cfg, s, w, reply); t.g.cancelled && Sum(t.ws, Rank) <= Sum(s.ws, Rank) - 1
  {
    hide Sum, Rank, StepWorker, StepShared, InSend;
    ShutdownStep(cfg, w, s.g, s.ws[w], reply);
    SumUpdate(s.ws, w, StepWorker(cfg, w, s.g, s.ws[w], reply), Rank);
  }

  lemma {:induction false} WindingRank(cfg: Config, run: seq<State>, i: nat)
    requires cfg.Ok() && Winding(cfg, run) && i < |run|
    ensures run[i].g.cancelled
    ensures Sum(run[i].ws, Rank) <= Sum(run[0].ws, Rank) - i
  {
    hide Sum, Rank, Enabled, Move;
    if i == 0 {
      assert run[0].g.cancelled;
    } else {
      WindingRank(cfg, run, i - 1);
      var s := run[i - 1];
      assert run[i - 1 + 1] == run[i];
      var w: nat, reply: Reply :| Moves(cfg, s, w, reply) && run[i] == Move(cfg, s, w, reply);
      MoveRank(cfg, s, w, reply);
    }
  }

  /** Shutdown takes at most ten steps per worker, under every schedule. */
  lemma {:induction false} ShutdownIsBounded(cfg: Config, run: seq<State>)
    requires cfg.Ok() && Winding(cfg, run)
    ensures |run| - 1 <= 10 * |run[0].ws|
  {
    hide Sum, Move, Moves;
    WindingRank(cfg, run, |run| - 1);
    hide Winding;
    SumBounds(run[|run| - 1].ws, Rank, 0, 10);
    SumBounds(run[0].ws, Rank, 0, 10);
  }

  /** And it is never stuck: until all workers have stopped, each that has not can take a step. */
  lemma {:induction false} ShutdownProgresses(cfg: Config, run: seq<State>, i: nat, w: nat)
    requires cfg.Ok() && Run(cfg, run) && i < |run|
    requires run[i].g.cancelled && w < |run[i].ws| && !run[i].ws[w].pc.Done?
    ensures Moves(cfg, run[i], w, Failure)
  {
    Always(cfg, run, i);
    hide Sum;
  }

  /** A send makes at most two attempts: a third is never begun. */
  lemma {:induction false} AtMostTwoAttempts(cfg: Config, run: seq<State>, i: nat, w: nat)
    requires cfg.Ok() && Run(cfg, run) && i < |run| && w < |run[i].ws|
    ensures run[i].ws[w].pc.Attempt? ==> run[i].ws[w].pc.k < 2
    ensures run[i].ws[w].pc.CountErr? ==> 1 <= run[i].ws[w].pc.fails <= 2
  {
    Always(cfg, run, i);
    hide Sum;
    assert WorkerOk(cfg, run[i].g, run[i].ws[w]);
  }

  /** The limiter never turns a batch away for its size: a wait that fails was cancelled. */
  lemma {:induction false} WaitsAreAccepted(cfg: Config, run: seq<State>, i: nat, w: nat, reply: Reply)
    requires cfg.Ok() && Run(cfg, run) && i < |run|
    requires Moves(cfg, run[i], w, reply) && run[i].ws[w].pc.Wait?
    ensures run[i].ws[w].n <= Burst(cfg, w)
    ensures !reply.Success? ==> run[i].g.cancelled
  {
    Always(cfg, run, i);
    hide Inv;
    NoBurstRejection(cfg, run[i], w, reply);
  }
}
