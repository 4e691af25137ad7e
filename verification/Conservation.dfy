/** What holds in every reachable state of the worker pool. */
module Conservation {
  import opened Engine
  import SpanBudget = Budget

  // ---- sums over workers ----

  function Sum(ws: seq<Worker>, f: Worker -> int): int {
    if ws == [] then 0 else Sum(ws[..|ws| - 1], f) + f(ws[|ws| - 1])
  }

  lemma {:induction false} SumUpdate(ws: seq<Worker>, i: nat, t: Worker, f: Worker -> int)
    requires i < |ws|
    ensures Sum(ws[i := t], f) == Sum(ws, f) - f(ws[i]) + f(t)
  {
    var n := |ws| - 1;
    if i == n {
      assert ws[i := t][..n] == ws[..n];
    } else {
      assert ws[i := t][..n] == ws[..n][i := t];
      SumUpdate(ws[..n], i, t, f);
    }
  }

  lemma {:induction false} SumBounds(ws: seq<Worker>, f: Worker -> int, lo: int, hi: int)
    requires forall w :: 0 <= w < |ws| ==> lo <= f(ws[w]) <= hi
    ensures |ws| * lo <= Sum(ws, f) <= |ws| * hi
  {
    if ws == [] {
    } else {
      var n := |ws| - 1;
      SumBounds(ws[..n], f, lo, hi);
      assert |ws| * lo == n * lo + lo && |ws| * hi == n * hi + hi;
    }
  }

  lemma {:induction false} SumCompare(ws: seq<Worker>, f: Worker -> int, h: Worker -> int)
    requires forall w :: 0 <= w < |ws| ==> f(ws[w]) <= h(ws[w])
    ensures Sum(ws, f) <= Sum(ws, h)
  {
    if ws == [] {
    } else {
      SumCompare(ws[..|ws| - 1], f, h);
    }
  }

  // ---- what a worker contributes ----

  predicate InSend(pc: Pc) {
    match pc
    case Enter | CtxCheck | Fill | Add | Cancel | CountGenerated | Wait | Recheck | Done(_) => false
    case _ => true
  }

  /** Spans that are counted as generated and not yet as sent or dropped; for a stopped worker, the
      ones it abandoned. */
  function Load(t: Worker): int {
    match t.pc
    case CtxCheck | Fill | Add | Leave => 0
    case Done(lost) => lost
    case _ => t.n
  }

  function CrossedLoad(t: Worker): int { if t.crossed then Load(t) else 0 }
  function OpenLoad(t: Worker): int { if t.crossed then 0 else Load(t) }
  function Inside(t: Worker): int { if InSend(t.pc) then 1 else 0 }
  function Uncounted(t: Worker): int { if t.pc.Cancel? || t.pc.CountGenerated? then t.n else 0 }
  function Answered(t: Worker): int { if t.pc.CountOk? || t.pc.CountError? then 1 else 0 }
  function SpansSentAhead(t: Worker): int { if t.pc.AddSent? then t.n else 0 }
  function DroppedAhead(t: Worker): int { if t.pc.AddErrors? then t.n else 0 }
  function OkAhead(t: Worker): int { if t.pc.CountSpansSent? || t.pc.AddSent? then t.n else 0 }
  function ErrAhead(t: Worker): int { if t.pc.CountDropped? || t.pc.AddErrors? then t.n else 0 }

  /** Errors reported for the send in progress. */
  function Fails(t: Worker): int {
    match t.pc
    case Attempt(k) => k
    case Observe(k, _) => k
    case CountOk(fails) => fails
    case CountError(k) => k
    case CheckRetry(k) => k + 1
    case Pause(k) => k + 1
    case CountErr(fails) => fails
    case _ => 0
  }

  /** What a worker's program counter implies. */
  ghost predicate WorkerOk(cfg: Config, g: Shared, t: Worker) {
    && (t.pc.CtxCheck? || t.pc.Fill? || t.pc.Done? || t.n == cfg.batch)
    && (t.crossed ==>
         && cfg.maxSpans > 0
         && (t.pc.Cancel? || t.pc.CountGenerated? || t.pc.Wait? || t.pc.Recheck? || t.pc.Done?)
         && (!t.pc.Cancel? ==> g.cancelled)
         && (t.pc.Done? ==> t.pc.lost == cfg.batch))
    && (t.pc.Cancel? ==> t.crossed)
    && match t.pc
       case Attempt(k) => k < SEND_ATTEMPTS
       case Observe(k, _) => k < SEND_ATTEMPTS
       case CountOk(fails) => fails < SEND_ATTEMPTS
       case CountError(k) => k < SEND_ATTEMPTS
       case CheckRetry(k) => k < SEND_ATTEMPTS
       case Pause(k) => k + 1 < SEND_ATTEMPTS
       case CountErr(fails) => 1 <= fails <= SEND_ATTEMPTS
       case Done(lost) => g.cancelled && (lost == 0 || lost == cfg.batch)
       case _ => true
  }

  ghost predicate Inv(cfg: Config, s: State) {
    && |s.ws| == |cfg.gens|
    && (forall w :: 0 <= w < |s.ws| ==> WorkerOk(cfg, s.g, s.ws[w]))
    && s.g.generated == s.g.sent + s.g.errors + Sum(s.ws, OpenLoad) + Sum(s.ws, CrossedLoad)
    && (cfg.maxSpans > 0 ==> s.g.sent + s.g.errors + Sum(s.ws, OpenLoad) < cfg.maxSpans)
    && s.g.inflight == Sum(s.ws, Inside)
    && s.g.generated == s.g.spansGenerated + Sum(s.ws, Uncounted)
    && s.g.observed == s.g.batchesOk + s.g.sendErrors + Sum(s.ws, Answered)
    && s.g.spansSent == s.g.sent + Sum(s.ws, SpansSentAhead)
    && s.g.dropped == s.g.errors + Sum(s.ws, DroppedAhead)
    && cfg.batch * s.g.batchesOk == s.g.sent + Sum(s.ws, OkAhead)
    && cfg.batch * s.g.batchesErr == s.g.errors + Sum(s.ws, ErrAhead)
    && s.g.batchesErr + Sum(s.ws, Fails) <= s.g.sendErrors
    && s.g.sendErrors <= 2 * s.g.batchesErr + s.g.batchesOk + Sum(s.ws, Fails)
  }

  // ---- one step ----

  lemma {:induction false} FillsExactly(cfg: Config, w: nat, pos: nat)
    requires cfg.Ok() && w < |cfg.gens|
    ensures |Filled(cfg, w, pos).log| == cfg.batch
  {
    SpanBudget.FillBatchExact(cfg.gens[w], pos, cfg.batch);
  }

  lemma {:induction false} BurstCovers(cfg: Config, w: nat)
    requires cfg.Ok() && w < |cfg.gens|
    ensures cfg.batch <= Burst(cfg, w)
  {
    assert cfg.gens[w].Ok();
  }

  /** No wait is ever refused for its size: only a cancelled context can make one fail. */
  lemma {:induction false} NoBurstRejection(cfg: Config, s: State, w: nat, reply: Reply)
    requires cfg.Ok() && Inv(cfg, s) && Moves(cfg, s, w, reply)
    requires s.ws[w].pc.Wait?
    ensures s.ws[w].n <= Burst(cfg, w)
    ensures !reply.Success? ==> s.g.cancelled
  {
    hide Sum;
    BurstCovers(cfg, w);
    assert WorkerOk(cfg, s.g, s.ws[w]);
  }

  lemma {:induction false} StepWorkerOk(cfg: Config, w: nat, g: Shared, t: Worker, reply: Reply)
    requires cfg.Ok() && w < |cfg.gens| && Enabled(cfg, w, g, t, reply)
    requires WorkerOk(cfg, g, t)
    ensures WorkerOk(cfg, StepShared(cfg, w, g, t, reply), StepWorker(cfg, w, g, t, reply))
  {
    hide Filled, Burst;
    FillsExactly(cfg, w, t.pos);
    BurstCovers(cfg, w);
  }

  /** The others are not disturbed: of the shared state they only rely on cancellation being permanent. */
  lemma {:induction false} OthersOk(cfg: Config, w: nat, g: Shared, t: Worker, reply: Reply, other: Worker)
    requires WorkerOk(cfg, g, other)
    ensures WorkerOk(cfg, StepShared(cfg, w, g, t, reply), other)
  {
  }

  lemma {:induction false} StepOpenLoad(cfg: Config, w: nat, g: Shared, t: Worker, reply: Reply)
    requires cfg.Ok() && w < |cfg.gens| && WorkerOk(cfg, g, t)
    ensures var h := StepShared(cfg, w, g, t, reply); var u := StepWorker(cfg, w, g, t, reply);
            h.sent + h.errors + OpenLoad(u)
            == g.sent + g.errors + OpenLoad(t) + if t.pc.Add? && !Crosses(cfg, g, t.n) then t.n else 0
  {
    hide Filled, Config.Ok;
  }

  lemma {:induction false} StepCrossedLoad(cfg: Config, w: nat, g: Shared, t: Worker, reply: Reply)
    requires cfg.Ok() && w < |cfg.gens| && WorkerOk(cfg, g, t)
    ensures var h := StepShared(cfg, w, g, t, reply); var u := StepWorker(cfg, w, g, t, reply);
            h.generated - CrossedLoad(u)
            == g.generated - CrossedLoad(t) + if t.pc.Add? && !Crosses(cfg, g, t.n) then t.n else 0
  {
    hide Filled, Config.Ok;
  }

  lemma {:induction false} StepInflight(cfg: Config, w: nat, g: Shared, t: Worker, reply: Reply)
    requires cfg.Ok() && w < |cfg.gens| && WorkerOk(cfg, g, t)
    ensures var h := StepShared(cfg, w, g, t, reply); var u := StepWorker(cfg, w, g, t, reply);
            h.inflight - Inside(u) == g.inflight - Inside(t)
  {
    hide Filled, Config.Ok;
  }

  lemma {:induction false} StepGenerated(cfg: Config, w: nat, g: Shared, t: Worker, reply: Reply)
    requires cfg.Ok() && w < |cfg.gens| && WorkerOk(cfg, g, t)
    ensures var h := StepShared(cfg, w, g, t, reply); var u := StepWorker(cfg, w, g, t, reply);
            h.generated - (h.spansGenerated + Uncounted(u)) == g.generated - (g.spansGenerated + Uncounted(t))
  {
    hide Filled, Config.Ok;
  }

  lemma {:induction false} StepObserved(cfg: Config, w: nat, g: Shared, t: Worker, reply: Reply)
    requires cfg.Ok() && w < |cfg.gens| && WorkerOk(cfg, g, t)
    ensures var h := StepShared(cfg, w, g, t, reply); var u := StepWorker(cfg, w, g, t, reply);
            h.observed - (h.batchesOk + h.sendErrors + Answered(u))
              == g.observed - (g.batchesOk + g.sendErrors + Answered(t))
  {
    hide Filled, Config.Ok;
  }

  lemma {:induction false} StepSpansSent(cfg: Config, w: nat, g: Shared, t: Worker, reply: Reply)
    requires cfg.Ok() && w < |cfg.gens| && WorkerOk(cfg, g, t)
    ensures var h := StepShared(cfg, w, g, t, reply); var u := StepWorker(cfg, w, g, t, reply);
            h.spansSent - (h.sent + SpansSentAhead(u)) == g.spansSent - (g.sent + SpansSentAhead(t))
  {
    hide Filled, Config.Ok;
  }

  lemma {:induction false} StepDropped(cfg: Config, w: nat, g: Shared, t: Worker, reply: Reply)
    requires cfg.Ok() && w < |cfg.gens| && WorkerOk(cfg, g, t)
    ensures var h := StepShared(cfg, w, g, t, reply); var u := StepWorker(cfg, w, g, t, reply);
            h.dropped - (h.errors + DroppedAhead(u)) == g.dropped - (g.errors + DroppedAhead(t))
  {
    hide Filled, Config.Ok;
  }

  lemma {:induction false} StepBatches(cfg: Config, w: nat, g: Shared, t: Worker, reply: Reply)
    requires cfg.Ok() && w < |cfg.gens| && WorkerOk(cfg, g, t)
    ensures var h := StepShared(cfg, w, g, t, reply); var u := StepWorker(cfg, w, g, t, reply);
            cfg.batch * h.batchesOk - (h.sent + OkAhead(u)) == cfg.batch * g.batchesOk - (g.sent + OkAhead(t))
  {
    hide Filled, Config.Ok;
    assert cfg.batch * (g.batchesOk + 1) == cfg.batch * g.batchesOk + cfg.batch;
  }

  lemma {:induction false} StepDrops(cfg: Config, w: nat, g: Shared, t: Worker, reply: Reply)
    requires cfg.Ok() && w < |cfg.gens| && WorkerOk(cfg, g, t)
    ensures var h := StepShared(cfg, w, g, t, reply); var u := StepWorker(cfg, w, g, t, reply);
            cfg.batch * h.batchesErr - (h.errors + ErrAhead(u)) == cfg.batch * g.batchesErr - (g.errors + ErrAhead(t))
  {
    hide Filled, Config.Ok;
    assert cfg.batch * (g.batchesErr + 1) == cfg.batch * g.batchesErr + cfg.batch;
  }

  lemma {:induction false} StepErrors(cfg: Config, w: nat, g: Shared, t: Worker, reply: Reply)
    requires cfg.Ok() && w < |cfg.gens| && WorkerOk(cfg, g, t)
    ensures var h := StepShared(cfg, w, g, t, reply); var u := StepWorker(cfg, w, g, t, reply);
            h.sendErrors - (h.batchesErr + Fails(u)) >= g.sendErrors - (g.batchesErr + Fails(t))
  {
    hide Filled, Config.Ok;
  }

  lemma {:induction false} StepRetries(cfg: Config, w: nat, g: Shared, t: Worker, reply: Reply)
    requires cfg.Ok() && w < |cfg.gens| && WorkerOk(cfg, g, t)
    ensures var h := StepShared(cfg, w, g, t, reply); var u := StepWorker(cfg, w, g, t, reply);
            h.sendErrors - (2 * h.batchesErr + h.batchesOk + Fails(u))
            <= g.sendErrors - (2 * g.batchesErr + g.batchesOk + Fails(t))
  {
    hide Filled, Config.Ok;
  }

  lemma {:induction false} CrossedLoadsCount(cfg: Config, s: State)
    requires |s.ws| == |cfg.gens| && forall w :: 0 <= w < |s.ws| ==> WorkerOk(cfg, s.g, s.ws[w])
    ensures 0 <= Sum(s.ws, CrossedLoad) <= |s.ws| * cfg.batch
    ensures 0 <= Sum(s.ws, OpenLoad) + Sum(s.ws, CrossedLoad) <= |s.ws| * cfg.batch
  {
    forall w | 0 <= w < |s.ws|
      ensures 0 <= CrossedLoad(s.ws[w]) <= cfg.batch && 0 <= OpenLoad(s.ws[w])
      ensures 0 <= Load(s.ws[w]) <= cfg.batch
    {
      assert WorkerOk(cfg, s.g, s.ws[w]);
    }
    hide WorkerOk;
    SumBounds(s.ws, CrossedLoad, 0, cfg.batch);
    SumBounds(s.ws, Load, 0, cfg.batch);
    LoadSplits(s.ws);
  }

  lemma {:induction false} LoadSplits(ws: seq<Worker>)
    ensures Sum(ws, Load) == Sum(ws, OpenLoad) + Sum(ws, CrossedLoad)
  {
    if ws == [] {
    } else {
      LoadSplits(ws[..|ws| - 1]);
    }
  }

  lemma {:induction false} MoveWorkersOk(cfg: Config, s: State, w: nat, reply: Reply)
    requires cfg.Ok() && Inv(cfg, s) && Moves(cfg, s, w, reply)
    ensures var r := Move(cfg, s, w, reply); forall v :: 0 <= v < |r.ws| ==> WorkerOk(cfg, r.g, r.ws[v])
  {
    hide StepShared, StepWorker, WorkerOk, Enabled, Sum;
    var t := s.ws[w];
    StepWorkerOk(cfg, w, s.g, t, reply);
    forall v | 0 <= v < |s.ws| && v != w ensures WorkerOk(cfg, StepShared(cfg, w, s.g, t, reply), s.ws[v]) {
      OthersOk(cfg, w, s.g, t, reply, s.ws[v]);
    }
  }

  lemma {:induction false} MoveKeepsInv(cfg: Config, s: State, w: nat, reply: Reply)
    requires cfg.Ok() && Inv(cfg, s) && Moves(cfg, s, w, reply)
    ensures Inv(cfg, Move(cfg, s, w, reply))
  {
    hide WorkerOk, StepShared, StepWorker, Enabled, Sum, OpenLoad, CrossedLoad, Inside, Uncounted, Answered,
         SpansSentAhead, DroppedAhead, OkAhead, ErrAhead, Fails;
    var t := s.ws[w];
    var u := StepWorker(cfg, w, s.g, t, reply);
    MoveWorkersOk(cfg, s, w, reply);
    StepOpenLoad(cfg, w, s.g, t, reply);
    StepCrossedLoad(cfg, w, s.g, t, reply);
    StepInflight(cfg, w, s.g, t, reply);
    StepGenerated(cfg, w, s.g, t, reply);
    StepObserved(cfg, w, s.g, t, reply);
    StepSpansSent(cfg, w, s.g, t, reply);
    StepDropped(cfg, w, s.g, t, reply);
    StepBatches(cfg, w, s.g, t, reply);
    StepDrops(cfg, w, s.g, t, reply);
    StepErrors(cfg, w, s.g, t, reply);
    StepRetries(cfg, w, s.g, t, reply);
    CrossedLoadsCount(cfg, s);
    if cfg.maxSpans > 0 {
      CapStep(cfg, s, w);
    }
    SumUpdate(s.ws, w, u, OpenLoad);
    SumUpdate(s.ws, w, u, CrossedLoad);
    SumUpdate(s.ws, w, u, Inside);
    SumUpdate(s.ws, w, u, Uncounted);
    SumUpdate(s.ws, w, u, Answered);
    SumUpdate(s.ws, w, u, SpansSentAhead);
    SumUpdate(s.ws, w, u, DroppedAhead);
    SumUpdate(s.ws, w, u, OkAhead);
    SumUpdate(s.ws, w, u, ErrAhead);
    SumUpdate(s.ws, w, u, Fails);
  }

  /** An Add that stays below the cap leaves room for what it adds. */
  lemma {:induction false} CapStep(cfg: Config, s: State, w: nat)
    requires Inv(cfg, s) && w < |s.ws|
    requires cfg.maxSpans > 0
    ensures s.g.sent + s.g.errors + Sum(s.ws, OpenLoad)
          + (if s.ws[w].pc.Add? && !Crosses(cfg, s.g, s.ws[w].n) then s.ws[w].n else 0) < cfg.maxSpans
  {
    hide Sum, WorkerOk;
    CrossedLoadsCount(cfg, s);
  }

  /** On a live context a wait is granted exactly up to the batch size, the largest trace and 64 more. */
  lemma {:induction false} WaitLimit(cfg: Config, w: nat, g: Shared, n: nat)
    requires w < |cfg.gens| && !g.cancelled
    ensures WaitMay(cfg, w, g, n, Success) <==> n <= cfg.batch + cfg.gens[w].maxSpans + 64
    ensures WaitMay(cfg, w, g, n, Failure) <==> n > cfg.batch + cfg.gens[w].maxSpans + 64
  {
  }
}
