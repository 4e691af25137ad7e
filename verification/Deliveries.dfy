/** What a whole run of the worker pool leaves in the store: which batches, how often, how many rows. */
module Deliveries {
  import opened Engine
  import opened Conservation
  import opened Lifecycle

  /** The tape position of worker `w` after its first `k` batches. */
  function Progress(cfg: Config, w: nat, k: nat): nat
    requires cfg.Ok() && w < |cfg.gens|
  {
    if k == 0 then 0 else Filled(cfg, w, Progress(cfg, w, k - 1)).pos
  }

  function Copies(xs: seq<BatchId>, w: nat, nth: nat): nat {
    multiset(xs)[BatchId(w, nth)]
  }

  /** How often the batch in hand has landed (`c`) and been reported as an error all the same (`u`). */
  predicate InHand(pc: Pc, c: nat, u: nat) {
    match pc
    case Add | Cancel | CountGenerated | Wait | Recheck | Enter => c == u == 0
    case Attempt(k) => c == u <= k
    case Observe(k, ok) => if ok then c == u + 1 <= k + 1 else c == u <= k + 1
    case CountOk(fails) => c == u + 1 <= fails + 1
    case CountSpansSent | AddSent => c == u + 1 <= 2
    case CountError(k) => c == u <= k + 1
    case CheckRetry(k) => c == u <= k + 1
    case Pause(k) => c == u <= k + 1
    case CountErr(_) | CountDropped | AddErrors => c == u <= 2
    case Done(lost) => if lost > 0 then c == u == 0 else Past(c, u)
    case _ => Past(c, u)
  }

  /** A batch that is done with: it landed at most twice, and at most once with a confirmation. */
  predicate Past(c: nat, u: nat) { u <= c <= u + 1 && c <= 2 }

  predicate Idle(pc: Pc) { pc.CtxCheck? || pc.Fill? || pc.Done? }

  ghost predicate BatchOk(g: Shared, w: nat, t: Worker, nth: nat) {
    var c, u := Copies(g.landed, w, nth), Copies(g.unconfirmed, w, nth);
    if nth == 0 || nth > t.filled then c == u == 0
    else if nth == t.filled then InHand(t.pc, c, u)
    else Past(c, u)
  }

  ghost predicate Delivered(cfg: Config, g: Shared, w: nat, t: Worker)
    requires cfg.Ok() && w < |cfg.gens|
  {
    && t.pos == Progress(cfg, w, t.filled)
    && (t.filled == 0 ==> Idle(t.pc))
    && forall nth :: BatchOk(g, w, t, nth)
  }

  function Acknowledged(t: Worker): int {
    match t.pc
    case Observe(_, ok) => if ok then t.n else 0
    case CountOk(_) | CountSpansSent | AddSent => t.n
    case _ => 0
  }

  function Reported(t: Worker): int {
    match t.pc
    case Observe(_, ok) => if ok then 0 else 1
    case CountError(_) => 1
    case _ => 0
  }

  ghost predicate StoreInv(cfg: Config, s: State)
    requires cfg.Ok() && |s.ws| == |cfg.gens|
  {
    && (forall w :: 0 <= w < |s.ws| ==> Delivered(cfg, s.g, w, s.ws[w]))
    && (forall id :: id in s.g.landed || id in s.g.unconfirmed ==> id.w < |s.ws|)
    && cfg.batch * |s.g.landed| == s.g.sent + cfg.batch * |s.g.unconfirmed| + Sum(s.ws, Acknowledged)
    && |s.g.unconfirmed| <= s.g.sendErrors + Sum(s.ws, Reported)
  }

  // ---- one step ----

  lemma {:induction false} OneMore(xs: seq<BatchId>, id: BatchId, w: nat, nth: nat)
    ensures Copies(xs + [id], w, nth) == Copies(xs, w, nth) + if id == BatchId(w, nth) then 1 else 0
  {
  }

  /** How a step changes the copies of any one batch. */
  lemma {:induction false} StepCopies(cfg: Config, w: nat, g: Shared, t: Worker, reply: Reply, v: nat, nth: nat)
    ensures var h := StepShared(cfg, w, g, t, reply);
            var mine := t.pc.Attempt? && BatchId(v, nth) == BatchId(w, t.filled);
            && Copies(h.landed, v, nth) == Copies(g.landed, v, nth) + (if mine && !reply.Failure? then 1 else 0)
            && Copies(h.unconfirmed, v, nth)
               == Copies(g.unconfirmed, v, nth) + (if mine && reply.Unconfirmed? then 1 else 0)
  {
    OneMore(g.landed, BatchId(w, t.filled), v, nth);
    OneMore(g.unconfirmed, BatchId(w, t.filled), v, nth);
    hide Copies;
  }

  lemma {:induction false} StepDelivered(cfg: Config, w: nat, g: Shared, t: Worker, reply: Reply)
    requires cfg.Ok() && w < |cfg.gens| && WorkerOk(cfg, g, t)
    requires Delivered(cfg, g, w, t)
    ensures Delivered(cfg, StepShared(cfg, w, g, t, reply), w, StepWorker(cfg, w, g, t, reply))
  {
    hide Filled, Copies, Config.Ok;
    var h, u := StepShared(cfg, w, g, t, reply), StepWorker(cfg, w, g, t, reply);
    forall nth: nat ensures BatchOk(h, w, u, nth) {
      assert BatchOk(g, w, t, nth);
      StepCopies(cfg, w, g, t, reply, w, nth);
      StepBatchOk(cfg, w, g, t, reply, nth);
    }
  }

  lemma {:induction false} StepBatchOk(cfg: Config, w: nat, g: Shared, t: Worker, reply: Reply, nth: nat)
    requires cfg.Ok() && w < |cfg.gens| && WorkerOk(cfg, g, t)
    requires BatchOk(g, w, t, nth) && (t.filled == 0 ==> Idle(t.pc))
    ensures BatchOk(StepShared(cfg, w, g, t, reply), w, StepWorker(cfg, w, g, t, reply), nth)
  {
    hide Filled, Copies, Config.Ok;
    StepCopies(cfg, w, g, t, reply, w, nth);
  }

  lemma {:induction false} OthersDelivered(cfg: Config, w: nat, g: Shared, t: Worker, reply: Reply, v: nat,
                                           other: Worker)
    requires cfg.Ok() && v < |cfg.gens| && v != w
    requires Delivered(cfg, g, v, other)
    ensures Delivered(cfg, StepShared(cfg, w, g, t, reply), v, other)
  {
    hide Copies, InHand, StepShared;
    forall nth: nat ensures BatchOk(StepShared(cfg, w, g, t, reply), v, other, nth) {
      assert BatchOk(g, v, other, nth);
      StepCopies(cfg, w, g, t, reply, v, nth);
    }
  }

  lemma {:induction false} StepStored(cfg: Config, w: nat, g: Shared, t: Worker, reply: Reply)
    requires cfg.Ok() && w < |cfg.gens| && WorkerOk(cfg, g, t)
    ensures var h := StepShared(cfg, w, g, t, reply); var u := StepWorker(cfg, w, g, t, reply);
            && cfg.batch * |h.landed| - (h.sent + cfg.batch * |h.unconfirmed| + Acknowledged(u))
            == cfg.batch * |g.landed| - (g.sent + cfg.batch * |g.unconfirmed| + Acknowledged(t))
  {
    hide Filled, Config.Ok;
    assert cfg.batch * (|g.landed| + 1) == cfg.batch * |g.landed| + cfg.batch;
    assert cfg.batch * (|g.unconfirmed| + 1) == cfg.batch * |g.unconfirmed| + cfg.batch;
  }

  lemma {:induction false} StepReported(cfg: Config, w: nat, g: Shared, t: Worker, reply: Reply)
    requires cfg.Ok() && w < |cfg.gens|
    ensures var h := StepShared(cfg, w, g, t, reply); var u := StepWorker(cfg, w, g, t, reply);
            && |h.unconfirmed| - (h.sendErrors + Reported(u)) <= |g.unconfirmed| - (g.sendErrors + Reported(t))
            && forall id :: id in h.landed || id in h.unconfirmed ==> id in g.landed || id in g.unconfirmed || id.w == w
  {
    hide Filled, Config.Ok;
  }

  lemma {:induction false} MoveDelivers(cfg: Config, s: State, w: nat, reply: Reply)
    requires cfg.Ok() && Moves(cfg, s, w, reply) && WorkerOk(cfg, s.g, s.ws[w])
    requires StoreInv(cfg, s)
    ensures var r := Move(cfg, s, w, reply);
            forall v :: 0 <= v < |r.ws| ==> Delivered(cfg, r.g, v, r.ws[v])
  {
    hide StepShared, StepWorker, WorkerOk, Delivered, Sum;
    var t := s.ws[w];
    StepDelivered(cfg, w, s.g, t, reply);
    forall v | 0 <= v < |s.ws| && v != w ensures Delivered(cfg, StepShared(cfg, w, s.g, t, reply), v, s.ws[v]) {
      OthersDelivered(cfg, w, s.g, t, reply, v, s.ws[v]);
    }
  }

  lemma {:induction false} MoveKeepsStore(cfg: Config, s: State, w: nat, reply: Reply)
    requires cfg.Ok() && Moves(cfg, s, w, reply) && WorkerOk(cfg, s.g, s.ws[w])
    requires StoreInv(cfg, s)
    ensures StoreInv(cfg, Move(cfg, s, w, reply))
  {
    hide Enabled, StepShared, StepWorker, WorkerOk, Delivered, Sum, Acknowledged, Reported;
    var t := s.ws[w];
    var u := StepWorker(cfg, w, s.g, t, reply);
    MoveDelivers(cfg, s, w, reply);
    StepStored(cfg, w, s.g, t, reply);
    StepReported(cfg, w, s.g, t, reply);
    SumUpdate(s.ws, w, u, Acknowledged);
    SumUpdate(s.ws, w, u, Reported);
  }

  // ---- whole runs ----

  lemma {:induction false} InitStore(cfg: Config, s: State)
    requires cfg.Ok() && Init(cfg, s)
    ensures StoreInv(cfg, s)
  {
    hide Sum;
    ZeroSum(s.ws, Acknowledged);
    ZeroSum(s.ws, Reported);
  }

  lemma {:induction false} InterruptKeepsStore(cfg: Config, s: State)
    requires cfg.Ok() && |s.ws| == |cfg.gens| && StoreInv(cfg, s)
    ensures StoreInv(cfg, Interrupt(s))
  {
    hide Sum;
    forall w | 0 <= w < |s.ws| ensures Delivered(cfg, Interrupt(s).g, w, s.ws[w]) {
      assert Delivered(cfg, s.g, w, s.ws[w]);
      forall nth: nat ensures BatchOk(Interrupt(s).g, w, s.ws[w], nth) {
        assert BatchOk(s.g, w, s.ws[w], nth);
      }
    }
  }

  lemma {:induction false} StoreAlways(cfg: Config, run: seq<State>, i: nat)
    requires cfg.Ok() && Run(cfg, run) && i < |run|
    ensures |run[i].ws| == |cfg.gens| && StoreInv(cfg, run[i])
  {
    hide StoreInv, Move, Interrupt, Init, Sum, WorkerOk;
    Always(cfg, run, i);
    if i == 0 {
      InitStore(cfg, run[0]);
    } else {
      Always(cfg, run, i - 1);
      StoreAlways(cfg, run, i - 1);
      var s := run[i - 1];
      assert Next(cfg, s, run[i - 1 + 1]);
      if run[i] == Interrupt(s) {
        InterruptKeepsStore(cfg, s);
      } else {
        var w: nat, reply: Reply :| Moves(cfg, s, w, reply) && run[i] == Move(cfg, s, w, reply);
        MoveKeepsStore(cfg, s, w, reply);
      }
    }
  }

  lemma {:induction false} NoCopies(xs: seq<BatchId>, w: nat, nth: nat)
    ensures Copies(xs, w, nth) > 0 ==> exists id :: id in xs && id.w == w
  {
    if Copies(xs, w, nth) > 0 {
      assert BatchId(w, nth) in xs;
    }
  }

  lemma {:induction false} OfWorker(cfg: Config, g: Shared, w: nat, t: Worker, nth: nat)
    requires cfg.Ok() && w < |cfg.gens| && Delivered(cfg, g, w, t) && WorkerOk(cfg, g, t)
    ensures var c := Copies(g.landed, w, nth); var u := Copies(g.unconfirmed, w, nth);
            && u <= c <= u + 1 && c <= 2
            && (c > 0 ==> 1 <= nth <= t.filled)
  {
    hide Copies, Progress;
    assert BatchOk(g, w, t, nth);
  }

  /** Retries never store a batch more than twice, and a second copy is always due to an insert that
      landed although it was reported as an error. Only batches that were filled are stored. */
  lemma {:induction false} AtMostTwice(cfg: Config, run: seq<State>, i: nat, w: nat, nth: nat)
    requires cfg.Ok() && Run(cfg, run) && i < |run|
    ensures var g := run[i].g; var c := Copies(g.landed, w, nth); var u := Copies(g.unconfirmed, w, nth);
            && u <= c <= u + 1 && c <= 2
            && (c > 0 ==> w < |run[i].ws| && 1 <= nth <= run[i].ws[w].filled)
  {
    hide Copies, Sum, Delivered, WorkerOk, Init, Next;
    StoreAlways(cfg, run, i);
    Always(cfg, run, i);
    var s := run[i];
    if w < |s.ws| {
      OfWorker(cfg, s.g, w, s.ws[w], nth);
    } else {
      NoCopies(s.g.landed, w, nth);
      NoCopies(s.g.unconfirmed, w, nth);
    }
  }

  /** What a worker holds when it stops never lands, and neither does the batch that reached the cap. */
  lemma {:induction false} AbandonedNeverLands(cfg: Config, run: seq<State>, i: nat, w: nat)
    requires cfg.Ok() && Run(cfg, run) && i < |run| && w < |run[i].ws|
    requires var t := run[i].ws[w]; t.crossed || (t.pc.Done? && t.pc.lost > 0)
    ensures Copies(run[i].g.landed, w, run[i].ws[w].filled) == 0
    ensures Copies(run[i].g.unconfirmed, w, run[i].ws[w].filled) == 0
  {
    hide Copies, Sum, Delivered, WorkerOk, Init, Next;
    StoreAlways(cfg, run, i);
    Always(cfg, run, i);
    InHandUnsent(cfg, run[i].g, w, run[i].ws[w]);
  }

  lemma {:induction false} InHandUnsent(cfg: Config, g: Shared, w: nat, t: Worker)
    requires cfg.Ok() && w < |cfg.gens| && Delivered(cfg, g, w, t) && WorkerOk(cfg, g, t)
    requires t.crossed || (t.pc.Done? && t.pc.lost > 0)
    ensures Copies(g.landed, w, t.filled) == 0 && Copies(g.unconfirmed, w, t.filled) == 0
  {
    hide Copies, Progress;
    assert BatchOk(g, w, t, t.filled);
  }

  lemma {:induction false} Grows(b: nat, m: nat, n: nat)
    requires m <= n
    ensures b * m <= b * n
  {
    assert b * n == b * m + b * (n - m);
  }

  /** No span is counted as sent before it is stored, and without unconfirmed inserts nothing else is
      stored: spans in the store that are not counted yet are those of acknowledged sends. */
  lemma {:induction false} SentIsStored(cfg: Config, run: seq<State>, i: nat)
    requires cfg.Ok() && Run(cfg, run) && i < |run|
    ensures var s := run[i];
            && s.g.sent <= cfg.batch * |s.g.landed|
            && cfg.batch * |s.g.landed| == s.g.sent + cfg.batch * |s.g.unconfirmed| + Sum(s.ws, Acknowledged)
            && 0 <= Sum(s.ws, Acknowledged) <= |s.ws| * cfg.batch
  {
    StoreAlways(cfg, run, i);
    Always(cfg, run, i);
    var s := run[i];
    forall w | 0 <= w < |s.ws| ensures 0 <= Acknowledged(s.ws[w]) <= cfg.batch {
      assert WorkerOk(cfg, s.g, s.ws[w]);
    }
    hide Sum, WorkerOk, Run, Delivered;
    SumBounds(s.ws, Acknowledged, 0, cfg.batch);
    Grows(cfg.batch, 0, |s.g.unconfirmed|);
  }

  /** Once all workers have stopped, the store holds the spans counted as sent and one more copy for
      every unconfirmed insert, of which there are no more than reported errors; in all no more than
      two copies of what was ever handed to a send. */
  lemma {:induction false} StoreAtRest(cfg: Config, run: seq<State>, i: nat)
    requires cfg.Ok() && Run(cfg, run) && i < |run| && AllDone(run[i])
    ensures var g := run[i].g;
            && cfg.batch * |g.landed| == g.sent + cfg.batch * |g.unconfirmed|
            && |g.unconfirmed| <= g.sendErrors
            && g.sent <= cfg.batch * |g.landed| <= 2 * (g.sent + g.errors)
  {
    hide Sum, Run, Inv, WorkerOk, Delivered;
    StoreAlways(cfg, run, i);
    BooksBalance(cfg, run, i);
    var s := run[i];
    ZeroSum(s.ws, Acknowledged);
    ZeroSum(s.ws, Reported);
    var g := s.g;
    Grows(cfg.batch, |g.unconfirmed|, 2 * g.batchesErr + g.batchesOk);
    Grows(cfg.batch, 0, |g.unconfirmed|);
    assert cfg.batch * (2 * g.batchesErr + g.batchesOk) == 2 * (cfg.batch * g.batchesErr) + cfg.batch * g.batchesOk;
  }

  lemma {:induction false} SumMember(ws: seq<Worker>, f: Worker -> int, w: nat)
    requires w < |ws| && forall v :: 0 <= v < |ws| ==> f(ws[v]) >= 0
    ensures 0 <= f(ws[w]) <= Sum(ws, f)
  {
    var n := |ws| - 1;
    assert forall v :: 0 <= v < n ==> ws[..n][v] == ws[v];
    if w < n {
      SumMember(ws[..n], f, w);
    } else {
      SumCompare(ws[..n], _ => 0, f);
      ZeroSum(ws[..n], _ => 0);
    }
  }

  /** A worker whose load is not counted, or is that of the batch that reached the cap, has no attempt in
      progress. */
  lemma {:induction false} UnloadedIdle(cfg: Config, g: Shared, t: Worker)
    requires cfg.Ok() && WorkerOk(cfg, g, t) && OpenLoad(t) < cfg.batch
    ensures Fails(t) == 0 && Reported(t) == 0 && Acknowledged(t) == 0
  {
    hide Config.Ok;
  }

  /** A cap no larger than a batch stops the run before anything reaches the store. */
  lemma {:induction false} SmallCapStoresNothing(cfg: Config, run: seq<State>, i: nat)
    requires cfg.Ok() && Run(cfg, run) && i < |run|
    requires 0 < cfg.maxSpans <= cfg.batch
    ensures run[i].g.landed == [] && run[i].g.sendErrors == 0
  {
    hide Sum, Run, Delivered, WorkerOk, Fails, Reported, Acknowledged, OpenLoad;
    Always(cfg, run, i);
    StoreAlways(cfg, run, i);
    SmallCapSendsNothing(cfg, run, i);
    var s := run[i];
    forall w | 0 <= w < |s.ws|
      ensures Fails(s.ws[w]) == 0 && Reported(s.ws[w]) == 0 && Acknowledged(s.ws[w]) == 0
    {
      forall v | 0 <= v < |s.ws| ensures OpenLoad(s.ws[v]) >= 0 { OpenLoadOk(cfg, s.g, s.ws[v]); }
      SumMember(s.ws, OpenLoad, w);
      UnloadedIdle(cfg, s.g, s.ws[w]);
    }
    ZeroSum(s.ws, Fails);
    ZeroSum(s.ws, Reported);
    ZeroSum(s.ws, Acknowledged);
    assert |s.g.unconfirmed| == 0;
    AtLeastOne(cfg.batch, |s.g.landed|);
  }

  lemma {:induction false} OpenLoadOk(cfg: Config, g: Shared, t: Worker)
    requires WorkerOk(cfg, g, t)
    ensures OpenLoad(t) >= 0
  {
  }
}
