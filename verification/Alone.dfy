/** One turn of a worker while no other moves: its steps add up to what the source's loop body does. */
module Alone {
  import opened Engine
  import Catalog

  // ---- what the loop body does ----

  /** Counters and metrics after a batch of `n` spans was filled. */
  function AfterFill(cfg: Config, g: Shared, n: nat): Shared {
    g.(generated := g.generated + n, spansGenerated := g.spansGenerated + n,
       cancelled := g.cancelled || Crosses(cfg, g, n))
  }

  /** One insert attempt. */
  function Attempted(g: Shared, id: BatchId, reply: Reply): Shared {
    g.(observed := g.observed + 1,
       sendErrors := g.sendErrors + if reply.Success? then 0 else 1,
       landed := if reply.Failure? then g.landed else g.landed + [id],
       unconfirmed := if reply.Unconfirmed? then g.unconfirmed + [id] else g.unconfirmed)
  }

  /** The batch is counted once, with all its spans. */
  function Settled(g: Shared, n: nat, ok: bool): Shared {
    if ok then g.(batchesOk := g.batchesOk + 1, spansSent := g.spansSent + n, sent := g.sent + n)
    else g.(batchesErr := g.batchesErr + 1, dropped := g.dropped + n, errors := g.errors + n)
  }

  function Left(g: Shared): Shared { g.(inflight := g.inflight - 1) }

  /** A send: a second attempt follows a failed first one unless the context has been cancelled. */
  function AfterSend(g: Shared, id: BatchId, n: nat, first: Reply, second: Reply): Shared {
    var tried := Attempted(g, id, first);
    if first.Success? || g.cancelled then Settled(tried, n, first.Success?)
    else Settled(Attempted(tried, id, second), n, second.Success?)
  }

  /** One pass of the worker's loop, from the context check at its head: to the next pass, or out. */
  function AfterTurn(cfg: Config, w: nat, g: Shared, t: Worker, waited: Reply, first: Reply, second: Reply): (Shared,
                     Worker)
    requires cfg.Ok() && w < |cfg.gens|
  {
    if g.cancelled then (g, t.(pc := Done(0))) else
      var b := Filled(cfg, w, t.pos);
      var n := |b.log|;
      var h := AfterFill(cfg, g, n);
      var u := t.(n := n, pos := b.pos, filled := t.filled + 1, crossed := Crosses(cfg, g, n));
      if (cfg.limited && !waited.Success?) || h.cancelled then (h, u.(pc := Done(n)))
      else (AfterSend(h, BatchId(w, u.filled), n, first, second), u.(pc := CtxCheck))
  }

  // ---- the same, step by step ----

  /** Worker `w` gets from one place to the other by steps of its own. */
  ghost predicate Reaches(cfg: Config, w: nat, g: Shared, t: Worker, h: Shared, u: Worker, steps: nat)
    requires cfg.Ok() && w < |cfg.gens|
    decreases steps
  {
    if steps == 0 then g == h && t == u
    else exists reply :: Enabled(cfg, w, g, t, reply)
                      && Reaches(cfg, w, StepShared(cfg, w, g, t, reply),
                                 StepWorker(cfg, w, g, t, reply), h, u, steps - 1)
  }

  lemma {:induction false} Then(cfg: Config, w: nat, g: Shared, t: Worker, reply: Reply, h: Shared, u: Worker,
                                steps: nat)
    requires cfg.Ok() && w < |cfg.gens| && Enabled(cfg, w, g, t, reply)
    requires Reaches(cfg, w, StepShared(cfg, w, g, t, reply), StepWorker(cfg, w, g, t, reply), h, u, steps)
    ensures Reaches(cfg, w, g, t, h, u, steps + 1)
  {
  }

  lemma {:induction false} Via(cfg: Config, w: nat, g: Shared, t: Worker, m: Shared, v: Worker, h: Shared, u: Worker,
                               k: nat, n: nat)
    requires cfg.Ok() && w < |cfg.gens|
    requires Reaches(cfg, w, g, t, m, v, k) && Reaches(cfg, w, m, v, h, u, n)
    ensures Reaches(cfg, w, g, t, h, u, k + n)
    decreases k
  {
    hide StepShared, StepWorker, Enabled;
    if k == 0 {
    } else {
      var reply :| Enabled(cfg, w, g, t, reply)
                && Reaches(cfg, w, StepShared(cfg, w, g, t, reply), StepWorker(cfg, w, g, t, reply), m, v, k - 1);
      hide Reaches;
      Via(cfg, w, StepShared(cfg, w, g, t, reply), StepWorker(cfg, w, g, t, reply), m, v, h, u, k - 1, n);
      Then(cfg, w, g, t, reply, h, u, k - 1 + n);
    }
  }

  lemma {:induction false} SettleOk(cfg: Config, w: nat, g: Shared, t: Worker)
    requires cfg.Ok() && w < |cfg.gens| && t.pc.CountOk?
    ensures Reaches(cfg, w, g, t, Left(Settled(g, t.n, true)), t.(pc := CtxCheck), 4)
  {
    hide Filled, Reaches, Config.Ok;
    var h, u := Left(Settled(g, t.n, true)), t.(pc := CtxCheck);
    var g1 := g.(batchesOk := g.batchesOk + 1);
    var g2 := g1.(spansSent := g.spansSent + t.n);
    SettleOkLast(cfg, w, g2, t.(pc := AddSent));
    Then(cfg, w, g1, t.(pc := CountSpansSent), Success, h, u, 2);
    Then(cfg, w, g, t, Success, h, u, 3);
  }

  lemma {:induction false} SettleOkLast(cfg: Config, w: nat, g: Shared, t: Worker)
    requires cfg.Ok() && w < |cfg.gens| && t.pc.AddSent?
    ensures Reaches(cfg, w, g, t, Left(g.(sent := g.sent + t.n)), t.(pc := CtxCheck), 2)
  {
    hide Filled, Reaches, Config.Ok;
    var g1 := g.(sent := g.sent + t.n);
    Stays(cfg, w, Left(g1), t.(pc := CtxCheck));
    Then(cfg, w, g1, t.(pc := Leave), Success, Left(g1), t.(pc := CtxCheck), 0);
    Then(cfg, w, g, t, Success, Left(g1), t.(pc := CtxCheck), 1);
  }

  lemma {:induction false} SettleErr(cfg: Config, w: nat, g: Shared, t: Worker)
    requires cfg.Ok() && w < |cfg.gens| && t.pc.CountErr?
    ensures Reaches(cfg, w, g, t, Left(Settled(g, t.n, false)), t.(pc := CtxCheck), 4)
  {
    hide Filled, Reaches, Config.Ok;
    var h, u := Left(Settled(g, t.n, false)), t.(pc := CtxCheck);
    var g1 := g.(batchesErr := g.batchesErr + 1);
    var g2 := g1.(dropped := g.dropped + t.n);
    SettleErrLast(cfg, w, g2, t.(pc := AddErrors));
    Then(cfg, w, g1, t.(pc := CountDropped), Success, h, u, 2);
    Then(cfg, w, g, t, Success, h, u, 3);
  }

  lemma {:induction false} SettleErrLast(cfg: Config, w: nat, g: Shared, t: Worker)
    requires cfg.Ok() && w < |cfg.gens| && t.pc.AddErrors?
    ensures Reaches(cfg, w, g, t, Left(g.(errors := g.errors + t.n)), t.(pc := CtxCheck), 2)
  {
    hide Filled, Reaches, Config.Ok;
    var g1 := g.(errors := g.errors + t.n);
    Stays(cfg, w, Left(g1), t.(pc := CtxCheck));
    Then(cfg, w, g1, t.(pc := Leave), Success, Left(g1), t.(pc := CtxCheck), 0);
    Then(cfg, w, g, t, Success, Left(g1), t.(pc := CtxCheck), 1);
  }

  lemma {:induction false} Stays(cfg: Config, w: nat, h: Shared, u: Worker)
    requires cfg.Ok() && w < |cfg.gens|
    ensures Reaches(cfg, w, h, u, h, u, 0)
  {
  }

  lemma {:induction false} TrySucceeds(cfg: Config, w: nat, g: Shared, t: Worker)
    requires cfg.Ok() && w < |cfg.gens| && t.pc.Attempt?
    ensures Reaches(cfg, w, g, t, Attempted(g, BatchId(w, t.filled), Success), t.(pc := CountOk(t.pc.k)), 2)
  {
    hide Filled, Reaches, Config.Ok;
    var h, u := Attempted(g, BatchId(w, t.filled), Success), t.(pc := CountOk(t.pc.k));
    Stays(cfg, w, h, u);
    Then(cfg, w, StepShared(cfg, w, g, t, Success), t.(pc := Observe(t.pc.k, true)), Success, h, u, 0);
    Then(cfg, w, g, t, Success, h, u, 1);
  }

  lemma {:induction false} TryFails(cfg: Config, w: nat, g: Shared, t: Worker, reply: Reply)
    requires cfg.Ok() && w < |cfg.gens| && t.pc.Attempt? && !reply.Success?
    ensures Reaches(cfg, w, g, t, Attempted(g, BatchId(w, t.filled), reply), t.(pc := CheckRetry(t.pc.k)), 3)
  {
    hide Filled, Reaches, Config.Ok;
    var h, u := Attempted(g, BatchId(w, t.filled), reply), t.(pc := CheckRetry(t.pc.k));
    var g1 := StepShared(cfg, w, g, t, reply);
    Stays(cfg, w, h, u);
    Then(cfg, w, g1.(observed := g.observed + 1), t.(pc := CountError(t.pc.k)), reply, h, u, 0);
    Then(cfg, w, g1, t.(pc := Observe(t.pc.k, false)), reply, h, u, 1);
    Then(cfg, w, g, t, reply, h, u, 2);
  }

  /** From an attempt on that is not followed by another one. */
  lemma {:induction false} LastTry(cfg: Config, w: nat, g: Shared, t: Worker, reply: Reply)
    requires cfg.Ok() && w < |cfg.gens| && t.pc.Attempt?
    requires reply.Success? || g.cancelled || t.pc.k + 1 >= SEND_ATTEMPTS
    ensures exists steps ::
              Reaches(cfg, w, g, t, Left(Settled(Attempted(g, BatchId(w, t.filled), reply), t.n, reply.Success?)),
                      t.(pc := CtxCheck), steps)
  {
    hide Filled, Reaches, Config.Ok;
    var g1 := Attempted(g, BatchId(w, t.filled), reply);
    var h, u := Left(Settled(g1, t.n, reply.Success?)), t.(pc := CtxCheck);
    if reply.Success? {
      TrySucceeds(cfg, w, g, t);
      SettleOk(cfg, w, g1, t.(pc := CountOk(t.pc.k)));
      Via(cfg, w, g, t, g1, t.(pc := CountOk(t.pc.k)), h, u, 2, 4);
    } else {
      TryFails(cfg, w, g, t, reply);
      SettleErr(cfg, w, g1, t.(pc := CountErr(t.pc.k + 1)));
      Then(cfg, w, g1, t.(pc := CheckRetry(t.pc.k)), reply, h, u, 4);
      Via(cfg, w, g, t, g1, t.(pc := CheckRetry(t.pc.k)), h, u, 3, 5);
    }
  }

  /** The gauge that is raised on entry and lowered on exit does not matter to the rest. */
  lemma {:induction false} LeftSend(g: Shared, id: BatchId, n: nat, first: Reply, second: Reply)
    ensures Left(AfterSend(g.(inflight := g.inflight + 1), id, n, first, second)) == AfterSend(g, id, n, first, second)
  {
  }

  lemma {:induction false} SendSteps(cfg: Config, w: nat, g: Shared, t: Worker, first: Reply, second: Reply)
    requires cfg.Ok() && w < |cfg.gens| && t.pc.Enter?
    ensures exists steps :: Reaches(cfg, w, g, t, AfterSend(g, BatchId(w, t.filled), t.n, first, second),
                                    t.(pc := CtxCheck), steps)
  {
    hide Filled, Reaches, Config.Ok, Settled, Left;
    LeftSend(g, BatchId(w, t.filled), t.n, first, second);
    var h, u := AfterSend(g, BatchId(w, t.filled), t.n, first, second), t.(pc := CtxCheck);
    var g0, t0 := g.(inflight := g.inflight + 1), t.(pc := Attempt(0));
    if first.Success? || g.cancelled {
      LastTry(cfg, w, g0, t0, first);
      var k: nat :| Reaches(cfg, w, g0, t0, h, u, k);
      Then(cfg, w, g, t, first, h, u, k);
    } else {
      var g1 := Attempted(g0, BatchId(w, t.filled), first);
      TryFails(cfg, w, g0, t0, first);
      LastTry(cfg, w, g1, t.(pc := Attempt(1)), second);
      var k: nat :| Reaches(cfg, w, g1, t.(pc := Attempt(1)), h, u, k);
      Then(cfg, w, g1, t.(pc := Pause(0)), first, h, u, k);
      Then(cfg, w, g1, t.(pc := CheckRetry(0)), first, h, u, k + 1);
      Via(cfg, w, g0, t0, g1, t.(pc := CheckRetry(0)), h, u, 3, k + 2);
      Then(cfg, w, g, t, first, h, u, k + 5);
    }
  }

  /** What follows once the batch has been counted: the wait, the second context check, and the send. */
  lemma {:induction false} CountedSteps(cfg: Config, w: nat, g: Shared, t: Worker, waited: Reply, first: Reply,
                                        second: Reply)
    requires cfg.Ok() && w < |cfg.gens| && t.pc.CountGenerated?
    requires var h := g.(spansGenerated := g.spansGenerated + t.n); cfg.limited ==> WaitMay(cfg, w, h, t.n, waited)
    ensures var h := g.(spansGenerated := g.spansGenerated + t.n);
            if (cfg.limited && !waited.Success?) || h.cancelled then
              exists steps :: Reaches(cfg, w, g, t, h, t.(pc := Done(t.n)), steps)
            else
              exists steps :: Reaches(cfg, w, g, t, AfterSend(h, BatchId(w, t.filled), t.n, first, second),
                                      t.(pc := CtxCheck), steps)
  {
    hide Filled, Reaches, AfterSend, Burst, Catalog.Valid;
    var h := g.(spansGenerated := g.spansGenerated + t.n);
    var r, u := h, t.(pc := Done(t.n));
    var k: nat := 0;
    if cfg.limited && !waited.Success? {
      Stays(cfg, w, r, u);
      Then(cfg, w, h, t.(pc := Wait), waited, r, u, 0);
      Then(cfg, w, g, t, waited, r, u, 1);
    } else {
      if h.cancelled {
        Stays(cfg, w, r, u);
      } else {
        r, u := AfterSend(h, BatchId(w, t.filled), t.n, first, second), t.(pc := CtxCheck);
        SendSteps(cfg, w, h, t.(pc := Enter), first, second);
        k :| Reaches(cfg, w, h, t.(pc := Enter), r, u, k);
      }
      Then(cfg, w, h, t.(pc := Recheck), waited, r, u, k);
      if cfg.limited {
        Then(cfg, w, h, t.(pc := Wait), waited, r, u, k + 1);
        Then(cfg, w, g, t, waited, r, u, k + 2);
      } else {
        Then(cfg, w, g, t, waited, r, u, k + 1);
      }
    }
  }

  /** The loop body of the source is a sequence of steps of the pool's step system. */
  lemma {:induction false} TurnSteps(cfg: Config, w: nat, g: Shared, t: Worker, waited: Reply, first: Reply,
                                     second: Reply)
    requires cfg.Ok() && w < |cfg.gens| && t.pc.CtxCheck?
    requires var n := |Filled(cfg, w, t.pos).log|;
             cfg.limited ==> WaitMay(cfg, w, AfterFill(cfg, g, n), n, waited)
    ensures var after := AfterTurn(cfg, w, g, t, waited, first, second);
            exists steps :: Reaches(cfg, w, g, t, after.0, after.1, steps)
  {
    hide Filled, Reaches, AfterSend, Burst, Catalog.Valid;
    var after := AfterTurn(cfg, w, g, t, waited, first, second);
    if g.cancelled {
      Stays(cfg, w, after.0, after.1);
      Then(cfg, w, g, t, waited, after.0, after.1, 0);
    } else {
      var b := Filled(cfg, w, t.pos);
      var n := |b.log|;
      var t1 := t.(pc := Add, n := n, pos := b.pos, filled := t.filled + 1);
      var g2 := g.(generated := g.generated + n, cancelled := g.cancelled || Crosses(cfg, g, n));
      var t2 := t1.(pc := CountGenerated, crossed := Crosses(cfg, g, n));
      CountedSteps(cfg, w, g2, t2, waited, first, second);
      var k: nat :| Reaches(cfg, w, g2, t2, after.0, after.1, k);
      FilledSteps(cfg, w, g, t, waited, after.0, after.1, k);
    }
  }

  lemma {:induction false} FilledSteps(cfg: Config, w: nat, g: Shared, t: Worker, reply: Reply, h: Shared, u: Worker,
                                       k: nat)
    requires cfg.Ok() && w < |cfg.gens| && t.pc.CtxCheck? && !g.cancelled
    requires var b := Filled(cfg, w, t.pos); var n := |b.log|; var over := Crosses(cfg, g, n);
             Reaches(cfg, w, g.(generated := g.generated + n, cancelled := over),
                     Worker(CountGenerated, n, b.pos, t.filled + 1, over), h, u, k)
    ensures exists steps :: Reaches(cfg, w, g, t, h, u, steps)
  {
    hide Filled, Reaches, Catalog.Valid;
    var b := Filled(cfg, w, t.pos);
    var n := |b.log|;
    var over := Crosses(cfg, g, n);
    var t1 := Worker(Add, n, b.pos, t.filled + 1, t.crossed);
    var g2 := g.(generated := g.generated + n);
    var k' := k;
    if over {
      Then(cfg, w, g2, t1.(pc := Cancel, crossed := over), reply, h, u, k);
      k' := k + 1;
    }
    Then(cfg, w, g, t1, reply, h, u, k');
    Then(cfg, w, g, t.(pc := Fill), reply, h, u, k' + 1);
    Then(cfg, w, g, t, reply, h, u, k' + 2);
  }
}
