/** The engine as the source keeps it: counters and metrics that the workers update in place. */
module Pool {
  import opened Engine
  import opened Conservation
  import opened Lifecycle

  /** One entry of a schedule: a worker moves, with the answer of the call it makes, or the context is
      cancelled from outside. */
  datatype Turn = Step(w: nat, reply: Reply) | Cancelled

  class Metrics {
    var spansGenerated: nat
    var inflight: int
    var observed: nat
    var batchesOk: nat
    var spansSent: nat
    var sendErrors: nat
    var batchesErr: nat
    var dropped: nat

    constructor ()
      ensures spansGenerated == 0 && inflight == 0 && observed == 0 && batchesOk == 0
      ensures spansSent == 0 && sendErrors == 0 && batchesErr == 0 && dropped == 0
    {
      spansGenerated, inflight, observed, batchesOk := 0, 0, 0, 0;
      spansSent, sendErrors, batchesErr, dropped := 0, 0, 0, 0;
    }
  }

  class Pool {
    const cfg: Config
    const met: Metrics
    var generated: nat
    var sent: nat
    var errors: nat
    var cancelled: bool
    var workers: seq<Worker>
    var landed: seq<BatchId>
    var unconfirmed: seq<BatchId>

    constructor (cfg: Config)
      ensures this.cfg == cfg && fresh(met) && Init(cfg, Now()) && !cancelled
    {
      this.cfg := cfg;
      met := new Metrics();
      generated, sent, errors, cancelled := 0, 0, 0, false;
      landed, unconfirmed := [], [];
      workers := seq(|cfg.gens|, _ => Worker(CtxCheck, 0, 0, 0, false));
    }

    function Now(): State
      reads this, met
    {
      State(Shared(generated, sent, errors, cancelled, met.spansGenerated, met.inflight, met.observed,
                   met.batchesOk, met.spansSent, met.sendErrors, met.batchesErr, met.dropped,
                   landed, unconfirmed),
            workers)
    }

    /** What an insert attempt leaves in the store. */
    method Insert(id: BatchId, reply: Reply)
      modifies this`landed, this`unconfirmed
      ensures landed == if reply.Failure? then old(landed) else old(landed) + [id]
      ensures unconfirmed == if reply.Unconfirmed? then old(unconfirmed) + [id] else old(unconfirmed)
    {
      if !reply.Failure? {
        landed := landed + [id];
      }
      if reply.Unconfirmed? {
        unconfirmed := unconfirmed + [id];
      }
    }

    /** The steps that touch the engine's own counters or the cancel flag. */
    method UpdateCounters(w: nat, t: Worker, reply: Reply)
      requires t.pc.Add? || t.pc.Cancel? || t.pc.AddSent? || t.pc.AddErrors?
      modifies this
      ensures Now() == State(StepShared(cfg, w, old(Now()).g, t, reply), old(workers))
    {
      match t.pc {
        case Add => generated := generated + t.n;
        case Cancel => cancelled := true;
        case AddSent => sent := sent + t.n;
        case AddErrors => errors := errors + t.n;
      }
    }

    /** The steps that touch a gauge or count batches. */
    method UpdateBatches(w: nat, t: Worker, reply: Reply)
      requires t.pc.Enter? || t.pc.Leave? || t.pc.CountOk? || t.pc.CountErr?
      modifies met
      ensures Now() == State(StepShared(cfg, w, old(Now()).g, t, reply), workers)
    {
      match t.pc {
        case Enter => met.inflight := met.inflight + 1;
        case Leave => met.inflight := met.inflight - 1;
        case CountOk(_) => met.batchesOk := met.batchesOk + 1;
        case CountErr(_) => met.batchesErr := met.batchesErr + 1;
      }
    }

    /** The steps that count spans or attempts. */
    method UpdateSpans(w: nat, t: Worker, reply: Reply)
      requires t.pc.CountGenerated? || t.pc.CountSpansSent? || t.pc.CountDropped? || t.pc.Observe? || t.pc.CountError?
      modifies met
      ensures Now() == State(StepShared(cfg, w, old(Now()).g, t, reply), workers)
    {
      match t.pc {
        case CountGenerated => met.spansGenerated := met.spansGenerated + t.n;
        case CountSpansSent => met.spansSent := met.spansSent + t.n;
        case CountDropped => met.dropped := met.dropped + t.n;
        case Observe(_, _) => met.observed := met.observed + 1;
        case CountError(_) => met.sendErrors := met.sendErrors + 1;
      }
    }

    /** The update that worker `w`'s current step makes to what the workers share. */
    method Update(w: nat, t: Worker, reply: Reply)
      modifies this, met
      ensures Now() == State(StepShared(cfg, w, old(Now()).g, t, reply), old(workers))
    {
      match t.pc {
        case Add | Cancel | AddSent | AddErrors => UpdateCounters(w, t, reply);
        case Enter | Leave | CountOk(_) | CountErr(_) => UpdateBatches(w, t, reply);
        case CountGenerated | CountSpansSent | CountDropped | Observe(_, _) | CountError(_) => UpdateSpans(w, t, reply);
        case Attempt(_) => Insert(BatchId(w, t.filled), reply);
        case _ =>
      }
    }

    /** One atomic step of one worker. */
    method Advance(w: nat, reply: Reply)
      requires cfg.Ok() && Moves(cfg, Now(), w, reply)
      modifies this, met
      ensures Now() == Move(cfg, old(Now()), w, reply)
    {
      hide StepShared, StepWorker;
      var t := workers[w];
      var u := StepWorker(cfg, w, Now().g, t, reply);
      Update(w, t, reply);
      workers := workers[w := u];
    }

    /** Runs the pool under a schedule; turns that are not possible are skipped. Every state on the way
        is one of a run, so everything proved of runs holds at every moment. */
    method Drive(schedule: seq<Turn>) returns (ghost run: seq<State>)
      requires cfg.Ok() && Init(cfg, Now())
      modifies this, met
      ensures Run(cfg, run) && run[|run| - 1] == Now()
      ensures Inv(cfg, Now())
    {
      hide Inv, Move, StepShared, StepWorker, Init;
      run := [Now()];
      for i := 0 to |schedule|
        invariant Run(cfg, run) && run[|run| - 1] == Now()
        invariant Init(cfg, run[0])
      {
        ghost var s := Now();
        ghost var before := run;
        match schedule[i] {
          case Cancelled =>
            cancelled := true;
            run := run + [Now()];
          case Step(w, reply) =>
            if CanMove(w, reply) {
              Advance(w, reply);
              run := run + [Now()];
            }
        }
      }
      Always(cfg, run, |run| - 1);
    }

    /** Whether worker `w` can take its step with this answer. */
    predicate CanMove(w: nat, reply: Reply)
      reads this, met
      ensures CanMove(w, reply) <==> |workers| == |cfg.gens| && Moves(cfg, Now(), w, reply)
    {
      && |workers| == |cfg.gens|
      && w < |workers|
      && !workers[w].pc.Done?
      && (workers[w].pc.Wait? ==>
           if reply.Success? then workers[w].n <= Burst(cfg, w) else cancelled || workers[w].n > Burst(cfg, w))
    }
  }
}
