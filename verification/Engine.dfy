/** The worker pool as a step system: any number of workers, every interleaving of their atomic steps.

    One step is one access to something shared (the context, a counter, a metric, the limiter, the
    sink); what the called parties answer is a free choice within their contracts. */
module Engine {
  import Traces

  const SEND_ATTEMPTS := 2

  /** `maxSpans` 0 means no cap. Each worker has its own generator. */
  datatype Config = Config(gens: seq<Traces.Gen>, batch: nat, maxSpans: nat, limited: bool)
  {
    ghost predicate Ok() {
      && batch >= 1
      && forall w :: 0 <= w < |gens| ==> gens[w].Ok()
    }
  }

  /** The limiter's burst, which `New` derives from the batch size and the largest trace. */
  function Burst(cfg: Config, w: nat): int
    requires w < |cfg.gens|
  {
    cfg.batch + cfg.gens[w].maxSpans + 64
  }

  /** Where a worker stands: the step it takes next. `k` counts the attempts made before in this send,
      `fails` the errors reported for it, and `lost` is what the worker held when it stopped. */
  datatype Pc =
    | CtxCheck | Fill | Add | Cancel | CountGenerated | Wait | Recheck
    | Enter | Attempt(k: nat) | Observe(k: nat, ok: bool)
    | CountOk(fails: nat) | CountSpansSent | AddSent
    | CountError(k: nat) | CheckRetry(k: nat) | Pause(k: nat)
    | CountErr(fails: nat) | CountDropped | AddErrors
    | Leave
    | Done(lost: nat)

  /** `filled` counts the worker's batches and so numbers the one in hand, `n` is the size of that one,
      and `crossed` records that its Add reached the cap. */
  datatype Worker = Worker(pc: Pc, n: nat, pos: nat, filled: nat, crossed: bool)

  /** The `nth` batch of worker `w`, counting from 1. */
  datatype BatchId = BatchId(w: nat, nth: nat)

  /** The answer of a call. An insert whose reply is `Unconfirmed` is reported as an error although its
      rows have landed; a wait knows only success and failure. */
  datatype Reply = Success | Failure | Unconfirmed

  /** The counters, the cancel flag and the metrics; then what the store received, in order: the batches
      that landed, and those among them whose insert was reported as an error. */
  datatype Shared = Shared(
    generated: nat, sent: nat, errors: nat, cancelled: bool,
    spansGenerated: nat, inflight: int, observed: nat,
    batchesOk: nat, spansSent: nat, sendErrors: nat, batchesErr: nat, dropped: nat,
    landed: seq<BatchId>, unconfirmed: seq<BatchId>)

  datatype State = State(g: Shared, ws: seq<Worker>)

  /** What FillBatch yields for worker `w` at its tape position. */
  function Filled(cfg: Config, w: nat, pos: nat): Traces.State
    requires w < |cfg.gens| && cfg.gens[w].Ok()
  {
    Traces.FillBatch(cfg.gens[w], pos, cfg.batch)
  }

  /** `WaitN` fails when the batch exceeds the burst; otherwise it may fail only on a cancelled context. */
  predicate WaitMay(cfg: Config, w: nat, g: Shared, n: nat, reply: Reply)
    requires w < |cfg.gens|
  {
    if reply.Success? then n <= Burst(cfg, w) else g.cancelled || n > Burst(cfg, w)
  }

  ghost predicate Enabled(cfg: Config, w: nat, g: Shared, t: Worker, reply: Reply) {
    && w < |cfg.gens|
    && !t.pc.Done?
    && (t.pc.Wait? ==> WaitMay(cfg, w, g, t.n, reply))
  }

  /** One step of worker `w`; `reply` is the answer of the call it makes, if it makes one. */
  function StepShared(cfg: Config, w: nat, g: Shared, t: Worker, reply: Reply): Shared {
    match t.pc
    case Add => g.(generated := g.generated + t.n)
    case Cancel => g.(cancelled := true)
    case CountGenerated => g.(spansGenerated := g.spansGenerated + t.n)
    case Enter => g.(inflight := g.inflight + 1)
    case Attempt(_) =>
      var id := BatchId(w, t.filled);
      g.(landed := if reply.Failure? then g.landed else g.landed + [id],
         unconfirmed := if reply.Unconfirmed? then g.unconfirmed + [id] else g.unconfirmed)
    case Observe(_, _) => g.(observed := g.observed + 1)
    case CountOk(_) => g.(batchesOk := g.batchesOk + 1)
    case CountSpansSent => g.(spansSent := g.spansSent + t.n)
    case AddSent => g.(sent := g.sent + t.n)
    case CountError(_) => g.(sendErrors := g.sendErrors + 1)
    case CountErr(_) => g.(batchesErr := g.batchesErr + 1)
    case CountDropped => g.(dropped := g.dropped + t.n)
    case AddErrors => g.(errors := g.errors + t.n)
    case Leave => g.(inflight := g.inflight - 1)
    case _ => g
  }

  predicate Crosses(cfg: Config, g: Shared, n: nat) {
    cfg.maxSpans > 0 && g.generated + n >= cfg.maxSpans
  }

  function StepWorker(cfg: Config, w: nat, g: Shared, t: Worker, reply: Reply): Worker
    requires cfg.Ok() && w < |cfg.gens|
  {
    match t.pc
    case CtxCheck => t.(pc := if g.cancelled then Done(0) else Fill)
    case Fill => var b := Filled(cfg, w, t.pos); t.(pc := Add, n := |b.log|, pos := b.pos, filled := t.filled + 1)
    case Add => t.(pc := if Crosses(cfg, g, t.n) then Cancel else CountGenerated, crossed := Crosses(cfg, g, t.n))
    case Cancel => t.(pc := CountGenerated)
    case CountGenerated => t.(pc := if cfg.limited then Wait else Recheck)
    case Wait => t.(pc := if reply.Success? then Recheck else Done(t.n))
    case Recheck => t.(pc := if g.cancelled then Done(t.n) else Enter)
    case Enter => t.(pc := Attempt(0))
    case Attempt(k) => t.(pc := Observe(k, reply.Success?))
    case Observe(k, good) => t.(pc := if good then CountOk(k) else CountError(k))
    case CountOk(_) => t.(pc := CountSpansSent)
    case CountSpansSent => t.(pc := AddSent)
    case AddSent => t.(pc := Leave)
    case CountError(k) => t.(pc := CheckRetry(k))
    case CheckRetry(k) =>
      t.(pc := if g.cancelled || k + 1 >= SEND_ATTEMPTS then CountErr(k + 1) else Pause(k))
    case Pause(k) => t.(pc := Attempt(k + 1))
    case CountErr(_) => t.(pc := CountDropped)
    case CountDropped => t.(pc := AddErrors)
    case AddErrors => t.(pc := Leave)
    case Leave => t.(pc := CtxCheck)
    case Done(_) => t
  }

  ghost predicate Init(cfg: Config, s: State) {
    && s.g == Shared(0, 0, 0, s.g.cancelled, 0, 0, 0, 0, 0, 0, 0, 0, [], [])
    && |s.ws| == |cfg.gens|
    && forall w :: 0 <= w < |s.ws| ==> s.ws[w] == Worker(CtxCheck, 0, 0, 0, false)
  }

  ghost predicate Moves(cfg: Config, s: State, w: nat, reply: Reply)
  {
    w < |s.ws| == |cfg.gens| && Enabled(cfg, w, s.g, s.ws[w], reply)
  }

  function Move(cfg: Config, s: State, w: nat, reply: Reply): State
    requires cfg.Ok() && w < |s.ws| == |cfg.gens|
  {
    State(StepShared(cfg, w, s.g, s.ws[w], reply), s.ws[w := StepWorker(cfg, w, s.g, s.ws[w], reply)])
  }

  /** The run's deadline, a signal or a caller cancels the context from outside. */
  function Interrupt(s: State): State {
    s.(g := s.g.(cancelled := true))
  }

  ghost predicate Next(cfg: Config, s: State, t: State)
    requires cfg.Ok()
  {
    || t == Interrupt(s)
    || exists w: nat, reply: Reply :: Moves(cfg, s, w, reply) && t == Move(cfg, s, w, reply)
  }

  ghost predicate Run(cfg: Config, run: seq<State>)
    requires cfg.Ok()
  {
    && run != []
    && Init(cfg, run[0])
    && forall i :: 0 <= i < |run| - 1 ==> Next(cfg, run[i], run[i + 1])
  }
}
