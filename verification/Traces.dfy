/** What the generator emits, as a function of the catalog and of the random tape.

    The state is the tape position, the log of emitted spans and the per-trace budget. Each log
    entry keeps beside its span where it came from: the service, the operation, the log index of
    the parent and of the trace's root, the level in the tree, and the tape position of its id. */
module Traces {
  import opened Catalog
  import opened Oracle
  import opened Telemetry

  /** Renders the attributes of one span from its operation, its error flag and a raw draw. */
  type Renderer = (Operation, bool, nat) -> map<string, string>

  datatype Gen = Gen(
    cat: Catalog, minSpans: int, maxSpans: int, errorRate: real, eventRate: real,
    render: Renderer, tape: Tape)
  {
    predicate Ok() {
      Valid(cat) && 1 <= minSpans <= maxSpans
    }
  }

  datatype Emission = Emission(
    span: Span, drawnAt: nat, svc: nat, op: Operation, dur: nat, parentAt: int, root: nat, level: nat)

  datatype State = State(pos: nat, log: seq<Emission>, remaining: int)

  // ---- one span ----

  const EXCEPTION_TYPES: seq<string> := [
    "java.lang.RuntimeException", "context.DeadlineExceeded", "sql.ErrNoRows", "net.OpError", "ValidationError"]
  const INFO_STAGES: seq<string> := ["validate", "enrich", "persist", "publish", "respond"]

  function ExceptionEvent(draw: nat, time: nat): Event {
    Event("exception", time, map[
      "exception.type" := EXCEPTION_TYPES[IntN(draw, 5)],
      "exception.message" := "request processing failed",
      "exception.escaped" := "false"])
  }

  function InfoEvent(draw: nat, time: nat): Event {
    Event("processing", time, map["stage" := INFO_STAGES[IntN(draw, 5)]])
  }

  predicate IsError(g: Gen, pos: nat) {
    Float64(g.tape(pos + 1)) < g.errorRate
  }

  function EventsOf(g: Gen, pos: nat, start: nat, dur: nat): seq<Event> {
    if IsError(g, pos) then [ExceptionEvent(g.tape(pos + 3), start + dur / 2)]
    else if Float64(g.tape(pos + 3)) < g.eventRate then [InfoEvent(g.tape(pos + 4), start + dur / 3)]
    else []
  }

  /** The draws of one span: its id, the error flag, the attributes, and what its event needs. */
  function AfterSpan(g: Gen, pos: nat): nat {
    if !IsError(g, pos) && Float64(g.tape(pos + 3)) < g.eventRate then pos + 5 else pos + 4
  }

  function MakeSpan(g: Gen, pos: nat, traceId: TraceId, parentId: nat, op: Operation, start: nat, dur: nat): Span {
    var isErr := IsError(g, pos);
    Span(traceId, Uint64(g.tape(pos)), parentId, "", op.name, op.kind, start, start + dur,
         g.render(op, isErr, g.tape(pos + 2)),
         if isErr then Error else Unset, if isErr then "operation failed" else "",
         EventsOf(g, pos, start, dur), [])
  }

  lemma {:induction false} MakeSpanFields(g: Gen, pos: nat, traceId: TraceId, parentId: nat, op: Operation,
                                          start: nat, dur: nat)
    ensures var span := MakeSpan(g, pos, traceId, parentId, op, start, dur);
            span.traceId == traceId && span.start == start
  {
  }

  /** One more entry, of this service, operation and parent. */
  ghost predicate Appends(log: seq<Emission>, r: seq<Emission>, svc: nat, op: Operation, parentAt: int) {
    && |r| == |log| + 1
    && log == r[..|log|]
    && r[|log|].svc == svc && r[|log|].op == op && r[|log|].parentAt == parentAt
  }

  /** Appends one span; `parentAt` is the parent's log index, or -1 for a root. */
  function Emit(g: Gen, st: State, traceId: TraceId, parentAt: int, svc: nat, op: Operation, start: nat,
                dur: nat): (r: State)
    requires -1 <= parentAt < |st.log|
    ensures Appends(st.log, r.log, svc, op, parentAt)
    ensures r.remaining == st.remaining
  {
    var e :=
      if parentAt == -1 then
        Emission(MakeSpan(g, st.pos, traceId, 0, op, start, dur), st.pos, svc, op, dur, -1, |st.log|, 0)
      else
        var p := st.log[parentAt];
        Emission(MakeSpan(g, st.pos, traceId, p.span.spanId, op, start, dur), st.pos, svc, op, dur, parentAt,
          p.root, p.level + 1);
    State(AfterSpan(g, st.pos), st.log + [e], st.remaining)
  }

  // ---- one trace ----

  /** The callee's SERVER operation for a caller's CLIENT operation. */
  function ServerCounterpart(client: Operation): Operation {
    if client.typ == RpcClient then
      Operation(client.rpcService + "/" + client.rpcMethod, RpcServer, KindServer,
                rpcService := client.rpcService, rpcMethod := client.rpcMethod)
    else
      Operation(client.httpMethod + " " + client.route, HttpServer, KindServer,
                httpMethod := client.httpMethod, route := client.route)
  }

  ghost predicate Placed(g: Gen, st: State, at: nat) {
    && g.Ok()
    && at < |st.log|
    && st.log[at].svc < |g.cat.services|
  }

  /** The operation of the next child below log entry `at`. */
  function NextOp(g: Gen, st: State, at: nat): (op: Operation)
    requires Placed(g, st, at)
    ensures op in g.cat.services[st.log[at].svc].childOps
    ensures ChildOp(op, st.log[at].svc, |g.cat.services|)
  {
    var ops := g.cat.services[st.log[at].svc].childOps;
    assert ChildOpsOk(ops, st.log[at].svc, |g.cat.services|);
    ops[IntN(g.tape(st.pos), |ops|)]
  }

  function NextOffset(g: Gen, st: State, at: nat): nat
    requires at < |st.log|
  {
    Offset(st.log[at].dur, Float64(g.tape(st.pos + 1)))
  }

  function NextDur(g: Gen, st: State, at: nat): nat
    requires at < |st.log|
  {
    ClampDur(st.log[at].dur, NextOffset(g, st, at), SampleDur(g.tape(st.pos + 2)))
  }

  /** Emits one child of `at`, in the service of `at`. */
  function EmitChild(g: Gen, st: State, at: nat): (r: State)
    requires Placed(g, st, at)
    ensures Appends(st.log, r.log, st.log[at].svc, NextOp(g, st, at), at)
    ensures r.remaining == st.remaining - 1
  {
    var p := st.log[at];
    Emit(g, State(st.pos + 3, st.log, st.remaining - 1), p.span.traceId, at, p.svc,
         NextOp(g, st, at), p.span.start + NextOffset(g, st, at), NextDur(g, st, at))
  }

  /** Emits the SERVER span that the CLIENT span at `client` calls. */
  function EmitServer(g: Gen, st: State, client: nat): (r: State)
    requires client < |st.log| && st.log[client].op.peer >= 0
    ensures Appends(st.log, r.log, st.log[client].op.peer, ServerCounterpart(st.log[client].op), client)
    ensures r.remaining == st.remaining - 1
  {
    var c := st.log[client];
    Emit(g, st.(remaining := st.remaining - 1), c.span.traceId, client, c.op.peer,
         ServerCounterpart(c.op), c.span.start + ServerLead(c.dur), ServerDur(c.dur))
  }

  /** What follows below a child that has just been emitted: the server it calls and the spans below
      that, or the spans below a compute step. */
  function Descend(g: Gen, st: State, child: nat, depth: nat): (r: State)
    requires Placed(g, st, child) && 1 <= depth <= 6
    requires ChildOp(st.log[child].op, st.log[child].svc, |g.cat.services|)
    ensures st.log <= r.log
    decreases 7 - depth, 0, 0
  {
    var op := st.log[child].op;
    if op.peer >= 0 && st.remaining > 0 then
      AddChildren(g, EmitServer(g, st, child), |st.log|, depth + 1)
    else if op.typ == Internal && st.remaining > 0 && depth < 3 then
      AddChildren(g, st, child, depth + 1)
    else
      st
  }

  /** One round of the child loop: a child and what lies below it. */
  function Round(g: Gen, st: State, at: nat, depth: nat): (r: State)
    requires Placed(g, st, at) && 1 <= depth <= 6
    ensures st.log <= r.log
    decreases 7 - depth, 1, 0
  {
    Descend(g, EmitChild(g, st, at), |st.log|, depth)
  }

  function Rounds(g: Gen, st: State, at: nat, depth: nat, k: nat): (r: State)
    requires Placed(g, st, at) && 1 <= depth <= 6
    ensures st.log <= r.log
    decreases 7 - depth, 2, k
  {
    if k == 0 || st.remaining <= 0 then st else Rounds(g, Round(g, st, at, depth), at, depth, k - 1)
  }

  function AddChildren(g: Gen, st: State, at: nat, depth: nat): (r: State)
    requires Placed(g, st, at) && 1 <= depth <= 7
    ensures st.log <= r.log
    decreases 7 - depth, 3, 0
  {
    if st.remaining <= 0 || depth > 6 then st
    else Rounds(g, st.(pos := st.pos + 1), at, depth, 1 + IntN(g.tape(st.pos), 3))
  }

  /** The drawn size, cut to the batch's budget but at least 1. */
  function CutSize(drawn: int, budget: int): (size: int)
    ensures size >= 1 && (budget >= 1 ==> size <= budget) && (drawn >= 1 ==> size <= drawn)
  {
    var cut := if drawn > budget then budget else drawn;
    if cut < 1 then 1 else cut
  }

  /** The number of spans a trace may use. */
  function TraceSize(g: Gen, draw: nat, budget: int): (size: int)
    requires g.Ok()
    ensures size >= 1 && (budget >= 1 ==> size <= budget) && size <= g.maxSpans
  {
    CutSize(g.minSpans + IntN(draw, g.maxSpans - g.minSpans + 1), budget)
  }

  datatype Root = Root(traceId: TraceId, svc: nat, op: Operation, start: nat, dur: nat)

  /** What is drawn for the root span of the trace that starts at tape position `pos`. */
  function DrawRoot(g: Gen, pos: nat): (r: Root)
    requires g.Ok()
    ensures r.svc < |g.cat.services|
  {
    var svc := IntN(g.tape(pos + 3), |g.cat.services|);
    assert Described(g.cat.services[svc], svc);
    var ops := g.cat.services[svc].entryOps;
    Root(TraceId(Uint64(g.tape(pos)), Uint64(g.tape(pos + 1))), svc,
         ops[IntN(g.tape(pos + 4), |ops|)],
         Clock(g.tape(pos + 5)) - IntN(g.tape(pos + 6), 2000) * 1_000_000,
         SampleDur(g.tape(pos + 7)))
  }

  /** The root span of a trace, with the rest of the trace's size as the remaining budget. */
  function EmitRoot(g: Gen, st: State, budget: int): (r: State)
    requires g.Ok()
    ensures st.log <= r.log && |r.log| == |st.log| + 1
    ensures Placed(g, r, |st.log|)
    ensures r.remaining == TraceSize(g, g.tape(st.pos + 2), budget) - 1
  {
    var r := DrawRoot(g, st.pos);
    Emit(g, State(st.pos + 8, st.log, TraceSize(g, g.tape(st.pos + 2), budget) - 1),
         r.traceId, -1, r.svc, r.op, r.start, r.dur)
  }

  function GenTrace(g: Gen, st: State, budget: int): (r: State)
    requires g.Ok()
    ensures st.log <= r.log && |r.log| > |st.log|
  {
    AddChildren(g, EmitRoot(g, st, budget), |st.log|, 1)
  }

  // ---- one batch ----

  function FillFrom(g: Gen, st: State, target: int): (r: State)
    requires g.Ok()
    ensures st.log <= r.log
    decreases target - |st.log|
  {
    if |st.log| >= target then st else FillFrom(g, GenTrace(g, st, target - |st.log|), target)
  }

  /** The batch that is generated from tape position `pos`. */
  function FillBatch(g: Gen, pos: nat, target: int): State
    requires g.Ok()
  {
    FillFrom(g, State(pos, [], 0), target)
  }
}
