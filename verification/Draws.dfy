/** What every span of a batch owes to its draws: where and when it starts, how long it lasts, what it
    does, and how it ends. All of it is said of the tape around the position at which the id was drawn. */
module Draws {
  import opened Catalog
  import opened Leaves
  import opened Oracle
  import opened Telemetry
  import opened Traces
  import SpanBudget = Budget
  import Rotation
  import Shape

  // ---- how a span ends ----

  ghost predicate Failed(g: Gen, p: nat) { Float64(g.tape(p + 1)) < g.errorRate }

  ghost predicate Noted(g: Gen, p: nat) { Float64(g.tape(p + 3)) < g.eventRate }

  ghost predicate ExceptionAt(ev: Event, time: nat, draw: nat) {
    && ev.name == "exception" && ev.time == time
    && ev.attrs.Keys == {"exception.type", "exception.message", "exception.escaped"}
    && ev.attrs["exception.type"] == EXCEPTION_TYPES[draw % 5]
    && ev.attrs["exception.message"] == "request processing failed"
    && ev.attrs["exception.escaped"] == "false"
  }

  ghost predicate ProgressAt(ev: Event, time: nat, draw: nat) {
    && ev.name == "processing" && ev.time == time
    && ev.attrs.Keys == {"stage"} && ev.attrs["stage"] == INFO_STAGES[draw % 5]
  }

  /** Status, message, attributes and event of a span whose id was drawn at `p`. */
  ghost predicate Outcome(g: Gen, p: nat, op: Operation, start: nat, dur: nat, span: Span) {
    && (span.status == Error <==> Failed(g, p)) && (span.status == Unset <==> !Failed(g, p))
    && (span.statusMessage == "operation failed" <==> Failed(g, p)) && (span.statusMessage == "" <==> !Failed(g, p))
    && span.attrs == g.render(op, Failed(g, p), g.tape(p + 2))
    && span.traceState == "" && span.links == []
    && (|span.events| == 1 <==> Failed(g, p) || Noted(g, p)) && |span.events| <= 1
    && (Failed(g, p) ==> |span.events| == 1 && ExceptionAt(span.events[0], start + dur / 2, g.tape(p + 3)))
    && (!Failed(g, p) && Noted(g, p) ==>
         |span.events| == 1 && ProgressAt(span.events[0], start + dur / 3, g.tape(p + 4)))
  }

  /** The error draw decides how a span ends, and the event draw whether a sound one has an event. */
  lemma {:induction false} SpanOutcome(g: Gen, p: nat, traceId: TraceId, parentId: nat, op: Operation, start: nat,
                                       dur: nat)
    ensures Outcome(g, p, op, start, dur, MakeSpan(g, p, traceId, parentId, op, start, dur))
    ensures MakeSpan(g, p, traceId, parentId, op, start, dur).spanId == g.tape(p) % TWO_64
  {
    hide Float64;
  }

  /** A span takes its id, error and attribute draws and one more; a progress event takes a fifth. */
  lemma {:induction false} DrawCounts(g: Gen, p: nat)
    ensures AfterSpan(g, p) == if !Failed(g, p) && Noted(g, p) then p + 5 else p + 4
  {
    hide Float64;
  }

  // ---- where a span is ----

  /** A root: its service, entry operation, start and duration from the five draws before its id. */
  ghost predicate RootDrawn(g: Gen, e: Emission) {
    var p, n := e.drawnAt, |g.cat.services|;
    && p >= 8 && n > 0
    && e.svc == g.tape(p - 5) % n
    && |g.cat.services[e.svc].entryOps| > 0
    && e.op == g.cat.services[e.svc].entryOps[g.tape(p - 4) % |g.cat.services[e.svc].entryOps|]
    && e.span.start + g.tape(p - 2) % 2000 * 1_000_000 == Clock(g.tape(p - 3))
    && e.dur == SampleDur(g.tape(p - 1))
  }

  /** Work of `q`'s own service: operation, offset and sampled duration from the three draws before the id. */
  ghost predicate ChildDrawn(g: Gen, q: Emission, e: Emission) {
    var p := e.drawnAt;
    && p >= 3 && q.svc < |g.cat.services| && |g.cat.services[q.svc].childOps| > 0
    && e.op == g.cat.services[q.svc].childOps[g.tape(p - 3) % |g.cat.services[q.svc].childOps|]
    && e.span.start >= q.span.start
    && (var offset := e.span.start - q.span.start; var sample := SampleDur(g.tape(p - 1));
        && 10 * TWO_53 * offset <= 7 * q.dur * (g.tape(p - 2) % TWO_53) < 10 * TWO_53 * (offset + 1)
        && e.dur <= sample
        && (offset < q.dur ==> offset + e.dur <= q.dur && (e.dur == sample || offset + e.dur == q.dur))
        && (offset >= q.dur ==> e.dur == sample))
  }

  /** The server of a remote call: a tenth into the CLIENT span and for 85% of it, both rounded down. */
  ghost predicate ServerDrawn(q: Emission, e: Emission) {
    && e.span.start >= q.span.start
    && (var lead := e.span.start - q.span.start; 10 * lead <= q.dur < 10 * lead + 10)
    && 20 * e.dur <= 17 * q.dur < 20 * e.dur + 20
  }

  ghost predicate Placing(g: Gen, log: seq<Emission>, i: nat)
    requires i < |log|
  {
    if log[i].parentAt == -1 then RootDrawn(g, log[i])
    else
      && 0 <= log[i].parentAt < i
      && var q := log[log[i].parentAt];
         if q.op.kind == KindClient then ServerDrawn(q, log[i]) else ChildDrawn(g, q, log[i])
  }

  ghost predicate DrawsOk(g: Gen, log: seq<Emission>, i: nat)
    requires i < |log|
  {
    && Outcome(g, log[i].drawnAt, log[i].op, log[i].span.start, log[i].dur, log[i].span)
    && Placing(g, log, i)
  }

  ghost predicate AddsDrawn(g: Gen, log: seq<Emission>, r: seq<Emission>) {
    log <= r && forall i :: |log| <= i < |r| ==> DrawsOk(g, r, i)
  }

  lemma {:induction false} DrawsKept(g: Gen, log: seq<Emission>, r: seq<Emission>, i: nat)
    requires i < |log| && log <= r && DrawsOk(g, log, i)
    ensures DrawsOk(g, r, i)
  {
    hide Outcome, RootDrawn, ChildDrawn, ServerDrawn;
    assert r[i] == log[i];
    assert 0 <= log[i].parentAt < i ==> r[log[i].parentAt] == log[log[i].parentAt];
  }

  lemma {:induction false} AddsDrawnTwice(g: Gen, log: seq<Emission>, mid: seq<Emission>, r: seq<Emission>)
    requires AddsDrawn(g, log, mid) && AddsDrawn(g, mid, r)
    ensures AddsDrawn(g, log, r)
  {
    hide DrawsOk;
    forall i | |log| <= i < |r| ensures DrawsOk(g, r, i) {
      if i < |mid| {
        DrawsKept(g, mid, r, i);
      }
    }
  }

  lemma {:induction false} OneDrawn(g: Gen, log: seq<Emission>, r: seq<Emission>)
    requires |r| == |log| + 1 && log == r[..|log|] && DrawsOk(g, r, |log|)
    ensures AddsDrawn(g, log, r)
  {
    hide DrawsOk;
  }

  /** The entry that `Emit` appends ends as its draws say. */
  lemma {:induction false} EmitOutcome(g: Gen, st: State, traceId: TraceId, parentAt: int, svc: nat, op: Operation,
                                       start: nat, dur: nat)
    requires -1 <= parentAt < |st.log|
    ensures var e := Emit(g, st, traceId, parentAt, svc, op, start, dur).log[|st.log|];
            && Outcome(g, e.drawnAt, e.op, e.span.start, e.dur, e.span)
            && e.drawnAt == st.pos && e.span.start == start && e.dur == dur
  {
    hide MakeSpan, Outcome;
    if parentAt == -1 {
      SpanOutcome(g, st.pos, traceId, 0, op, start, dur);
      Shape.MakeSpanOk(g, st.pos, traceId, 0, op, start, dur);
    } else {
      SpanOutcome(g, st.pos, traceId, st.log[parentAt].span.spanId, op, start, dur);
      Shape.MakeSpanOk(g, st.pos, traceId, st.log[parentAt].span.spanId, op, start, dur);
    }
  }

  lemma {:induction false} ChildDraws(g: Gen, st: State, at: nat)
    requires Placed(g, st, at) && st.log[at].op.kind != KindClient
    ensures AddsDrawn(g, st.log, EmitChild(g, st, at).log)
  {
    hide Valid, ChildOp, Emit, Offset, ClampDur, SampleDur, Float64, Outcome;
    var p, r := st.log[at], EmitChild(g, st, at);
    var offset := NextOffset(g, st, at);
    EmitOutcome(g, State(st.pos + 3, st.log, st.remaining - 1), p.span.traceId, at, p.svc,
                NextOp(g, st, at), p.span.start + offset, NextDur(g, st, at));
    OffsetOverDraws(p.dur, g.tape(st.pos + 1));
    ClampShortens(p.dur, offset, SampleDur(g.tape(st.pos + 2)));
    OneDrawn(g, st.log, r.log);
  }

  lemma {:induction false} ServerDraws(g: Gen, st: State, client: nat)
    requires client < |st.log| && st.log[client].op.peer >= 0 && st.log[client].op.kind == KindClient
    ensures AddsDrawn(g, st.log, EmitServer(g, st, client).log)
  {
    hide Emit, ServerLead, ServerDur, Outcome, ServerCounterpart;
    var c := st.log[client];
    EmitOutcome(g, st.(remaining := st.remaining - 1), c.span.traceId, client, c.op.peer,
                ServerCounterpart(c.op), c.span.start + ServerLead(c.dur), ServerDur(c.dur));
    ServerBounds(c.dur);
    OneDrawn(g, st.log, EmitServer(g, st, client).log);
  }

  lemma {:induction false} RootDraws(g: Gen, st: State, budget: int)
    requires g.Ok()
    ensures AddsDrawn(g, st.log, EmitRoot(g, st, budget).log)
  {
    hide Valid, Emit, TraceSize, Outcome, Clock, SampleDur;
    var r := DrawRoot(g, st.pos);
    EmitOutcome(g, State(st.pos + 8, st.log, TraceSize(g, g.tape(st.pos + 2), budget) - 1),
                r.traceId, -1, r.svc, r.op, r.start, r.dur);
    Shape.EntryOps(g.cat, r.svc);
    OneDrawn(g, st.log, EmitRoot(g, st, budget).log);
  }

  // ---- the recursion ----

  lemma {:induction false} RoundDraws(g: Gen, st: State, at: nat, depth: nat)
    requires WorksAt(g, st, at, depth) && depth <= 6
    ensures AddsDrawn(g, st.log, Round(g, st, at, depth).log)
    decreases 7 - depth, 1, 0
  {
    hide Valid, ChildOp, Emit, EmitChild, EmitServer, NextOp, ServerCounterpart, AddChildren;
    hide WorkDepth, AddsDrawn;
    var child := |st.log|;
    var st1 := EmitChild(g, st, at);
    var op := NextOp(g, st, at);
    OpTypes(op, st.log[at].svc, |g.cat.services|);
    ChildDraws(g, st, at);
    ChildDepth(g, st, at, depth);
    if op.peer >= 0 && st1.remaining > 0 {
      var st2 := EmitServer(g, st1, child);
      ServerWorks(g, st1, child, depth);
      ServerDraws(g, st1, child);
      AddsDrawnTwice(g, st.log, st1.log, st2.log);
      AddChildrenDraws(g, st2, child + 1, depth + 1);
      AddsDrawnTwice(g, st.log, st2.log, AddChildren(g, st2, child + 1, depth + 1).log);
    } else if op.typ.Internal? && st1.remaining > 0 && depth < 3 {
      AddChildrenDraws(g, st1, child, depth + 1);
      AddsDrawnTwice(g, st.log, st1.log, AddChildren(g, st1, child, depth + 1).log);
    }
  }

  lemma {:induction false} RoundsDraws(g: Gen, st: State, at: nat, depth: nat, k: nat)
    requires WorksAt(g, st, at, depth) && depth <= 6
    ensures AddsDrawn(g, st.log, Rounds(g, st, at, depth, k).log)
    decreases 7 - depth, 2, k
  {
    hide Valid, WorkDepth, Round, DrawsOk;
    if k == 0 || st.remaining <= 0 {
    } else {
      var mid := Round(g, st, at, depth);
      RoundDraws(g, st, at, depth);
      StillWorksAt(g, st, mid, at, depth);
      RoundsDraws(g, mid, at, depth, k - 1);
      AddsDrawnTwice(g, st.log, mid.log, Rounds(g, mid, at, depth, k - 1).log);
    }
  }

  lemma {:induction false} AddChildrenDraws(g: Gen, st: State, at: nat, depth: nat)
    requires WorksAt(g, st, at, depth)
    ensures AddsDrawn(g, st.log, AddChildren(g, st, at, depth).log)
    decreases 7 - depth, 3, 0
  {
    hide Valid, Rounds, DrawsOk, WorkDepth;
    if st.remaining <= 0 || depth > 6 {
    } else {
      RoundsDraws(g, st.(pos := st.pos + 1), at, depth, 1 + IntN(g.tape(st.pos), 3));
    }
  }

  lemma {:induction false} TraceDraws(g: Gen, st: State, budget: int)
    requires g.Ok()
    ensures AddsDrawn(g, st.log, GenTrace(g, st, budget).log)
  {
    hide Valid, EmitRoot, AddChildren, AddsDrawn, WorkDepth;
    var st1 := EmitRoot(g, st, budget);
    RootWorks(g, st, budget);
    RootDraws(g, st, budget);
    AddChildrenDraws(g, st1, |st.log|, 1);
    AddsDrawnTwice(g, st.log, st1.log, AddChildren(g, st1, |st.log|, 1).log);
  }

  lemma {:induction false} FillFromDraws(g: Gen, st: State, target: int)
    requires g.Ok()
    ensures AddsDrawn(g, st.log, FillFrom(g, st, target).log)
    decreases target - |st.log|
  {
    hide GenTrace, DrawsOk, Valid;
    if |st.log| >= target {
    } else {
      var r := GenTrace(g, st, target - |st.log|);
      TraceDraws(g, st, target - |st.log|);
      FillFromDraws(g, r, target);
      AddsDrawnTwice(g, st.log, r.log, FillFrom(g, r, target).log);
    }
  }

  /** Every span of every batch ends as its error and event draws say. */
  lemma {:induction false} EverySpanEnds(g: Gen, pos: nat, target: int, i: nat)
    requires g.Ok() && i < |FillBatch(g, pos, target).log|
    ensures var e := FillBatch(g, pos, target).log[i];
            Outcome(g, e.drawnAt, e.op, e.span.start, e.dur, e.span)
  {
    hide Valid, FillFrom, Outcome, Placing;
    FillFromDraws(g, State(pos, [], 0), target);
    assert DrawsOk(g, FillBatch(g, pos, target).log, i);
  }

  /** And it is, starts and lasts where, when and as long as the draws before it and its parent say. */
  lemma {:induction false} EverySpanPlaced(g: Gen, pos: nat, target: int, i: nat)
    requires g.Ok() && i < |FillBatch(g, pos, target).log|
    ensures Placing(g, FillBatch(g, pos, target).log, i)
  {
    hide Valid, FillFrom, Outcome, Placing;
    FillFromDraws(g, State(pos, [], 0), target);
    assert DrawsOk(g, FillBatch(g, pos, target).log, i);
  }

  // ---- how large a trace may be ----

  /** With room in the batch the size is the one drawn; otherwise what the room allows, but at least 1. */
  lemma {:induction false} SizeDrawn(g: Gen, draw: nat, budget: int)
    requires g.Ok()
    ensures var drawn := g.minSpans + draw % (g.maxSpans - g.minSpans + 1);
            && g.minSpans <= drawn <= g.maxSpans
            && (drawn <= budget ==> TraceSize(g, draw, budget) == drawn)
            && (1 <= budget < drawn ==> TraceSize(g, draw, budget) == budget)
            && (budget < 1 ==> TraceSize(g, draw, budget) == 1)
  {
    hide Valid;
  }

  lemma {:induction false} EverySizeDrawn(g: Gen, size: int, budget: int)
    requires g.Ok() && g.minSpans <= size <= g.maxSpans <= budget
    ensures size - g.minSpans >= 0 && TraceSize(g, size - g.minSpans, budget) == size
  {
    hide Valid;
    Rotation.SmallRemainder(size - g.minSpans, g.maxSpans - g.minSpans + 1);
  }

  /** No trace of the log has more spans than its size draw allows; the room is what its batch lacked. */
  ghost predicate Sized(g: Gen, log: seq<Emission>, i: nat, target: int)
    requires g.Ok() && i < |log|
  {
    var r := log[i].root;
    && r <= i && log[r].drawnAt >= 6
    && i - r < TraceSize(g, g.tape(log[r].drawnAt - 6), target - r)
  }

  lemma {:induction false} TraceSized(g: Gen, st: State, target: int)
    requires g.Ok() && |st.log| < target && Shape.Built(g, st.log) && Shape.Contiguous(st.log)
    ensures var r := GenTrace(g, st, target - |st.log|).log;
            forall i :: |st.log| <= i < |r| ==> Sized(g, r, i, target)
  {
    hide Valid, EmitRoot, AddChildren, TraceSize, Shape.Built, Shape.Contiguous;
    SpanBudget.TraceBudget(g, st, target - |st.log|);
    Shape.TraceShape(g, st, target - |st.log|);
    RootPosition(g, st, target - |st.log|);
    assert GenTrace(g, st, target - |st.log|).log[|st.log|] == EmitRoot(g, st, target - |st.log|).log[|st.log|];
  }

  lemma {:induction false} RootPosition(g: Gen, st: State, budget: int)
    requires g.Ok()
    ensures EmitRoot(g, st, budget).log[|st.log|].drawnAt == st.pos + 8
  {
    hide Valid, MakeSpan, TraceSize, DrawRoot;
  }

  lemma {:induction false} FillFromSized(g: Gen, st: State, target: int)
    requires g.Ok() && Shape.Built(g, st.log) && Shape.Contiguous(st.log)
    requires forall i :: 0 <= i < |st.log| ==> Sized(g, st.log, i, target)
    ensures forall i :: 0 <= i < |FillFrom(g, st, target).log| ==> Sized(g, FillFrom(g, st, target).log, i, target)
    decreases target - |st.log|
  {
    hide GenTrace, Shape.Built, Shape.Contiguous, Valid, TraceSize;
    if |st.log| >= target {
    } else {
      var r := GenTrace(g, st, target - |st.log|);
      Shape.TraceShape(g, st, target - |st.log|);
      TraceSized(g, st, target);
      forall i | 0 <= i < |r.log| ensures Sized(g, r.log, i, target) {
        if i < |st.log| {
          assert Sized(g, st.log, i, target);
        }
      }
      FillFromSized(g, r, target);
    }
  }

  /** Every trace of a batch is as large as its size draw and the room left in the batch allow, or smaller. */
  lemma {:induction false} EveryTraceSized(g: Gen, pos: nat, target: int, i: nat)
    requires g.Ok() && i < |FillBatch(g, pos, target).log|
    ensures Sized(g, FillBatch(g, pos, target).log, i, target)
  {
    hide Valid, FillFrom, Sized;
    FillFromSized(g, State(pos, [], 0), target);
  }
}
