/** Where the ids come from: every span's id is a draw of its own, so distinct draws make distinct ids. */
module Ids {
  import opened Catalog
  import opened Oracle
  import opened Traces
  import opened Forest
  import opened Telemetry
  import Leaves
  import Minimum
  import Shape
  import SpanBudget = Budget

  /** The two halves of the trace id that was drawn right before position `pos`. */
  function TraceDraws(tape: Tape, pos: nat): TraceId
    requires pos >= 8
  {
    TraceId(Uint64(tape(pos - 8)), Uint64(tape(pos - 7)))
  }

  /** The span id is the draw at `drawnAt`; a root's trace id begins eight draws before. */
  ghost predicate FromTape(g: Gen, e: Emission, lo: nat) {
    && e.drawnAt >= lo
    && e.span.spanId == Uint64(g.tape(e.drawnAt))
    && (e.parentAt == -1 ==> e.drawnAt >= lo + 8 && e.span.traceId == TraceDraws(g.tape, e.drawnAt))
  }

  /** The ids of the log were drawn one after the other, from `lo` on and before `hi`. */
  ghost predicate InOrder(g: Gen, log: seq<Emission>, lo: nat, hi: nat) {
    && lo <= hi
    && (forall i :: 0 <= i < |log| ==> FromTape(g, log[i], lo) && log[i].drawnAt < hi)
    && (forall i, j :: 0 <= i < j < |log| ==> log[i].drawnAt < log[j].drawnAt)
  }

  ghost predicate Advances(g: Gen, st: State, r: State, lo: nat) {
    st.pos <= r.pos && InOrder(g, r.log, lo, r.pos)
  }

  lemma {:induction false} EmitOrder(g: Gen, st: State, traceId: TraceId, parentAt: int, svc: nat, op: Operation,
                                     start: nat, dur: nat, lo: nat)
    requires -1 <= parentAt < |st.log|
    requires InOrder(g, st.log, lo, st.pos)
    requires parentAt == -1 ==> st.pos >= lo + 8 && traceId == TraceDraws(g.tape, st.pos)
    ensures Advances(g, st, Emit(g, st, traceId, parentAt, svc, op, start, dur), lo)
  {
    hide Uint64, EventsOf, IsError;
    var r := Emit(g, st, traceId, parentAt, svc, op, start, dur);
    assert r.log[..|st.log|] == st.log;
    forall i | 0 <= i < |r.log| ensures FromTape(g, r.log[i], lo) && r.log[i].drawnAt < r.pos {
      if i < |st.log| {
        assert r.log[i] == st.log[i];
      }
    }
  }

  lemma {:induction false} ChildOrder(g: Gen, st: State, at: nat, lo: nat)
    requires Placed(g, st, at) && InOrder(g, st.log, lo, st.pos)
    ensures Advances(g, st, EmitChild(g, st, at), lo)
  {
    hide Valid, Emit, NextOp, FromTape;
    var p := st.log[at];
    EmitOrder(g, State(st.pos + 3, st.log, st.remaining - 1), p.span.traceId, at, p.svc,
              NextOp(g, st, at), p.span.start + NextOffset(g, st, at), NextDur(g, st, at), lo);
  }

  lemma {:induction false} ServerOrder(g: Gen, st: State, client: nat, lo: nat)
    requires client < |st.log| && st.log[client].op.peer >= 0 && InOrder(g, st.log, lo, st.pos)
    ensures Advances(g, st, EmitServer(g, st, client), lo)
  {
    hide Valid, Emit, FromTape;
    var c := st.log[client];
    EmitOrder(g, st.(remaining := st.remaining - 1), c.span.traceId, client, c.op.peer,
              ServerCounterpart(c.op), c.span.start + ServerLead(c.dur), ServerDur(c.dur), lo);
  }

  lemma {:induction false} RoundOrder(g: Gen, st: State, at: nat, depth: nat, lo: nat)
    requires Placed(g, st, at) && 1 <= depth <= 6 && InOrder(g, st.log, lo, st.pos)
    ensures Advances(g, st, Round(g, st, at, depth), lo)
    decreases 7 - depth, 1, 0
  {
    hide Valid, Emit, EmitChild, EmitServer, NextOp, ServerCounterpart, AddChildren, InOrder, ChildOp;
    var child := |st.log|;
    var st1 := EmitChild(g, st, at);
    var op := NextOp(g, st, at);
    ChildOrder(g, st, at, lo);
    Shape.ClientOp(op, st.log[at].svc, |g.cat.services|);
    if op.peer >= 0 && st1.remaining > 0 {
      ServerOrder(g, st1, child, lo);
      AddChildrenOrder(g, EmitServer(g, st1, child), child + 1, depth + 1, lo);
    } else if op.typ.Internal? && st1.remaining > 0 && depth < 3 {
      AddChildrenOrder(g, st1, child, depth + 1, lo);
    }
  }

  lemma {:induction false} RoundsOrder(g: Gen, st: State, at: nat, depth: nat, k: nat, lo: nat)
    requires Placed(g, st, at) && 1 <= depth <= 6 && InOrder(g, st.log, lo, st.pos)
    ensures Advances(g, st, Rounds(g, st, at, depth, k), lo)
    decreases 7 - depth, 2, k
  {
    hide Valid, Round, InOrder;
    if k == 0 || st.remaining <= 0 {
    } else {
      RoundOrder(g, st, at, depth, lo);
      RoundsOrder(g, Round(g, st, at, depth), at, depth, k - 1, lo);
    }
  }

  lemma {:induction false} AddChildrenOrder(g: Gen, st: State, at: nat, depth: nat, lo: nat)
    requires Placed(g, st, at) && 1 <= depth <= 7 && InOrder(g, st.log, lo, st.pos)
    ensures Advances(g, st, AddChildren(g, st, at, depth), lo)
    decreases 7 - depth, 3, 0
  {
    hide Valid, Rounds, FromTape;
    if st.remaining <= 0 || depth > 6 {
    } else {
      RoundsOrder(g, st.(pos := st.pos + 1), at, depth, 1 + IntN(g.tape(st.pos), 3), lo);
    }
  }

  lemma {:induction false} RootOrder(g: Gen, st: State, budget: int, lo: nat)
    requires g.Ok() && InOrder(g, st.log, lo, st.pos)
    ensures Advances(g, st, EmitRoot(g, st, budget), lo)
  {
    hide Valid, Emit, TraceSize, FromTape;
    var r := DrawRoot(g, st.pos);
    EmitOrder(g, State(st.pos + 8, st.log, TraceSize(g, g.tape(st.pos + 2), budget) - 1),
              r.traceId, -1, r.svc, r.op, r.start, r.dur, lo);
  }

  lemma {:induction false} TraceOrder(g: Gen, st: State, budget: int, lo: nat)
    requires g.Ok() && InOrder(g, st.log, lo, st.pos)
    ensures Advances(g, st, GenTrace(g, st, budget), lo)
  {
    hide Valid, EmitRoot, AddChildren, InOrder;
    RootOrder(g, st, budget, lo);
    AddChildrenOrder(g, EmitRoot(g, st, budget), |st.log|, 1, lo);
  }

  lemma {:induction false} FillFromOrder(g: Gen, st: State, target: int, lo: nat)
    requires g.Ok() && InOrder(g, st.log, lo, st.pos)
    ensures Advances(g, st, FillFrom(g, st, target), lo)
    decreases target - |st.log|
  {
    hide GenTrace, InOrder, Valid;
    if |st.log| >= target {
    } else {
      TraceOrder(g, st, target - |st.log|, lo);
      FillFromOrder(g, GenTrace(g, st, target - |st.log|), target, lo);
    }
  }

  /** The ids of a batch are draws of their own: their positions increase from span to span. */
  lemma {:induction false} BatchOrder(g: Gen, pos: nat, target: int)
    requires g.Ok()
    ensures var r := FillBatch(g, pos, target); InOrder(g, r.log, pos, r.pos)
  {
    hide Valid, FillFrom;
    FillFromOrder(g, State(pos, [], 0), target, pos);
  }

  /** The draws that become ids are no accident: span ids distinct and not zero, trace ids distinct. */
  ghost predicate DrawsApart(tape: Tape, log: seq<Emission>) {
    && (forall i :: 0 <= i < |log| ==> Uint64(tape(log[i].drawnAt)) != 0)
    && (forall i, j :: 0 <= i < j < |log| ==> Uint64(tape(log[i].drawnAt)) != Uint64(tape(log[j].drawnAt)))
    && (forall i, j | 0 <= i < j < |log| && IsRoot(log, i) && IsRoot(log, j) ::
         log[i].drawnAt >= 8 && log[j].drawnAt >= 8 ==>
         TraceDraws(tape, log[i].drawnAt) != TraceDraws(tape, log[j].drawnAt))
  }

  /** The ids of a batch are fresh if and only if the draws at the positions of its ids are apart; all
      other draws may coincide. */
  lemma {:induction false} FreshIdsIff(g: Gen, pos: nat, target: int)
    requires g.Ok()
    ensures FreshIds(FillBatch(g, pos, target).log) <==> DrawsApart(g.tape, FillBatch(g, pos, target).log)
  {
    hide Valid, FillBatch;
    BatchOrder(g, pos, target);
    InOrderFresh(g, FillBatch(g, pos, target).log, pos, FillBatch(g, pos, target).pos);
  }

  lemma {:induction false} InOrderFresh(g: Gen, log: seq<Emission>, lo: nat, hi: nat)
    requires InOrder(g, log, lo, hi)
    ensures FreshIds(log) <==> DrawsApart(g.tape, log)
  {
    hide Uint64, TraceDraws;
    forall i | 0 <= i < |log|
      ensures log[i].span.spanId == Uint64(g.tape(log[i].drawnAt))
      ensures IsRoot(log, i) ==> log[i].drawnAt >= 8 && log[i].span.traceId == TraceDraws(g.tape, log[i].drawnAt)
    {
      assert FromTape(g, log[i], lo);
    }
  }

  // ---- ids that are not apart ----

  lemma {:induction false} FirstId(g: Gen, st: State, budget: int)
    requires g.Ok() && st.log == []
    ensures GenTrace(g, st, budget).log[0].drawnAt == st.pos + 8
  {
    hide Valid, AddChildren, TraceSize, DrawRoot;
    assert EmitRoot(g, st, budget).log <= GenTrace(g, st, budget).log;
  }

  /** A trace of two spans, the second below the first, whose id is the draw at position 8. */
  lemma {:induction false} PairDrawn(g: Gen)
    requires g.Ok() && g.minSpans >= 2
    ensures var log := FillBatch(g, 0, 2).log;
            |log| == 2 && log[0].drawnAt == 8 && log[1].parentAt == 0 && log[1].span.parentId == log[0].span.spanId
  {
    hide Valid, GenTrace, Shape.Built;
    var st := State(0, [], 0);
    var r := GenTrace(g, st, 2);
    FirstId(g, st, 2);
    Minimum.SecondSpan(g, st, 2);
    SpanBudget.FillBatchExact(g, 0, 2);
    assert FillFrom(g, st, 2) == FillFrom(g, r, 2);
    assert r.log <= FillBatch(g, 0, 2).log;
    Shape.BatchShape(g, 0, 2);
    ParentLinked(g, FillBatch(g, 0, 2).log, 1);
  }

  /** One zero is enough: if the root's id is drawn as 0, the span below it looks like a root. */
  lemma {:induction false} ZeroIdHidesParent(g: Gen)
    requires g.Ok() && g.minSpans >= 2 && Uint64(g.tape(8)) == 0
    ensures var log := FillBatch(g, 0, 2).log;
            |log| == 2 && log[1].parentAt == 0 && log[1].span.parentId == 0
  {
    hide Valid, FillBatch, Uint64;
    PairDrawn(g);
    BatchOrder(g, 0, 2);
    assert FromTape(g, FillBatch(g, 0, 2).log[0], 0);
  }

  function Ones(): Tape {
    (k: nat) => 1
  }

  /** When two spans draw the same id, the link of the second leads to itself as well as to its parent. */
  lemma {:induction false} EqualIdsMislead(g: Gen)
    requires g.Ok() && g.minSpans >= 2 && g.tape == Ones()
    ensures var log := FillBatch(g, 0, 2).log;
            |log| == 2 && log[1].parentAt == 0 && LinksTo(log, 1, 0) && LinksTo(log, 1, 1) && !LinksResolve(log)
  {
    hide Valid, FillBatch;
    var log := FillBatch(g, 0, 2).log;
    PairDrawn(g);
    BatchOrder(g, 0, 2);
    assert FromTape(g, log[0], 0) && FromTape(g, log[1], 0);
    assert log[0].span.spanId == log[1].span.spanId == 1;
    Shape.BatchShape(g, 0, 2);
    SameTrace(g, log);
  }

  lemma {:induction false} SameTrace(g: Gen, log: seq<Emission>)
    requires Shape.Built(g, log) && |log| == 2 && log[1].parentAt == 0
    ensures log[1].span.traceId == log[0].span.traceId
  {
    assert Shape.SpanOk(g, log, 1);
  }

  /** When the roots of a batch draw the same trace id, it stands for several traces. */
  lemma {:induction false} EqualTraceIds(g: Gen)
    requires g.Ok() && g.tape == Ones()
    ensures !RootIdsDistinct(FillBatch(g, 0, g.maxSpans + 1).log)
  {
    hide Valid, FillBatch, Shape.Built;
    var n := g.maxSpans + 1;
    var log := FillBatch(g, 0, n).log;
    SpanBudget.FillBatchExact(g, 0, n);
    Shape.BatchShape(g, 0, n);
    Leaves.BatchNear(g, 0, n);
    BatchOrder(g, 0, n);
    var s := log[n - 1].root;
    InsideRoot(g, log, 0);
    InsideRoot(g, log, n - 1);
    assert FromTape(g, log[0], 0) && FromTape(g, log[s], 0);
  }
}
