/** The shape of what is generated: trees whose edges keep identity, time and the call graph. */
module Shape {
  import opened Catalog
  import opened Oracle
  import opened Telemetry
  import opened Traces

  /** Facts about a log entry alone: the span carries its operation, and its events lie inside it. */
  ghost predicate SelfOk(g: Gen, e: Emission) {
    && e.svc < |g.cat.services|
    && e.level <= 12
    && e.dur < TWO_63
    && e.span.name == e.op.name && e.span.kind == e.op.kind
    && e.span.spanId < TWO_64 && e.span.traceId.lo < TWO_64 && e.span.traceId.hi < TWO_64
    && e.span.end == e.span.start + e.dur < TWO_64
    && forall ev :: ev in e.span.events ==> e.span.start <= ev.time <= e.span.end
  }

  ghost predicate RootOk(g: Gen, e: Emission, i: nat)
    requires e.svc < |g.cat.services|
  {
    && e.parentAt == -1 && e.root == i && e.level == 0
    && e.span.parentId == 0
    && e.op in g.cat.services[e.svc].entryOps
    && e.dur >= 1000
  }

  /** `e` is work that `q`'s own service performs below `q`. */
  ghost predicate Work(g: Gen, q: Emission, e: Emission)
    requires q.svc < |g.cat.services|
  {
    && q.op.kind != KindClient
    && e.svc == q.svc
    && e.op in g.cat.services[q.svc].childOps
  }

  /** `e` is the SERVER side of the CLIENT span `q`, in the later service that `q` calls. */
  ghost predicate Served(q: Emission, e: Emission) {
    && q.op.kind == KindClient
    && q.svc < e.svc == q.op.peer
    && e.op == ServerCounterpart(q.op)
  }

  ghost predicate EdgeOk(g: Gen, q: Emission, e: Emission)
    requires q.svc < |g.cat.services|
  {
    && e.root == q.root && e.level == q.level + 1
    && e.span.traceId == q.span.traceId
    && e.span.parentId == q.span.spanId
    && q.span.start <= e.span.start && e.span.end <= q.span.end
    && q.dur >= 1
    && (Work(g, q, e) || Served(q, e))
  }

  ghost predicate SpanOk(g: Gen, log: seq<Emission>, i: nat)
    requires i < |log|
  {
    && SelfOk(g, log[i])
    && (RootOk(g, log[i], i)
        || (0 <= log[i].parentAt < i
            && log[log[i].parentAt].svc < |g.cat.services|
            && EdgeOk(g, log[log[i].parentAt], log[i])))
  }

  /** Every entry is a root or hangs correctly below an earlier entry. */
  ghost predicate Built(g: Gen, log: seq<Emission>) {
    forall i :: 0 <= i < |log| ==> SpanOk(g, log, i)
  }

  /** From `root` on, the log is one trace. */
  ghost predicate Tail(log: seq<Emission>, root: nat) {
    forall k :: root <= k < |log| ==> log[k].root == root
  }

  /** Traces follow one another in the log without interleaving. */
  ghost predicate Contiguous(log: seq<Emission>) {
    forall i, j :: 0 <= i <= j < |log| ==> log[i].root <= log[j].root <= j
  }

  lemma {:induction false} BuiltExtends(g: Gen, log: seq<Emission>, r: seq<Emission>)
    requires Built(g, log)
    requires |r| == |log| + 1 && log == r[..|log|]
    requires SpanOk(g, r, |log|)
    ensures Built(g, r)
  {
    hide SelfOk, RootOk, EdgeOk;
    forall i | 0 <= i < |r| ensures SpanOk(g, r, i) {
      if i < |log| {
        assert SpanOk(g, log, i);
      }
    }
  }

  // ---- one span ----

  lemma {:induction false} MakeSpanOk(g: Gen, pos: nat, traceId: TraceId, parentId: nat, op: Operation, start: nat,
                                      dur: nat)
    ensures var span := MakeSpan(g, pos, traceId, parentId, op, start, dur);
            && span.traceId == traceId && span.parentId == parentId && span.spanId < TWO_64
            && span.name == op.name && span.kind == op.kind
            && span.start == start && span.end == start + dur
            && forall ev :: ev in span.events ==> start <= ev.time <= start + dur
  {
  }

  /** A log entry below which children may be added at `depth`. */
  ghost predicate Ready(g: Gen, st: State, at: nat, depth: nat) {
    && Placed(g, st, at)
    && 1 <= depth <= 7
    && Built(g, st.log)
    && st.log[at].op.kind != KindClient
    && st.log[at].dur >= DurFloor(depth)
    && st.log[at].level <= 2 * (depth - 1)
    && Tail(st.log, st.log[at].root)
  }

  lemma {:induction false} ChildOk(g: Gen, st: State, at: nat, depth: nat)
    requires Ready(g, st, at, depth) && depth <= 6
    ensures var log := EmitChild(g, st, at).log;
            && SpanOk(g, log, |st.log|)
            && log[|st.log|].root == st.log[at].root
            && log[|st.log|].level == st.log[at].level + 1
            && log[|st.log|].dur >= 1
            && log[|st.log|].dur >= DurFloor(depth + 1)
            && ServerDur(log[|st.log|].dur) >= DurFloor(depth + 1)
  {
    hide Valid, ChildOp, MakeSpan, Offset, ClampDur, NextOp, DurFloor, ServerDur;
    var p := st.log[at];
    assert SpanOk(g, st.log, at);
    var f := Float64(g.tape(st.pos + 1));
    var sample := SampleDur(g.tape(st.pos + 2));
    ChildPlacement(depth, p.dur, f, sample);
    MakeSpanOk(g, st.pos + 3, p.span.traceId, p.span.spanId, NextOp(g, st, at),
               p.span.start + NextOffset(g, st, at), NextDur(g, st, at));
  }

  lemma {:induction false} ChildPlacement(depth: nat, parentDur: nat, f: real, sample: nat)
    requires 1 <= depth <= 6
    requires 0.0 <= f < 1.0
    requires sample >= 1000
    requires parentDur >= DurFloor(depth)
    ensures var offset := Offset(parentDur, f);
            var child := ClampDur(parentDur, offset, sample);
            && offset + child <= parentDur
            && child >= 1 && parentDur >= 1
            && child >= DurFloor(depth + 1) && ServerDur(child) >= DurFloor(depth + 1)
  {
    FloorStep(depth, parentDur, f, sample);
    ChildFitsIff(parentDur, f, sample);
  }

  lemma {:induction false} ServerOk(g: Gen, st: State, client: nat)
    requires client < |st.log|
    requires SpanOk(g, st.log, client)
    requires st.log[client].op.kind == KindClient && st.log[client].svc < st.log[client].op.peer < |g.cat.services|
    requires st.log[client].level <= 11 && st.log[client].dur >= 1
    ensures var log := EmitServer(g, st, client).log;
            && SpanOk(g, log, |st.log|)
            && log[|st.log|].root == st.log[client].root
            && log[|st.log|].level == st.log[client].level + 1
            && log[|st.log|].dur == ServerDur(st.log[client].dur)
            && log[|st.log|].op.kind == KindServer
  {
    hide MakeSpan, ServerLead, ServerDur;
    var c := st.log[client];
    ServerBounds(c.dur);
    MakeSpanOk(g, st.pos, c.span.traceId, c.span.spanId, ServerCounterpart(c.op),
               c.span.start + ServerLead(c.dur), ServerDur(c.dur));
  }

  lemma {:induction false} EntryOps(cat: Catalog, svc: nat)
    requires Valid(cat) && svc < |cat.services|
    ensures |cat.services[svc].entryOps| >= 2
    ensures forall op :: op in cat.services[svc].entryOps ==> op.kind != KindClient
  {
    assert Described(cat.services[svc], svc);
  }

  lemma {:induction false} RootSpanOk(g: Gen, st: State, budget: int)
    requires g.Ok()
    ensures var log := EmitRoot(g, st, budget).log;
            && SpanOk(g, log, |st.log|)
            && RootOk(g, log[|st.log|], |st.log|)
  {
    hide Valid, MakeSpan, TraceSize, DrawRoot;
    var r := DrawRoot(g, st.pos);
    RootDrawn(g, st.pos);
    MakeSpanOk(g, st.pos + 8, r.traceId, 0, r.op, r.start, r.dur);
  }

  lemma {:induction false} RootDrawn(g: Gen, pos: nat)
    requires g.Ok()
    ensures var r := DrawRoot(g, pos);
            && r.op in g.cat.services[r.svc].entryOps
            && r.traceId.lo < TWO_64 && r.traceId.hi < TWO_64
            && r.start < TWO_63 && 1000 <= r.dur < TWO_63
  {
    var svc := DrawRoot(g, pos).svc;
    assert Described(g.cat.services[svc], svc);
    EntryOps(g.cat, svc);
  }

  // ---- one trace ----

  lemma {:induction false} ClientOp(op: Operation, i: nat, n: nat)
    requires ChildOp(op, i, n)
    ensures op.peer >= 0 ==> op.kind == KindClient && i < op.peer < n
    ensures op.typ == Internal ==> op.kind == KindInternal
  {
  }

  /** What a call adds below `at` is built correctly and belongs to the trace of `at`. */
  ghost predicate Grows(g: Gen, log: seq<Emission>, r: seq<Emission>, at: nat)
    requires at < |log|
  {
    log <= r && Built(g, r) && Tail(r, log[at].root)
  }

  lemma {:induction false} StillReady(g: Gen, st: State, r: State, at: nat, depth: nat)
    requires Ready(g, st, at, depth) && Grows(g, st.log, r.log, at)
    ensures Ready(g, r, at, depth)
  {
    hide Built, Valid;
    assert r.log[at] == st.log[at];
  }

  lemma {:induction false} ChildGrows(g: Gen, st: State, at: nat, depth: nat)
    requires Ready(g, st, at, depth) && depth <= 6
    ensures Grows(g, st.log, EmitChild(g, st, at).log, at)
  {
    hide Valid, EmitChild, NextOp, SpanOk;
    ChildOk(g, st, at, depth);
    BuiltExtends(g, st.log, EmitChild(g, st, at).log);
  }

  lemma {:induction false} RoundShape(g: Gen, st: State, at: nat, depth: nat)
    requires Ready(g, st, at, depth) && depth <= 6
    ensures Grows(g, st.log, Round(g, st, at, depth).log, at)
    decreases 7 - depth, 1, 0
  {
    hide Valid, Emit, EmitChild, EmitServer, NextOp, ServerCounterpart, SpanOk, ServerDur, DurFloor;
    var child := |st.log|;
    var st1 := EmitChild(g, st, at);
    var op := NextOp(g, st, at);
    ChildOk(g, st, at, depth);
    ChildGrows(g, st, at, depth);
    ClientOp(op, st.log[at].svc, |g.cat.services|);
    if op.peer >= 0 && st1.remaining > 0 {
      var st2 := EmitServer(g, st1, child);
      ServerOk(g, st1, child);
      BuiltExtends(g, st1.log, st2.log);
      AddChildrenShape(g, st2, child + 1, depth + 1);
    } else if op.typ.Internal? && st1.remaining > 0 && depth < 3 {
      AddChildrenShape(g, st1, child, depth + 1);
    }
  }

  lemma {:induction false} RoundsShape(g: Gen, st: State, at: nat, depth: nat, k: nat)
    requires Ready(g, st, at, depth) && depth <= 6
    ensures Grows(g, st.log, Rounds(g, st, at, depth, k).log, at)
    decreases 7 - depth, 2, k
  {
    hide Valid, Round, SpanOk;
    if k == 0 || st.remaining <= 0 {
    } else {
      var r := Round(g, st, at, depth);
      RoundShape(g, st, at, depth);
      StillReady(g, st, r, at, depth);
      RoundsShape(g, r, at, depth, k - 1);
    }
  }

  lemma {:induction false} AddChildrenShape(g: Gen, st: State, at: nat, depth: nat)
    requires Ready(g, st, at, depth)
    ensures Grows(g, st.log, AddChildren(g, st, at, depth).log, at)
    decreases 7 - depth, 3, 0
  {
    hide Valid, Rounds, SpanOk;
    if st.remaining <= 0 || depth > 6 {
    } else {
      RoundsShape(g, st.(pos := st.pos + 1), at, depth, 1 + IntN(g.tape(st.pos), 3));
    }
  }

  lemma {:induction false} TraceShape(g: Gen, st: State, budget: int)
    requires g.Ok() && Built(g, st.log) && Contiguous(st.log)
    ensures var r := GenTrace(g, st, budget).log;
            && Built(g, r) && Contiguous(r)
            && RootOk(g, r[|st.log|], |st.log|)
            && Tail(r, |st.log|)
  {
    hide Valid, EmitRoot, AddChildren, SpanOk;
    var st1 := EmitRoot(g, st, budget);
    var r := AddChildren(g, st1, |st.log|, 1);
    RootSpanOk(g, st, budget);
    BuiltExtends(g, st.log, st1.log);
    EntryOps(g.cat, st1.log[|st.log|].svc);
    AddChildrenShape(g, st1, |st.log|, 1);
    assert forall i :: 0 <= i < |st.log| ==> r.log[i] == st.log[i];
  }

  // ---- one batch ----

  lemma {:induction false} FillFromShape(g: Gen, st: State, target: int)
    requires g.Ok() && Built(g, st.log) && Contiguous(st.log)
    ensures Built(g, FillFrom(g, st, target).log) && Contiguous(FillFrom(g, st, target).log)
    decreases target - |st.log|
  {
    hide GenTrace, Built, Contiguous, Valid;
    if |st.log| >= target {
    } else {
      TraceShape(g, st, target - |st.log|);
      FillFromShape(g, GenTrace(g, st, target - |st.log|), target);
    }
  }

  /** For every catalog, tape and batch size the batch is a forest of contiguous, correctly nested traces. */
  lemma {:induction false} BatchShape(g: Gen, pos: nat, target: int)
    requires g.Ok()
    ensures Built(g, FillBatch(g, pos, target).log) && Contiguous(FillBatch(g, pos, target).log)
  {
    FillFromShape(g, State(pos, [], 0), target);
  }
}
