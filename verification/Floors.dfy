/** How long every span of a batch lasts, at least. */
module Floors {
  import opened Catalog
  import opened Forest
  import opened Leaves
  import opened Oracle
  import opened Shape
  import opened Traces

  /** Entry `a` lasts as long as the floor of the recursion below it asks. */
  ghost predicate Long(log: seq<Emission>, a: nat)
    requires a < |log|
  {
    log[a].dur >= DurFloor(WorkDepth(log, a) + 1)
  }

  ghost predicate AddsLong(log: seq<Emission>, r: seq<Emission>) {
    log <= r && forall a :: |log| <= a < |r| ==> Long(r, a)
  }

  lemma {:induction false} LongKept(log: seq<Emission>, r: seq<Emission>, a: nat)
    requires a < |log| && log <= r
    ensures Long(r, a) <==> Long(log, a)
  {
    hide WorkDepth, DurFloor;
    WorkDepthKept(log, r, a);
  }

  lemma {:induction false} AddsLongTwice(log: seq<Emission>, mid: seq<Emission>, r: seq<Emission>)
    requires AddsLong(log, mid) && AddsLong(mid, r)
    ensures AddsLong(log, r)
  {
    hide Long;
    forall a | |log| <= a < |r| ensures Long(r, a) {
      if a < |mid| {
        LongKept(mid, r, a);
      }
    }
  }

  lemma {:induction false} OneLong(log: seq<Emission>, r: seq<Emission>)
    requires |r| == |log| + 1 && log == r[..|log|] && Long(r, |log|)
    ensures AddsLong(log, r)
  {
    hide Long;
  }

  /** The duration of a span and of its server counterpart, from the floor of its parent. */
  lemma {:induction false} ChildLong(g: Gen, st: State, at: nat, depth: nat)
    requires WorksAt(g, st, at, depth) && depth <= 6 && st.log[at].dur >= DurFloor(depth)
    ensures var log := EmitChild(g, st, at).log; var child := |st.log|;
            && WorkDepth(log, child) == depth && Long(log, child)
            && log[child].dur >= DurFloor(depth + 1) && ServerDur(log[child].dur) >= DurFloor(depth + 1)
  {
    hide Valid, ChildOp, MakeSpan, Offset, ClampDur, NextOp, DurFloor, ServerDur, WorkDepth;
    ChildDepth(g, st, at, depth);
    FloorStep(depth, st.log[at].dur, Float64(g.tape(st.pos + 1)), SampleDur(g.tape(st.pos + 2)));
  }

  lemma {:induction false} ServerLong(g: Gen, st: State, client: nat, depth: nat)
    requires Placed(g, st, client) && 1 <= depth <= 6 && WorkDepth(st.log, client) == depth
    requires st.log[client].op.kind == KindClient && 0 <= st.log[client].op.peer < |g.cat.services|
    requires ServerDur(st.log[client].dur) >= DurFloor(depth + 1)
    ensures var r := EmitServer(g, st, client);
            WorksAt(g, r, |st.log|, depth + 1) && r.log[|st.log|].dur >= DurFloor(depth + 1) && Long(r.log, |st.log|)
  {
    hide Valid, MakeSpan, ServerCounterpart, ServerDur, DurFloor, WorkDepth;
    ServerWorks(g, st, client, depth);
  }

  lemma {:induction false} RoundLong(g: Gen, st: State, at: nat, depth: nat)
    requires WorksAt(g, st, at, depth) && depth <= 6 && st.log[at].dur >= DurFloor(depth)
    ensures AddsLong(st.log, Round(g, st, at, depth).log)
    decreases 7 - depth, 1, 0
  {
    hide Valid, ChildOp, Emit, EmitChild, EmitServer, NextOp, ServerCounterpart, AddChildren;
    hide WorkDepth, DurFloor, ServerDur, Long, AddsLong;
    var child := |st.log|;
    var st1 := EmitChild(g, st, at);
    var op := NextOp(g, st, at);
    OpTypes(op, st.log[at].svc, |g.cat.services|);
    ChildLong(g, st, at, depth);
    OneLong(st.log, st1.log);
    if op.peer >= 0 && st1.remaining > 0 {
      var st2 := EmitServer(g, st1, child);
      ServerLong(g, st1, child, depth);
      OneLong(st1.log, st2.log);
      AddsLongTwice(st.log, st1.log, st2.log);
      AddChildrenLong(g, st2, child + 1, depth + 1);
      AddsLongTwice(st.log, st2.log, AddChildren(g, st2, child + 1, depth + 1).log);
    } else if op.typ.Internal? && st1.remaining > 0 && depth < 3 {
      AddChildrenLong(g, st1, child, depth + 1);
      AddsLongTwice(st.log, st1.log, AddChildren(g, st1, child, depth + 1).log);
    }
  }

  lemma {:induction false} RoundsLong(g: Gen, st: State, at: nat, depth: nat, k: nat)
    requires WorksAt(g, st, at, depth) && depth <= 6 && st.log[at].dur >= DurFloor(depth)
    ensures AddsLong(st.log, Rounds(g, st, at, depth, k).log)
    decreases 7 - depth, 2, k
  {
    hide Valid, WorkDepth, Round, Long, DurFloor;
    if k == 0 || st.remaining <= 0 {
    } else {
      var mid := Round(g, st, at, depth);
      RoundLong(g, st, at, depth);
      StillWorksAt(g, st, mid, at, depth);
      RoundsLong(g, mid, at, depth, k - 1);
      AddsLongTwice(st.log, mid.log, Rounds(g, mid, at, depth, k - 1).log);
    }
  }

  lemma {:induction false} AddChildrenLong(g: Gen, st: State, at: nat, depth: nat)
    requires WorksAt(g, st, at, depth) && st.log[at].dur >= DurFloor(depth)
    ensures AddsLong(st.log, AddChildren(g, st, at, depth).log)
    decreases 7 - depth, 3, 0
  {
    hide Valid, Rounds, Long, WorkDepth, DurFloor;
    if st.remaining <= 0 || depth > 6 {
    } else {
      RoundsLong(g, st.(pos := st.pos + 1), at, depth, 1 + IntN(g.tape(st.pos), 3));
    }
  }

  lemma {:induction false} TraceLong(g: Gen, st: State, budget: int)
    requires g.Ok()
    ensures AddsLong(st.log, GenTrace(g, st, budget).log)
  {
    hide Valid, EmitRoot, AddChildren, Long, WorkDepth;
    var st1 := EmitRoot(g, st, budget);
    RootWorks(g, st, budget);
    RootSpanOk(g, st, budget);
    assert Long(st1.log, |st.log|) by {
      RootLong(g, st1, |st.log|);
    }
    AddChildrenLong(g, st1, |st.log|, 1);
    assert st1.log[..|st.log|] == st.log;
    AddsLongTwice(st.log, st1.log, AddChildren(g, st1, |st.log|, 1).log);
  }

  lemma {:induction false} RootLong(g: Gen, st: State, at: nat)
    requires WorksAt(g, st, at, 1) && st.log[at].dur >= 1000
    ensures Long(st.log, at)
  {
    hide Valid, WorkDepth;
  }

  lemma {:induction false} FillFromLong(g: Gen, st: State, target: int)
    requires g.Ok()
    ensures AddsLong(st.log, FillFrom(g, st, target).log)
    decreases target - |st.log|
  {
    hide GenTrace, Long, Valid;
    if |st.log| >= target {
    } else {
      var r := GenTrace(g, st, target - |st.log|);
      TraceLong(g, st, target - |st.log|);
      FillFromLong(g, r, target);
      AddsLongTwice(st.log, r.log, FillFrom(g, r, target).log);
    }
  }

  /** In every batch a span that was emitted at depth d of the recursion lasts at least as long as the floor
      of depth d + 1: 1000 ns for a root, then 255, 65, 17, 5, 1 and, at depth 6, nothing is promised. */
  lemma {:induction false} EverySpanLasts(g: Gen, pos: nat, target: int, a: nat)
    requires g.Ok() && a < |FillBatch(g, pos, target).log|
    ensures var log := FillBatch(g, pos, target).log;
            && Height(log, a) >= Hops(log, a)
            && log[a].dur >= DurFloor(Height(log, a) - Hops(log, a) + 1)
  {
    hide Valid, FillFrom, Height, Hops, WorkDepth;
    FillFromLong(g, State(pos, [], 0), target);
    assert Long(FillBatch(g, pos, target).log, a);
    WorkDepthCounts(FillBatch(g, pos, target).log, a);
  }

  /** So what a span does in its own service starts from the floor of the depth at which it was emitted. */
  lemma {:induction false} ParentsLast(g: Gen, pos: nat, target: int, a: nat)
    requires g.Ok() && a < |FillBatch(g, pos, target).log|
    requires FillBatch(g, pos, target).log[a].parentAt != -1
    ensures var log := FillBatch(g, pos, target).log; var p := log[a].parentAt;
            && 0 <= p < a
            && log[p].dur >= DurFloor(WorkDepth(log, a) + if log[p].op.kind == KindClient then 1 else 0)
  {
    hide Valid, FillBatch, EdgeOk, RootOk, SelfOk, DurFloor, Height, Hops;
    var log := FillBatch(g, pos, target).log;
    BatchShape(g, pos, target);
    ParentLinked(g, log, a);
    EverySpanLasts(g, pos, target, log[a].parentAt);
    WorkDepthCounts(log, log[a].parentAt);
  }
}
