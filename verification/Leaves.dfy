/** Which compute spans are leaves. */
module Leaves {
  import opened Catalog
  import opened Oracle
  import opened Forest
  import opened Minimum
  import opened Shape
  import opened Traces
  import SpanBudget = Budget

  /** Edges between entry `i` and its root that do not lead from a CLIENT span to the SERVER span it
      calls: the depth of the recursion that emitted a child. */
  function WorkDepth(log: seq<Emission>, i: nat): nat
    requires i < |log|
  {
    if 0 <= log[i].parentAt < i then
      (if log[log[i].parentAt].op.kind == KindClient then 0 else 1) + WorkDepth(log, log[i].parentAt)
    else 0
  }

  lemma {:induction false} WorkDepthCounts(log: seq<Emission>, i: nat)
    requires i < |log|
    ensures WorkDepth(log, i) == Height(log, i) - Hops(log, i)
  {
    if log[i].parentAt < 0 || log[i].parentAt >= i {
    } else {
      WorkDepthCounts(log, log[i].parentAt);
    }
  }

  lemma {:induction false} WorkDepthKept(log: seq<Emission>, r: seq<Emission>, i: nat)
    requires i < |log| && log <= r
    ensures WorkDepth(r, i) == WorkDepth(log, i)
  {
    if log[i].parentAt < 0 || log[i].parentAt >= i {
    } else {
      WorkDepthKept(log, r, log[i].parentAt);
    }
  }

  /** The next entry is a child of entry `a`, or there is no budget left for one. */
  ghost predicate Continues(log: seq<Emission>, a: nat, remaining: int) {
    if a + 1 < |log| then log[a + 1].parentAt == a else remaining <= 0
  }

  ghost predicate Childless(log: seq<Emission>, a: nat) {
    forall i :: a < i < |log| ==> log[i].parentAt != a
  }

  /** What a span that was emitted at this work depth does may have children: a remote call has its server,
      a compute step goes on at depths 1 and 2, and a server or consumer works down to depth 6. */
  predicate MayGoOn(op: Operation, depth: nat) {
    match op.typ
    case HttpClient | RpcClient => true
    case Internal => depth <= 2
    case HttpServer | RpcServer | MsgConsumer => depth <= 5
    case _ => false
  }

  ghost predicate EntryOk(log: seq<Emission>, a: nat, remaining: int)
    requires a < |log|
  {
    if MayGoOn(log[a].op, WorkDepth(log, a)) then Continues(log, a, remaining) else Childless(log, a)
  }

  /** What a call adds below `at`: entries hang below `at` or below one another, and each is as
      `EntryOk` says. */
  ghost predicate Adds(log: seq<Emission>, r: seq<Emission>, at: nat, remaining: int) {
    && log <= r
    && (forall i :: |log| <= i < |r| ==> r[i].parentAt == at || r[i].parentAt >= |log|)
    && (forall a :: |log| <= a < |r| ==> EntryOk(r, a, remaining))
  }

  /** A first call and, if it left budget, a second one for the same parent. */
  lemma {:induction false} AddsTwice(log: seq<Emission>, mid: seq<Emission>, r: seq<Emission>, at: nat, left: int,
                                     remaining: int)
    requires at < |log|
    requires Adds(log, mid, at, left) && Adds(mid, r, at, remaining)
    requires left <= 0 ==> r == mid && remaining <= 0
    ensures Adds(log, r, at, remaining)
  {
    hide EntryOk;
    forall a | |log| <= a < |r| ensures EntryOk(r, a, remaining) {
      if a < |mid| {
        assert EntryOk(mid, a, left);
        KeptBesides(mid, r, at, a, left, remaining);
      }
    }
  }

  lemma {:induction false} KeptBesides(mid: seq<Emission>, r: seq<Emission>, at: nat, a: nat, left: int, remaining: int)
    requires at < a < |mid| && EntryOk(mid, a, left)
    requires Adds(mid, r, at, remaining) && (left <= 0 ==> r == mid && remaining <= 0)
    ensures EntryOk(r, a, remaining)
  {
    hide WorkDepth;
    WorkDepthKept(mid, r, a);
  }

  // ---- one trace ----

  /** Children of `at` are emitted at this depth of the recursion. */
  ghost predicate WorksAt(g: Gen, st: State, at: nat, depth: nat) {
    && Placed(g, st, at)
    && 1 <= depth <= 7
    && st.log[at].op.kind != KindClient
    && -1 <= st.log[at].parentAt < at
    && WorkDepth(st.log, at) == depth - 1
  }

  lemma {:induction false} StillWorksAt(g: Gen, st: State, r: State, at: nat, depth: nat)
    requires WorksAt(g, st, at, depth) && st.log <= r.log
    ensures WorksAt(g, r, at, depth)
  {
    hide Valid, WorkDepth;
    assert r.log[at] == st.log[at];
    WorkDepthKept(st.log, r.log, at);
  }

  /** A new entry below `at`: one deeper, or as deep as the CLIENT span that it serves. */
  lemma {:induction false} NewDepth(log: seq<Emission>, r: seq<Emission>, at: nat)
    requires at < |log| && |r| == |log| + 1 && log == r[..|log|] && r[|log|].parentAt == at
    ensures WorkDepth(r, |log|) == WorkDepth(log, at) + if log[at].op.kind == KindClient then 0 else 1
  {
    WorkDepthKept(log, r, at);
  }

  lemma {:induction false} OpTypes(op: Operation, i: nat, n: nat)
    requires ChildOp(op, i, n)
    ensures op.typ == Internal ==> op.kind == KindInternal && op.peer == -1
    ensures op.peer >= 0 ==> op.kind == KindClient && i < op.peer < n && (op.typ == HttpClient || op.typ == RpcClient)
    ensures op.peer < 0 ==> op.typ == Internal || op.typ == DbClient
  {
  }

  lemma {:induction false} ServerTypes(op: Operation)
    ensures ServerCounterpart(op).kind == KindServer
    ensures ServerCounterpart(op).typ == HttpServer || ServerCounterpart(op).typ == RpcServer
  {
  }

  lemma {:induction false} ChildDepth(g: Gen, st: State, at: nat, depth: nat)
    requires WorksAt(g, st, at, depth)
    ensures var log := EmitChild(g, st, at).log; WorkDepth(log, |st.log|) == depth
  {
    hide Valid, EmitChild, NextOp, WorkDepth;
    NewDepth(st.log, EmitChild(g, st, at).log, at);
  }

  lemma {:induction false} ServerWorks(g: Gen, st: State, client: nat, depth: nat)
    requires Placed(g, st, client) && 1 <= depth <= 6 && WorkDepth(st.log, client) == depth
    requires st.log[client].op.kind == KindClient && 0 <= st.log[client].op.peer < |g.cat.services|
    ensures WorksAt(g, EmitServer(g, st, client), |st.log|, depth + 1)
    ensures EmitServer(g, st, client).log[|st.log|].op.typ == HttpServer
         || EmitServer(g, st, client).log[|st.log|].op.typ == RpcServer
  {
    hide Valid, EmitServer, WorkDepth, ServerCounterpart;
    NewDepth(st.log, EmitServer(g, st, client).log, client);
    ServerTypes(st.log[client].op);
  }

  /** A call, its server, and what the server does. */
  lemma {:induction false} CallAdds(log: seq<Emission>, mid: seq<Emission>, r: seq<Emission>, at: nat, depth: nat,
                                    remaining: int)
    requires at < |log| && |mid| == |log| + 2 && log <= mid
    requires mid[|log|].parentAt == at && mid[|log| + 1].parentAt == |log|
    requires mid[|log|].op.typ == HttpClient || mid[|log|].op.typ == RpcClient
    requires mid[|log| + 1].op.typ == HttpServer || mid[|log| + 1].op.typ == RpcServer
    requires Adds(mid, r, |log| + 1, remaining)
    requires WorkDepth(r, |log| + 1) == depth
    requires depth <= 5 ==> Continues(r, |log| + 1, remaining)
    requires depth >= 6 ==> r == mid
    ensures Adds(log, r, at, remaining)
  {
    hide WorkDepth;
    assert r[|log|] == mid[|log|] && r[|log| + 1] == mid[|log| + 1];
    forall a | |log| <= a < |r| ensures EntryOk(r, a, remaining) {
      if a >= |mid| {
        assert EntryOk(r, a, remaining);
      }
    }
  }

  lemma {:induction false} RoundAdds(g: Gen, st: State, at: nat, depth: nat)
    requires WorksAt(g, st, at, depth) && depth <= 6
    ensures var r := Round(g, st, at, depth); Adds(st.log, r.log, at, r.remaining)
    decreases 7 - depth, 1, 0
  {
    hide Valid, ChildOp, Emit, EmitChild, EmitServer, NextOp, ServerCounterpart, AddChildren, WorkDepth;
    var child := |st.log|;
    var st1 := EmitChild(g, st, at);
    var op := NextOp(g, st, at);
    OpTypes(op, st.log[at].svc, |g.cat.services|);
    ChildDepth(g, st, at, depth);
    if op.peer >= 0 && st1.remaining > 0 {
      var st2 := EmitServer(g, st1, child);
      var r := AddChildren(g, st2, child + 1, depth + 1);
      ServerWorks(g, st1, child, depth);
      AddChildrenAdds(g, st2, child + 1, depth + 1);
      ServerGoesOn(g, st2, child + 1, depth + 1);
      WorkDepthKept(st1.log, r.log, child);
      WorkDepthKept(st2.log, r.log, child + 1);
      CallAdds(st.log, st2.log, r.log, at, depth, r.remaining);
    } else if op.typ.Internal? && st1.remaining > 0 && depth < 3 {
      var r := AddChildren(g, st1, child, depth + 1);
      AddChildrenAdds(g, st1, child, depth + 1);
      AddChildrenStarts(g, st1, child, depth + 1);
      WorkDepthKept(st1.log, r.log, child);
    }
  }

  /** Below a server there is a child at once, if the budget and the depth cap allow one. */
  lemma {:induction false} ServerGoesOn(g: Gen, st: State, at: nat, depth: nat)
    requires WorksAt(g, st, at, depth) && at == |st.log| - 1
    ensures var r := AddChildren(g, st, at, depth);
            && (depth <= 6 ==> Continues(r.log, at, r.remaining))
            && (depth == 7 ==> r == st)
  {
    hide Valid, WorkDepth, AddChildren;
    if depth <= 6 && st.remaining > 0 {
      AddChildrenStarts(g, st, at, depth);
    } else {
      NothingAdded(g, st, at, depth);
    }
  }

  lemma {:induction false} NothingAdded(g: Gen, st: State, at: nat, depth: nat)
    requires Placed(g, st, at) && 1 <= depth <= 7 && (st.remaining <= 0 || depth == 7)
    ensures AddChildren(g, st, at, depth) == st
  {
    hide Valid;
  }

  lemma {:induction false} RoundsAdds(g: Gen, st: State, at: nat, depth: nat, k: nat)
    requires WorksAt(g, st, at, depth) && depth <= 6
    ensures var r := Rounds(g, st, at, depth, k); Adds(st.log, r.log, at, r.remaining)
    decreases 7 - depth, 2, k
  {
    hide Valid, WorkDepth, Round, EntryOk;
    if k == 0 || st.remaining <= 0 {
    } else {
      var mid := Round(g, st, at, depth);
      RoundAdds(g, st, at, depth);
      StillWorksAt(g, st, mid, at, depth);
      RoundsAdds(g, mid, at, depth, k - 1);
      var r := Rounds(g, mid, at, depth, k - 1);
      AddsTwice(st.log, mid.log, r.log, at, mid.remaining, r.remaining);
    }
  }

  lemma {:induction false} AddChildrenAdds(g: Gen, st: State, at: nat, depth: nat)
    requires WorksAt(g, st, at, depth)
    ensures var r := AddChildren(g, st, at, depth); Adds(st.log, r.log, at, r.remaining)
    decreases 7 - depth, 3, 0
  {
    hide Valid, Rounds, EntryOk, WorkDepth;
    if st.remaining <= 0 || depth > 6 {
    } else {
      RoundsAdds(g, st.(pos := st.pos + 1), at, depth, 1 + IntN(g.tape(st.pos), 3));
    }
  }

  lemma {:induction false} RootWorks(g: Gen, st: State, budget: int)
    requires g.Ok()
    ensures var st1 := EmitRoot(g, st, budget);
            && WorksAt(g, st1, |st.log|, 1) && IsEntry(st1.log[|st.log|].op)
  {
    hide Valid, EmitRoot;
    RootSpanOk(g, st, budget);
    RootTypes(g.cat, EmitRoot(g, st, budget).log[|st.log|].svc);
  }

  predicate IsEntry(op: Operation) { op.typ == HttpServer || op.typ == MsgConsumer }

  lemma {:induction false} RootTypes(cat: Catalog, svc: nat)
    requires Valid(cat) && svc < |cat.services|
    ensures forall op :: op in cat.services[svc].entryOps ==> op.kind != KindClient && IsEntry(op)
  {
    assert Described(cat.services[svc], svc);
  }

  /** Within a trace every span that may have children is followed by one, or the budget ended with it; the
      others have none. */
  lemma {:induction false} TraceEntries(g: Gen, st: State, budget: int)
    requires g.Ok()
    ensures var r := GenTrace(g, st, budget);
            forall a :: |st.log| <= a < |r.log| ==> EntryOk(r.log, a, r.remaining)
  {
    hide Valid, EmitRoot, AddChildren, EntryOk, WorkDepth;
    var st1 := EmitRoot(g, st, budget);
    var r := AddChildren(g, st1, |st.log|, 1);
    RootWorks(g, st, budget);
    AddChildrenAdds(g, st1, |st.log|, 1);
    ServerGoesOn(g, st1, |st.log|, 1);
    WorkDepthKept(st1.log, r.log, |st.log|);
    assert r.log[|st.log|] == st1.log[|st.log|];
    RootContinues(r.log, |st.log|, r.remaining);
  }

  lemma {:induction false} RootContinues(log: seq<Emission>, a: nat, remaining: int)
    requires a < |log| && IsEntry(log[a].op) && WorkDepth(log, a) == 0 && Continues(log, a, remaining)
    ensures EntryOk(log, a, remaining)
  {
    hide WorkDepth;
  }

  // ---- one batch ----

  /** Entry `a` is not the last of its trace. */
  predicate Followed(log: seq<Emission>, a: nat)
    requires a < |log|
  {
    a + 1 < |log| && log[a + 1].root == log[a].root
  }

  /** A span has children exactly when it may and its trace goes on, and then the next span is one. */
  ghost predicate LeafRule(log: seq<Emission>) {
    forall a :: 0 <= a < |log| ==> LeafOk(log, a)
  }

  ghost predicate LeafOk(log: seq<Emission>, a: nat)
    requires a < |log|
  {
    && (HasChild(log, a) <==> MayGoOn(log[a].op, WorkDepth(log, a)) && Followed(log, a))
    && (HasChild(log, a) ==> a + 1 < |log| && log[a + 1].parentAt == a)
  }

  lemma {:induction false} OldEntry(g: Gen, log: seq<Emission>, r: seq<Emission>, a: nat)
    requires a < |log| && log <= r && Built(g, r) && Contiguous(r) && Tail(r, |log|)
    requires LeafOk(log, a)
    ensures LeafOk(r, a)
  {
    hide WorkDepth, SelfOk;
    WorkDepthKept(log, r, a);
    assert r[a].root <= a;
    forall i | |log| <= i < |r| ensures r[i].parentAt != a {
      assert SpanOk(g, r, i);
    }
    if HasChild(log, a) {
      var i :| 0 <= i < |log| && log[i].parentAt == a;
      assert r[i].parentAt == a;
    }
    if HasChild(r, a) {
      var i :| 0 <= i < |r| && r[i].parentAt == a;
      assert log[i].parentAt == a;
    }
  }

  lemma {:induction false} NewEntry(g: Gen, r: seq<Emission>, first: nat, a: nat, remaining: int)
    requires first <= a < |r| && Built(g, r) && Tail(r, first)
    requires EntryOk(r, a, remaining)
    ensures LeafOk(r, a)
  {
    hide WorkDepth, SelfOk, MayGoOn;
    if HasChild(r, a) {
      var i :| 0 <= i < |r| && r[i].parentAt == a;
      assert SpanOk(g, r, i);
    }
  }

  lemma {:induction false} TraceLeaves(g: Gen, st: State, budget: int)
    requires g.Ok() && Built(g, st.log) && Contiguous(st.log) && LeafRule(st.log)
    ensures LeafRule(GenTrace(g, st, budget).log)
  {
    hide Valid, GenTrace, Built, Contiguous, Tail, LeafOk, EntryOk;
    var r := GenTrace(g, st, budget);
    TraceShape(g, st, budget);
    TraceEntries(g, st, budget);
    forall a | 0 <= a < |r.log| ensures LeafOk(r.log, a) {
      if a < |st.log| {
        OldEntry(g, st.log, r.log, a);
      } else {
        NewEntry(g, r.log, |st.log|, a, r.remaining);
      }
    }
  }

  lemma {:induction false} FillFromLeaves(g: Gen, st: State, target: int)
    requires g.Ok() && Built(g, st.log) && Contiguous(st.log) && LeafRule(st.log)
    ensures LeafRule(FillFrom(g, st, target).log)
    decreases target - |st.log|
  {
    hide GenTrace, Built, Contiguous, LeafRule, Valid;
    if |st.log| >= target {
    } else {
      TraceShape(g, st, target - |st.log|);
      TraceLeaves(g, st, target - |st.log|);
      FillFromLeaves(g, GenTrace(g, st, target - |st.log|), target);
    }
  }

  lemma {:induction false} BatchLeaves(g: Gen, pos: nat, target: int)
    requires g.Ok()
    ensures LeafRule(FillBatch(g, pos, target).log)
  {
    hide Valid, FillFrom;
    FillFromLeaves(g, State(pos, [], 0), target);
  }

  /** In every batch a span has children if and only if it may, where it stands, and its trace goes on; the
      next span is then one of them. */
  lemma {:induction false} GoesOnIff(g: Gen, pos: nat, target: int, a: nat)
    requires g.Ok() && a < |FillBatch(g, pos, target).log|
    ensures var log := FillBatch(g, pos, target).log;
            && Height(log, a) >= Hops(log, a)
            && (HasChild(log, a) <==> MayGoOn(log[a].op, Height(log, a) - Hops(log, a)) && Followed(log, a))
            && (HasChild(log, a) ==> a + 1 < |log| && log[a + 1].parentAt == a)
  {
    hide Valid, FillBatch, Height, Hops, WorkDepth, Followed, MayGoOn, HasChild;
    BatchLeaves(g, pos, target);
    WorkDepthCounts(FillBatch(g, pos, target).log, a);
    assert LeafOk(FillBatch(g, pos, target).log, a);
  }

  /** In particular, in every batch a compute span has children if and only if it was emitted at depth 1 or 2 of the
      recursion and is not the last span of its trace. */
  lemma {:induction false} ComputeLeafIff(g: Gen, pos: nat, target: int, a: nat)
    requires g.Ok() && a < |FillBatch(g, pos, target).log|
    requires FillBatch(g, pos, target).log[a].op.typ == Internal
    ensures var log := FillBatch(g, pos, target).log;
            HasChild(log, a) <==> Height(log, a) - Hops(log, a) <= 2 && Followed(log, a)
  {
    hide Valid, FillBatch, Height, Hops, Followed, HasChild;
    GoesOnIff(g, pos, target, a);
  }

  /** And a CLIENT span of a remote call has its SERVER span, as the next span, if and only if it is not the
      last span of its trace. */
  lemma {:induction false} CallAnsweredIff(g: Gen, pos: nat, target: int, a: nat)
    requires g.Ok() && a < |FillBatch(g, pos, target).log|
    requires var typ := FillBatch(g, pos, target).log[a].op.typ; typ == HttpClient || typ == RpcClient
    ensures var log := FillBatch(g, pos, target).log;
            && (HasChild(log, a) <==> Followed(log, a))
            && (HasChild(log, a) ==> a + 1 < |log| && log[a + 1].parentAt == a)
  {
    hide Valid, FillBatch, Height, Hops, Followed, HasChild;
    GoesOnIff(g, pos, target, a);
  }

  // ---- when compute spans are leaves throughout ----

  ghost predicate ComputeSpansAreLeaves(log: seq<Emission>) {
    forall a :: 0 <= a < |log| && log[a].op.typ == Internal ==> !HasChild(log, a)
  }

  /** Every entry is within the configured maximum of its root. */
  ghost predicate Near(log: seq<Emission>, most: int) {
    forall i :: 0 <= i < |log| ==> i - log[i].root < most
  }

  lemma {:induction false} FillFromNear(g: Gen, st: State, target: int)
    requires g.Ok() && Built(g, st.log) && Contiguous(st.log) && Near(st.log, g.maxSpans)
    ensures Near(FillFrom(g, st, target).log, g.maxSpans)
    decreases target - |st.log|
  {
    hide GenTrace, Built, Contiguous, Valid;
    if |st.log| >= target {
    } else {
      var r := GenTrace(g, st, target - |st.log|);
      TraceShape(g, st, target - |st.log|);
      SpanBudget.TraceBudget(g, st, target - |st.log|);
      assert forall i :: 0 <= i < |st.log| ==> r.log[i] == st.log[i];
      FillFromNear(g, r, target);
    }
  }

  lemma {:induction false} BatchNear(g: Gen, pos: nat, target: int)
    requires g.Ok()
    ensures Near(FillBatch(g, pos, target).log, g.maxSpans)
  {
    hide Valid, FillFrom;
    FillFromNear(g, State(pos, [], 0), target);
  }

  lemma {:induction false} SmallTraces(g: Gen, pos: nat, target: int)
    requires g.Ok() && g.maxSpans <= 2
    ensures ComputeSpansAreLeaves(FillBatch(g, pos, target).log)
  {
    hide Valid, FillFrom, LeafRule, WorkDepth;
    var log := FillBatch(g, pos, target).log;
    BatchShape(g, pos, target);
    BatchNear(g, pos, target);
    BatchLeaves(g, pos, target);
    forall a | 0 <= a < |log| && log[a].op.typ == Internal ensures !HasChild(log, a) {
      ComputeBelowRoot(g, log, a);
      LastIsLeaf(g, log, a);
    }
  }

  lemma {:induction false} ComputeBelowRoot(g: Gen, log: seq<Emission>, a: nat)
    requires g.Ok() && Built(g, log) && a < |log| && log[a].op.typ == Internal
    ensures log[a].root < a
  {
    hide Valid;
    InsideRoot(g, log, a);
    RootTypes(g.cat, log[log[a].root].svc);
  }

  lemma {:induction false} LastIsLeaf(g: Gen, log: seq<Emission>, a: nat)
    requires a < |log| && log[a].op.typ == Internal && log[a].root < a
    requires LeafRule(log) && Near(log, 2)
    ensures !HasChild(log, a)
  {
    hide WorkDepth;
    assert LeafOk(log, a);
  }

  /** Service 0 as the root, the largest trace, and the last operation, which is the compute step. */
  function ComputeTape(g: Gen): Tape
  {
    var ops := if |g.cat.services| > 0 then |g.cat.services[0].childOps| else 0;
    var last := if ops > 0 then ops - 1 else 0;
    var room := if g.maxSpans > g.minSpans then g.maxSpans - g.minSpans else 0;
    (k: nat) => if k == 2 then room else if k == 3 then 0 else last
  }

  lemma {:induction false} LastOpComputes(cat: Catalog)
    requires Valid(cat)
    ensures var ops := cat.services[0].childOps; |ops| >= 2 && ops[|ops| - 1].typ == Internal
  {
    assert ChildOpsOk(cat.services[0].childOps, 0, |cat.services|);
  }

  lemma {:induction false} ComputeRoot(g: Gen)
    requires g.Ok() && g.tape == ComputeTape(g) && g.maxSpans >= 3
    ensures var st1 := EmitRoot(g, State(0, [], 0), 3);
            && st1.pos >= 8 && |st1.log| == 1 && st1.log[0].svc == 0 && st1.remaining == 2
            && TraceSize(g, g.tape(2), 3) == 3
  {
    hide Valid, MakeSpan, Clock, SampleDur;
  }

  lemma {:induction false} ComputeOp(g: Gen, st: State)
    requires Placed(g, st, 0) && g.tape == ComputeTape(g)
    requires st.pos >= 8 && st.log[0].svc == 0
    ensures NextOp(g, st, 0).typ == Internal
  {
    LastOpComputes(g.cat);
    hide Valid;
  }

  /** On that tape the second span of the batch is a compute span, and the third is its child. */
  lemma {:induction false} ComputeParent(g: Gen)
    requires g.Ok() && g.tape == ComputeTape(g) && g.maxSpans >= 3
    ensures var log := FillBatch(g, 0, 3).log;
            |log| == 3 && log[1].op.typ == Internal && log[2].parentAt == 1
  {
    hide Valid, EmitRoot, NextOp, AddChildren, TraceSize, ComputeTape, WorkDepth, EntryOk;
    var st := State(0, [], 0);
    var st1 := EmitRoot(g, st, 3);
    var r := GenTrace(g, st, 3);
    ComputeRoot(g);
    ComputeOp(g, st1.(pos := st1.pos + 1));
    AddChildrenStarts(g, st1, 0, 1);
    SpanBudget.TraceBudget(g, st, 3);
    TraceEntries(g, st, 3);
    SecondContinues(g, st1, r);
    SpanBudget.FillBatchExact(g, 0, 3);
    hide GenTrace;
    assert FillFrom(g, st, 3) == FillFrom(g, r, 3);
    assert r.log <= FillBatch(g, 0, 3).log;
  }

  lemma {:induction false} SecondContinues(g: Gen, st1: State, r: State)
    requires |st1.log| == 1 && st1.log <= r.log && |r.log| >= 2
    requires r.log[1].parentAt == 0 && r.log[1].op.typ == Internal
    requires EntryOk(r.log, 1, r.remaining) && (|r.log| == 2 ==> r.remaining > 0)
    ensures |r.log| >= 3 && r.log[2].parentAt == 1
  {
    assert r.log[0] == st1.log[0];
    assert WorkDepth(r.log, 0) <= 1;
  }

  /** Compute spans are leaves in every batch, as the catalog says of them, if and only if no trace may
      have more than two spans. */
  lemma {:induction false} AllComputeLeavesIff(g: Gen)
    requires g.Ok()
    ensures (forall tape: Tape, pos: nat, target: int ::
              ComputeSpansAreLeaves(FillBatch(WithTape(g, tape), pos, target).log))
       <==> g.maxSpans <= 2
  {
    hide Valid, FillBatch;
    if g.maxSpans <= 2 {
      forall tape: Tape, pos: nat, target: int
        ensures ComputeSpansAreLeaves(FillBatch(WithTape(g, tape), pos, target).log)
      {
        SmallTraces(WithTape(g, tape), pos, target);
      }
    } else {
      var h := WithTape(g, ComputeTape(g));
      ComputeParent(h);
      var log := FillBatch(h, 0, 3).log;
      assert HasChild(log, 1);
      assert !ComputeSpansAreLeaves(log);
    }
  }
}
