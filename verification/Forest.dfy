/** What the shape of a log means for its readers: ancestry, call conformance, and links by id. */
module Forest {
  import opened Catalog
  import opened Shape
  import opened Traces
  import Fanout

  // ---- ancestry ----

  /** Edges between entry `i` and its root. */
  function Height(log: seq<Emission>, i: nat): nat
    requires i < |log|
  {
    if 0 <= log[i].parentAt < i then 1 + Height(log, log[i].parentAt) else 0
  }

  /** Edges between entry `i` and its root that go from a CLIENT span to the SERVER span it calls. */
  function Hops(log: seq<Emission>, i: nat): nat
    requires i < |log|
  {
    if 0 <= log[i].parentAt < i then
      (if log[log[i].parentAt].op.kind == KindClient then 1 else 0) + Hops(log, log[i].parentAt)
    else 0
  }

  /** Every span belongs to the trace of one root, at most 12 levels below it, inside its time span,
      and reached over at most as many remote calls as the service index has grown. */
  lemma {:induction false} InsideRoot(g: Gen, log: seq<Emission>, i: nat)
    requires Built(g, log) && i < |log|
    ensures log[i].root <= i && log[log[i].root].svc < |g.cat.services| && RootOk(g, log[log[i].root], log[i].root)
    ensures var root := log[log[i].root];
            && log[i].span.traceId == root.span.traceId
            && root.span.start <= log[i].span.start && log[i].span.end <= root.span.end
            && Height(log, i) == log[i].level <= 12
            && root.svc + Hops(log, i) <= log[i].svc < |g.cat.services|
  {
    hide RootOk;
    assert SpanOk(g, log, i);
    if 0 <= log[i].parentAt < i {
      InsideRoot(g, log, log[i].parentAt);
    }
    RootFacts(g, log, i);
  }

  lemma {:induction false} RootFacts(g: Gen, log: seq<Emission>, i: nat)
    requires i < |log| && log[i].svc < |g.cat.services|
    ensures RootOk(g, log[i], i) ==> log[i].parentAt == -1 && log[i].root == i && log[i].level == 0
  {
  }

  lemma {:induction false} TraceStart(log: seq<Emission>, i: nat, j: nat)
    requires Contiguous(log) && i < j < |log| && log[i].root != log[j].root
    requires log[log[j].root].root == log[j].root
    ensures log[j].root > i
  {
    var k := log[j].root;
    assert log[i].root <= log[j].root;
    assert log[k].root == k;
  }

  /** Two entries are in the same trace exactly when nothing between them starts another one. */
  lemma {:induction false} SameTraceIff(g: Gen, log: seq<Emission>, i: nat, j: nat)
    requires Built(g, log) && Contiguous(log)
    requires i < j < |log|
    ensures log[i].root == log[j].root <==> forall k :: i < k <= j ==> log[k].parentAt != -1
  {
    if log[i].root == log[j].root {
      forall k | i < k <= j ensures log[k].parentAt != -1 {
        assert SpanOk(g, log, k);
        assert log[i].root <= log[k].root <= log[j].root;
        InsideRoot(g, log, i);
      }
    } else {
      var k := log[j].root;
      InsideRoot(g, log, j);
      InsideRoot(g, log, i);
      TraceStart(log, i, j);
    }
  }

  // ---- the call graph ----

  /** A span below another is a SERVER span exactly when its parent is a CLIENT span, and exactly then
      the service index grows. The SERVER span repeats what the CLIENT span announced, and an RPC
      one names the service that it runs in. */
  lemma {:induction false} CallConforms(g: Gen, log: seq<Emission>, i: nat)
    requires g.Ok() && Built(g, log)
    requires i < |log| && log[i].parentAt != -1
    ensures 0 <= log[i].parentAt < i
    ensures var e := log[i]; var q := log[log[i].parentAt];
            && (e.span.kind == KindServer <==> q.span.kind == KindClient)
            && (q.span.kind == KindClient <==> e.svc > q.svc)
            && q.svc <= e.svc < |g.cat.services|
            && (q.span.kind == KindClient ==>
                 && q.op in g.cat.services[q.svc].childOps && q.op.peer == e.svc
                 && q.op.httpMethod == e.op.httpMethod && q.op.route == e.op.route
                 && q.op.rpcService == e.op.rpcService && q.op.rpcMethod == e.op.rpcMethod
                 && (e.op.typ == RpcServer <==> q.op.typ == RpcClient)
                 && (e.op.typ == RpcServer ==> e.op.rpcService == g.cat.services[e.svc].name + ".v1.Service"))
  {
    hide Valid;
    assert SpanOk(g, log, i);
    var q := log[log[i].parentAt];
    assert SpanOk(g, log, log[i].parentAt);
    if q.op.kind == KindClient {
      EntriesAreNoClients(g, log, log[i].parentAt);
      PeerDescribed(g.cat, q.svc, q.op);
    } else {
      ChildKinds(g.cat, q.svc, log[i].op);
    }
  }

  /** The SERVER span of an HTTP call is named like its CLIENT span, that of an RPC after service and method. */
  lemma {:induction false} ServerNamed(g: Gen, log: seq<Emission>, i: nat)
    requires g.Ok() && Built(g, log)
    requires i < |log| && log[i].parentAt != -1 && 0 <= log[i].parentAt < i
    requires log[log[i].parentAt].op.kind == KindClient
    ensures var e, q := log[i], log[log[i].parentAt];
            && (q.op.typ == HttpClient || q.op.typ == RpcClient)
            && (q.op.typ == HttpClient ==> e.op.typ == HttpServer && e.span.name == q.span.name)
            && (q.op.typ == RpcClient ==>
                 e.op.typ == RpcServer && e.span.name == q.op.rpcService + "/" + q.op.rpcMethod)
  {
    hide Valid, ServiceName;
    assert SpanOk(g, log, i) && SpanOk(g, log, log[i].parentAt);
    var q := log[log[i].parentAt];
    EntriesAreNoClients(g, log, log[i].parentAt);
    IsChildOp(g.cat, q.svc, q.op);
  }

  lemma {:induction false} EntriesAreNoClients(g: Gen, log: seq<Emission>, i: nat)
    requires g.Ok() && i < |log| && SpanOk(g, log, i)
    requires log[i].op.kind == KindClient
    ensures 0 <= log[i].parentAt < i && log[i].op in g.cat.services[log[i].svc].childOps
  {
    EntryOps(g.cat, log[i].svc);
  }

  lemma {:induction false} IsChildOp(cat: Catalog, i: nat, op: Operation)
    requires Valid(cat) && i < |cat.services|
    requires op in cat.services[i].childOps
    ensures ChildOp(op, i, |cat.services|)
  {
    hide CallOp, DbOp, ComputeOp, Described;
    var ops := cat.services[i].childOps;
    assert ChildOpsOk(ops, i, |cat.services|);
    var k :| 0 <= k < |ops| && ops[k] == op;
  }

  lemma {:induction false} ChildKinds(cat: Catalog, i: nat, op: Operation)
    requires Valid(cat) && i < |cat.services|
    requires op in cat.services[i].childOps
    ensures ChildOp(op, i, |cat.services|)
    ensures op.kind == KindClient || op.kind == KindInternal
    ensures op.typ == DbClient ==> op.peer == -1
  {
    hide Valid;
    IsChildOp(cat, i, op);
  }

  lemma {:induction false} NamedService(cat: Catalog, i: nat)
    requires Valid(cat) && i < |cat.services|
    ensures cat.services[i].name == ServiceName(i)
  {
    assert Described(cat.services[i], i);
  }

  /** A CLIENT operation with a peer describes it: type-specific fields only, and the peer's own name. */
  lemma {:induction false} PeerDescribed(cat: Catalog, i: nat, op: Operation)
    requires Valid(cat) && i < |cat.services|
    requires op in cat.services[i].childOps && op.peer >= 0
    ensures ChildOp(op, i, |cat.services|)
    ensures op.typ == RpcClient ==>
              op.peer < |cat.services| && op.rpcService == cat.services[op.peer].name + ".v1.Service"
    ensures op.typ == HttpClient || op.typ == RpcClient
    ensures op.typ == RpcClient ==> op.httpMethod == "" && op.route == ""
    ensures op.typ == HttpClient ==> op.rpcService == "" && op.rpcMethod == ""
  {
    hide Valid, ServiceName;
    IsChildOp(cat, i, op);
    if op.typ == RpcClient {
      NamedService(cat, op.peer);
    }
  }

  /** Database spans are leaves. */
  lemma {:induction false} DbSpansAreLeaves(g: Gen, log: seq<Emission>, a: nat)
    requires g.Ok() && Built(g, log)
    requires a < |log| && log[a].op.typ == DbClient
    ensures Fanout.Kids(log, a) == 0
  {
    hide Valid;
    assert SpanOk(g, log, a);
    forall i | 0 <= i < |log| ensures log[i].parentAt != a {
      assert SpanOk(g, log, i);
      if log[i].parentAt == a {
        CallConforms(g, log, i);
        DbSpan(g, log, a);
      }
    }
    Fanout.KidsOfLeaf(log, a);
  }

  lemma {:induction false} DbSpan(g: Gen, log: seq<Emission>, a: nat)
    requires g.Ok() && a < |log| && SpanOk(g, log, a)
    requires log[a].op.typ == DbClient
    ensures log[a].op.kind == KindClient && log[a].op.peer == -1
  {
    EntryOps(g.cat, log[a].svc);
    assert Described(g.cat.services[log[a].svc], log[a].svc);
    if log[a].op in g.cat.services[log[a].svc].childOps {
      ChildKinds(g.cat, log[a].svc, log[a].op);
    }
  }

  // ---- links by id ----

  ghost predicate IsRoot(log: seq<Emission>, i: nat)
    requires i < |log|
  {
    log[i].parentAt == -1
  }

  /** Entry `j` is what the stored parent link of entry `i` points to. */
  ghost predicate LinksTo(log: seq<Emission>, i: nat, j: nat)
    requires i < |log| && j < |log|
  {
    log[j].span.traceId == log[i].span.traceId && log[j].span.spanId == log[i].span.parentId
  }

  ghost predicate SameIds(log: seq<Emission>, i: nat, j: nat)
    requires i < |log| && j < |log|
  {
    log[j].span.traceId == log[i].span.traceId && log[j].span.spanId == log[i].span.spanId
  }

  /** The stored links of every non-root entry identify its parent and nothing else. */
  ghost predicate LinksResolve(log: seq<Emission>) {
    forall i, j :: 0 <= i < |log| && 0 <= j < |log| && !IsRoot(log, i) && LinksTo(log, i, j) ==> j == log[i].parentAt
  }

  /** No two entries share a trace id and a span id that one of them needs to be found by its children. */
  ghost predicate ParentIdsUnique(log: seq<Emission>) {
    forall a, j :: 0 <= a < |log| && 0 <= j < |log| && HasChild(log, a) && SameIds(log, a, j) ==> j == a
  }

  ghost predicate HasChild(log: seq<Emission>, a: nat) {
    exists i :: 0 <= i < |log| && log[i].parentAt == a
  }

  lemma {:induction false} ParentLinked(g: Gen, log: seq<Emission>, i: nat)
    requires Built(g, log) && i < |log| && !IsRoot(log, i)
    ensures 0 <= log[i].parentAt < i
    ensures LinksTo(log, i, log[i].parentAt) && HasChild(log, log[i].parentAt)
    ensures log[i].span.parentId == log[log[i].parentAt].span.spanId
  {
    assert SpanOk(g, log, i);
  }

  /** Every stored link finds the parent; it finds only the parent exactly when the drawn ids of
      spans with children collide with no other span of the same trace id. */
  lemma {:induction false} LinksResolveIff(g: Gen, log: seq<Emission>)
    requires Built(g, log)
    ensures LinksResolve(log) <==> ParentIdsUnique(log)
  {
    hide Built;
    if ParentIdsUnique(log) {
      forall i, j | 0 <= i < |log| && 0 <= j < |log| && !IsRoot(log, i) && LinksTo(log, i, j)
        ensures j == log[i].parentAt
      {
        ParentLinked(g, log, i);
        assert SameIds(log, log[i].parentAt, j);
      }
    }
    if LinksResolve(log) {
      forall a, j | 0 <= a < |log| && 0 <= j < |log| && HasChild(log, a) && SameIds(log, a, j)
        ensures j == a
      {
        var i :| 0 <= i < |log| && log[i].parentAt == a;
        ParentLinked(g, log, i);
        assert LinksTo(log, i, j);
      }
    }
  }

  /** A missing parent id marks exactly the roots precisely when no span with children drew the id 0. */
  lemma {:induction false} RootsVisibleIff(g: Gen, log: seq<Emission>)
    requires Built(g, log)
    ensures (forall i :: 0 <= i < |log| ==> (log[i].span.parentId == 0 <==> IsRoot(log, i)))
       <==> (forall a :: 0 <= a < |log| && HasChild(log, a) ==> log[a].span.spanId != 0)
  {
    forall i | 0 <= i < |log| ensures IsRoot(log, i) ==> log[i].span.parentId == 0 {
      assert SpanOk(g, log, i);
    }
    hide Built;
    if forall a :: 0 <= a < |log| && HasChild(log, a) ==> log[a].span.spanId != 0 {
      forall i | 0 <= i < |log| && log[i].span.parentId == 0 ensures IsRoot(log, i) {
        if !IsRoot(log, i) {
          ParentLinked(g, log, i);
        }
      }
    }
    if forall i :: 0 <= i < |log| ==> (log[i].span.parentId == 0 <==> IsRoot(log, i)) {
      forall a | 0 <= a < |log| && HasChild(log, a) ensures log[a].span.spanId != 0 {
        var i :| 0 <= i < |log| && log[i].parentAt == a;
        ParentLinked(g, log, i);
      }
    }
  }

  ghost predicate RootIdsDistinct(log: seq<Emission>) {
    forall r, s | 0 <= r < |log| && 0 <= s < |log| && IsRoot(log, r) && IsRoot(log, s) ::
      log[r].span.traceId == log[s].span.traceId ==> r == s
  }

  /** There is exactly one root per trace id precisely when the roots drew distinct trace ids. */
  lemma {:induction false} OneRootPerTraceIdIff(g: Gen, log: seq<Emission>)
    requires Built(g, log)
    ensures (forall i, j :: 0 <= i < |log| && 0 <= j < |log| && log[i].span.traceId == log[j].span.traceId
                            ==> log[i].root == log[j].root)
       <==> RootIdsDistinct(log)
  {
    forall i | 0 <= i < |log|
      ensures 0 <= log[i].root < |log| && IsRoot(log, log[i].root)
      ensures log[i].span.traceId == log[log[i].root].span.traceId
      ensures IsRoot(log, i) ==> log[i].root == i
    {
      InsideRoot(g, log, i);
      assert SpanOk(g, log, i);
    }
    hide Built;
  }

  /** Ids that were drawn without an accident: non-zero, distinct spans, distinct traces. */
  ghost predicate FreshIds(log: seq<Emission>) {
    && (forall i :: 0 <= i < |log| ==> log[i].span.spanId != 0)
    && (forall i, j :: 0 <= i < |log| && 0 <= j < |log| && log[i].span.spanId == log[j].span.spanId ==> i == j)
    && RootIdsDistinct(log)
  }

  /** Without an accident in the ids, the stored links alone rebuild the forest of any batch. */
  lemma {:induction false} LinksRebuildForest(g: Gen, pos: nat, target: int)
    requires g.Ok()
    requires FreshIds(FillBatch(g, pos, target).log)
    ensures var log := FillBatch(g, pos, target).log;
            && LinksResolve(log)
            && (forall i :: 0 <= i < |log| ==> (log[i].span.parentId == 0 <==> IsRoot(log, i)))
            && (forall i, j :: 0 <= i < |log| && 0 <= j < |log| ==>
                 (log[i].span.traceId == log[j].span.traceId <==> log[i].root == log[j].root))
  {
    hide Valid, FillBatch, Built;
    var log := FillBatch(g, pos, target).log;
    BatchShape(g, pos, target);
    LinksResolveIff(g, log);
    RootsVisibleIff(g, log);
    OneRootPerTraceIdIff(g, log);
    forall i | 0 <= i < |log| ensures log[i].root <= i && log[i].span.traceId == log[log[i].root].span.traceId {
      InsideRoot(g, log, i);
    }
  }
}
