/** What the topology owes to the draws of its stream, piece by piece, over the tape itself. */
module Blueprint {
  import opened Catalog
  import Decimal
  import Oracle
  import Rotation

  const HALF_WORD: nat := 0x10_0000_0000_0000

  lemma {:induction false} BelowTwoFifths(draw: nat)
    ensures Oracle.Float64(draw) < 0.4 <==> 10 * (draw % Oracle.TWO_53) < 4 * Oracle.TWO_53
  {
    var d := draw % Oracle.TWO_53;
    assert Oracle.Float64(draw) * Oracle.TWO_53 as real == d as real;
  }

  lemma {:induction false} BelowHalf(draw: nat)
    ensures Oracle.Float64(draw) < 0.5 <==> draw % Oracle.TWO_53 < HALF_WORD
  {
    var d := draw % Oracle.TWO_53;
    assert Oracle.Float64(draw) * Oracle.TWO_53 as real == d as real;
  }

  /** The operation describes the route, or the database call, that this draw stands for. */
  ghost predicate RouteDrawn(op: Operation, draw: nat) {
    op.httpMethod == HTTP_ROUTES[draw % 12].httpMethod && op.route == HTTP_ROUTES[draw % 12].path
  }

  ghost predicate DbDrawn(op: Operation, draw: nat) {
    var db := DB_SYSTEMS[draw % 8];
    op.dbSystem == db.system && op.dbOp == db.op && op.collection == db.coll
  }

  lemma {:induction false} EntryRoute(draw: nat)
    ensures var op := HttpEntry(RouteOf(draw)); op.typ == HttpServer && RouteDrawn(op, draw)
  {
  }

  lemma {:induction false} CallRoute(draw: nat, i: nat, peer: nat, n: nat)
    requires i < peer < n
    ensures var op := HttpCall(RouteOf(draw), i, peer, n); op.typ == HttpClient && RouteDrawn(op, draw)
  {
  }

  lemma {:induction false} CallDb(draw: nat)
    ensures DbDrawn(DbCall(DbOf(draw)), draw)
  {
  }

  // ---- entry points ----

  lemma {:induction false} HttpEntriesDrawn(tape: Oracle.Tape, pos: nat, k: nat, e: nat)
    requires e < k
    ensures var op := HttpEntries(tape, pos, k)[e]; op.typ == HttpServer && RouteDrawn(op, tape(pos + e))
  {
    hide RouteDrawn, RouteOf, HttpEntry, HTTP_ROUTES, EntryOp;
    if e == k - 1 {
      EntryRoute(tape(pos + e));
    } else {
      HttpEntriesDrawn(tape, pos, k - 1, e);
    }
  }

  /** Two to four routes, each from its own draw, and a consumer exactly when the draw after them is below
      two fifths. */
  lemma {:induction false} EntryOpsDrawn(tape: Oracle.Tape, pos: nat, name: string)
    ensures var r := EntryOpsAt(tape, pos, name); var k := 2 + tape(pos) % 3;
            && k <= |r.value| <= k + 1
            && (forall e :: 0 <= e < k ==> r.value[e].typ == HttpServer && RouteDrawn(r.value[e], tape(pos + 1 + e)))
            && (|r.value| == k + 1 <==> 10 * (tape(pos + 1 + k) % Oracle.TWO_53) < 4 * Oracle.TWO_53)
            && (r.value[|r.value| - 1].typ == MsgConsumer <==> |r.value| == k + 1)
            && r.pos == pos + 2 + k
  {
    hide RouteDrawn, HTTP_ROUTES, HttpEntries, EntryOp, EntryOpsOk, Oracle.Float64;
    var k := 2 + tape(pos) % 3;
    var ops := HttpEntries(tape, pos + 1, k);
    forall e | 0 <= e < k ensures ops[e].typ == HttpServer && RouteDrawn(ops[e], tape(pos + 1 + e)) {
      HttpEntriesDrawn(tape, pos + 1, k, e);
    }
    BelowTwoFifths(tape(pos + 1 + k));
  }

  // ---- remote calls ----

  /** The peer is as many services further as its draw says; the call is an HTTP one for the lower half of
      the protocol draw, with a route from a third draw, and otherwise an RPC. */
  lemma {:induction false} CallDrawn(tape: Oracle.Tape, pos: nat, i: nat, n: nat)
    requires i + 1 < n
    ensures var r := CallAt(tape, pos, i, n);
            && r.value.peer == i + 1 + tape(pos) % (n - i - 1)
            && (r.value.typ == HttpClient <==> tape(pos + 1) % Oracle.TWO_53 < HALF_WORD)
            && (r.value.typ == RpcClient <==> tape(pos + 1) % Oracle.TWO_53 >= HALF_WORD)
            && (r.value.typ == HttpClient ==> RouteDrawn(r.value, tape(pos + 2)) && r.pos == pos + 3)
            && (r.value.typ == RpcClient ==> r.pos == pos + 2)
  {
    hide HTTP_ROUTES, RouteOf, RouteDrawn, HttpCall, ServiceName, CallOp, Oracle.Float64;
    CallRoute(tape(pos + 2), i, i + 1 + tape(pos) % (n - i - 1), n);
    BelowHalf(tape(pos + 1));
  }

  /** Every later service can be drawn. */
  lemma {:induction false} EveryPeerDrawn(tape: Oracle.Tape, pos: nat, i: nat, peer: nat, n: nat)
    requires i < peer < n && tape(pos) == peer - i - 1
    ensures CallAt(tape, pos, i, n).value.peer == peer
  {
    Rotation.SmallRemainder(peer - i - 1, n - i - 1);
  }

  /** Calls are drawn one after the other. */
  lemma {:induction false} CallsInOrder(tape: Oracle.Tape, pos: nat, i: nat, n: nat, p: nat, k: nat)
    requires k < p && i + 1 < n
    ensures CallsFrom(tape, pos, i, n, p).value[k] == CallAt(tape, CallsFrom(tape, pos, i, n, k).pos, i, n).value
    ensures CallsFrom(tape, pos, i, n, k + 1).pos == CallAt(tape, CallsFrom(tape, pos, i, n, k).pos, i, n).pos
  {
    hide CallAt, CallOp;
    if k == p - 1 {
    } else {
      CallsInOrder(tape, pos, i, n, p - 1, k);
    }
  }

  /** None to two calls, as many as drawn if there is a later service to call. */
  lemma {:induction false} CallsDrawn(tape: Oracle.Tape, pos: nat, i: nat, n: nat)
    ensures var calls := CallOpsAt(tape, pos, i, n);
            && |calls.value| == (if i + 1 < n then tape(pos) % 3 else 0)
            && calls == CallsFrom(tape, pos + 1, i, n, |calls.value|)
  {
  }

  // ---- databases, and all child operations ----

  lemma {:induction false} DbCallsDrawn(tape: Oracle.Tape, pos: nat, k: nat, e: nat)
    requires e < k
    ensures DbDrawn(DbCalls(tape, pos, k)[e], tape(pos + e))
  {
    hide DbDrawn, DbOf, DbCall, DB_SYSTEMS, DbOp;
    if e == k - 1 {
      CallDb(tape(pos + e));
    } else {
      DbCallsDrawn(tape, pos, k - 1, e);
    }
  }

  lemma {:induction false} DbOpsDrawn(tape: Oracle.Tape, pos: nat)
    ensures var r := DbOpsAt(tape, pos); var k := 1 + tape(pos) % 2;
            && |r.value| == k && r.pos == pos + 1 + k
            && forall e :: 0 <= e < k ==> DbDrawn(r.value[e], tape(pos + 1 + e))
  {
    hide DB_SYSTEMS, DbCalls, DbDrawn, DbOp;
    var k := 1 + tape(pos) % 2;
    var ops := DbCalls(tape, pos + 1, k);
    forall e | 0 <= e < k ensures DbDrawn(ops[e], tape(pos + 1 + e)) {
      DbCallsDrawn(tape, pos + 1, k, e);
    }
  }

  /** Calls, databases and the compute step follow one another, and so do their draws. */
  lemma {:induction false} ChildOpsDrawn(tape: Oracle.Tape, pos: nat, i: nat, n: nat)
    ensures var r := ChildOpsAt(tape, pos, i, n); var calls := CallOpsAt(tape, pos, i, n);
            var dbs := DbOpsAt(tape, calls.pos);
            && |r.value| == |calls.value| + |dbs.value| + 1
            && r.value[..|calls.value|] == calls.value
            && r.value[|calls.value|..|r.value| - 1] == dbs.value
            && r.value[|r.value| - 1].name == "compute." + ServiceName(i)
            && r.pos == dbs.pos
  {
    hide CallOpsAt, DbOpsAt, ServiceName;
  }

  // ---- services ----

  /** Each attribute that varies from service to service, from its own draw. */
  lemma {:induction false} AttrsDrawn(tape: Oracle.Tape, pos: nat, name: string)
    ensures var a := AttrsAt(tape, pos, name);
            && a.Keys == ATTRIBUTE_KEYS
            && a["service.name"] == a["k8s.deployment.name"] == name
            && a["service.version"] == "1." + Decimal.Render(tape(pos) % 8) + "." + Decimal.Render(tape(pos + 1) % 20)
            && a["deployment.environment"] == ENVIRONMENTS[tape(pos + 2) % 2]
            && a["cloud.region"] == REGIONS[tape(pos + 3) % 3]
            && a["service.instance.id"] == name + "-" + Decimal.Render(tape(pos + 4) % 3)
            && a["host.name"] == "node-" + Decimal.Render(tape(pos + 5) % 12)
            && a["k8s.pod.name"] == name + "-" + Decimal.Hex(tape(pos + 6) % 0x1_0000)
            && a["k8s.node.name"] == "worker-" + Decimal.Render(tape(pos + 7) % 12)
            && a["service.namespace"] == a["k8s.namespace.name"] == "shop"
  {
    hide ResourceAttrs, ATTRIBUTE_KEYS, Decimal.Render, Decimal.Hex;
    AttrsNamed(name, "1." + Decimal.Render(tape(pos) % 8) + "." + Decimal.Render(tape(pos + 1) % 20),
               ENVIRONMENTS[tape(pos + 2) % 2], REGIONS[tape(pos + 3) % 3], tape(pos + 4) % 3, tape(pos + 5) % 12,
               Decimal.Hex(tape(pos + 6) % 0x1_0000), tape(pos + 7) % 12);
  }

  lemma {:induction false} AttrsNamed(name: string, version: string, env: string, region: string,
                                      instance: nat, host: nat, pod: string, node: nat)
    ensures var a := ResourceAttrs(name, version, env, region, instance, host, pod, node);
            && a.Keys == ATTRIBUTE_KEYS
            && a["service.name"] == a["k8s.deployment.name"] == name
            && a["service.version"] == version
            && a["deployment.environment"] == env && a["cloud.region"] == region
            && a["service.instance.id"] == name + "-" + Decimal.Render(instance)
            && a["host.name"] == "node-" + Decimal.Render(host)
            && a["k8s.pod.name"] == name + "-" + pod
            && a["k8s.node.name"] == "worker-" + Decimal.Render(node)
            && a["service.namespace"] == a["k8s.namespace.name"] == "shop"
  {
    hide ResourceAttrs, ATTRIBUTE_KEYS, Decimal.Render;
    AttrKeys(name, version, env, region, instance, host, pod, node);
    ServiceAttrs(name, version, env, region, instance, host, pod, node);
    PlaceAttrs(name, version, env, region, instance, host, pod, node);
    ClusterAttrs(name, version, env, region, instance, host, pod, node);
  }

  lemma {:induction false} AttrKeys(name: string, version: string, env: string, region: string,
                                      instance: nat, host: nat, pod: string, node: nat)
    ensures var a := ResourceAttrs(name, version, env, region, instance, host, pod, node);
            a.Keys == ATTRIBUTE_KEYS
  {
    hide Decimal.Render;
  }

  lemma {:induction false} ServiceAttrs(name: string, version: string, env: string, region: string,
                                      instance: nat, host: nat, pod: string, node: nat)
    ensures var a := ResourceAttrs(name, version, env, region, instance, host, pod, node);
            && "service.name" in a && "service.version" in a && "service.namespace" in a
            && a["service.name"] == name && a["service.version"] == version && a["service.namespace"] == "shop"
  {
    hide Decimal.Render;
  }

  /** The attributes that are the same for all services. */
  lemma {:induction false} FixedAttrs(tape: Oracle.Tape, pos: nat, name: string)
    ensures var a := AttrsAt(tape, pos, name);
            && "telemetry.sdk.name" in a && a["telemetry.sdk.name"] == "opentelemetry"
            && "telemetry.sdk.language" in a && a["telemetry.sdk.language"] == "go"
            && "telemetry.sdk.version" in a && a["telemetry.sdk.version"] == "1.31.0"
            && "host.arch" in a && a["host.arch"] == "amd64"
            && "os.type" in a && a["os.type"] == "linux"
            && "cloud.provider" in a && a["cloud.provider"] == "onprem"
  {
    hide Decimal.Render, Decimal.Hex, ENVIRONMENTS, REGIONS;
  }

  lemma {:induction false} PlaceAttrs(name: string, version: string, env: string, region: string,
                                      instance: nat, host: nat, pod: string, node: nat)
    ensures var a := ResourceAttrs(name, version, env, region, instance, host, pod, node);
            && "deployment.environment" in a && "cloud.region" in a && "service.instance.id" in a && "host.name" in a
            && a["deployment.environment"] == env && a["cloud.region"] == region
            && a["service.instance.id"] == name + "-" + Decimal.Render(instance)
            && a["host.name"] == "node-" + Decimal.Render(host)
  {
    hide Decimal.Render;
  }

  lemma {:induction false} ClusterAttrs(name: string, version: string, env: string, region: string,
                                      instance: nat, host: nat, pod: string, node: nat)
    ensures var a := ResourceAttrs(name, version, env, region, instance, host, pod, node);
            && "k8s.namespace.name" in a && "k8s.deployment.name" in a && "k8s.pod.name" in a && "k8s.node.name" in a
            && a["k8s.namespace.name"] == "shop" && a["k8s.deployment.name"] == name
            && a["k8s.pod.name"] == name + "-" + pod
            && a["k8s.node.name"] == "worker-" + Decimal.Render(node)
  {
    hide Decimal.Render;
  }

  const ATTRIBUTE_KEYS: set<string> := {
    "service.name", "service.namespace", "service.version", "service.instance.id", "deployment.environment",
    "telemetry.sdk.name", "telemetry.sdk.language", "telemetry.sdk.version",
    "host.name", "host.arch", "os.type", "cloud.provider", "cloud.region",
    "k8s.namespace.name", "k8s.deployment.name", "k8s.pod.name", "k8s.node.name"}

  /** Eight draws for the attributes come before those for the entry points. */
  lemma {:induction false} ServiceDrawn(tape: Oracle.Tape, pos: nat, i: nat)
    ensures var s := ServiceAt(tape, pos, i);
            && s.value.name == ServiceName(i)
            && s.value.resourceAttrs == AttrsAt(tape, pos, ServiceName(i))
            && s.value.entryOps == EntryOpsAt(tape, pos + 8, ServiceName(i)).value
            && s.pos == EntryOpsAt(tape, pos + 8, ServiceName(i)).pos
  {
    hide AttrsAt, EntryOpsAt, ServiceName;
  }

  /** A finished topology: every service as drawn in the first pass, with the child operations of the
      second, which goes on where the first one ended. */
  ghost predicate DrawnService(tape: Oracle.Tape, n: nat, s: Service, i: nat, first: nat, second: nat)
    requires i < n
  {
    && s == ServiceAt(tape, first, i).value.(childOps := ChildOpsAt(tape, second, i, n).value)
    && first == (if i == 0 then 0 else ServicesAt(tape, i).pos)
    && second == LinkedAt(tape, n, i).pos
  }

  lemma {:induction false} FirstPassDrawn(tape: Oracle.Tape, n: nat, i: nat)
    requires i < n
    ensures ServicesAt(tape, n).value[i] == ServiceAt(tape, ServicesAt(tape, i).pos, i).value
  {
    hide ServiceAt, Described;
    if i == n - 1 {
    } else {
      FirstPassDrawn(tape, n - 1, i);
      assert ServicesAt(tape, n).value[..n - 1] == ServicesAt(tape, n - 1).value;
    }
  }

  lemma {:induction false} SecondPassDrawn(tape: Oracle.Tape, n: nat, m: nat, i: nat)
    requires i < n && m <= n
    ensures var first := ServicesAt(tape, n).value[i]; var ops := ChildOpsAt(tape, LinkedAt(tape, n, i).pos, i, n);
            LinkedAt(tape, n, m).value[i] == if i < m then first.(childOps := ops.value) else first
  {
    hide ServicesAt, ChildOpsAt, ChildOpsOk, Described;
    if m == 0 {
    } else {
      SecondPassDrawn(tape, n, m - 1, i);
      var before := LinkedAt(tape, n, m - 1);
      var ops := ChildOpsAt(tape, before.pos, m - 1, n);
      assert LinkedAt(tape, n, m).value == before.value[m - 1 := before.value[m - 1].(childOps := ops.value)];
    }
  }

  lemma {:induction false} TopologyDrawn(n: nat, scopeName: string, scopeVer: string, tape: Oracle.Tape, i: nat)
    requires i < n
    ensures var cat := Topology(n, scopeName, scopeVer, tape);
            && cat.scopeName == scopeName && cat.scopeVer == scopeVer
            && DrawnService(tape, n, cat.services[i], i, ServicesAt(tape, i).pos, LinkedAt(tape, n, i).pos)
    ensures ServicesAt(tape, 0).pos == 0 && LinkedAt(tape, n, 0).pos == ServicesAt(tape, n).pos
  {
    hide ServiceAt, ChildOpsAt;
    FirstPassDrawn(tape, n, i);
    SecondPassDrawn(tape, n, n, i);
  }

  // ---- an example ----

  function Zeros(): Oracle.Tape { (k: nat) => 0 }

  /** The stream of zeros and one service: two entry routes and a consumer, one database call, one compute
      step. */
  lemma {:induction false} SimplestTopology(scopeName: string, scopeVer: string)
    ensures var cat := Topology(1, scopeName, scopeVer, Zeros());
            && |cat.services| == 1 && cat.services[0].name == "frontend"
            && |cat.services[0].entryOps| == 3
            && cat.services[0].entryOps[0].name == cat.services[0].entryOps[1].name == "GET /api/products"
            && cat.services[0].entryOps[2].name == "frontend.events process"
            && |cat.services[0].childOps| == 2
            && cat.services[0].childOps[0].name == "SELECT orders"
            && cat.services[0].childOps[1].name == "compute.frontend"
  {
    var tape := Zeros();
    TopologyDrawn(1, scopeName, scopeVer, tape, 0);
    ServiceDrawn(tape, 0, 0);
    SimplestEntries(tape);
    SimplestChildren(tape, LinkedAt(tape, 1, 0).pos);
    hide EntryOpsAt, ChildOpsAt, AttrsAt;
  }

  lemma {:induction false} SimplestEntries(tape: Oracle.Tape)
    requires tape == Zeros()
    ensures var ops := EntryOpsAt(tape, 8, "frontend").value;
            && |ops| == 3 && ops[0].name == ops[1].name == "GET /api/products"
            && ops[2].name == "frontend.events process"
  {
    hide EntryOpsAt, RouteDrawn, EntryOp, HTTP_ROUTES;
    var ops := EntryOpsAt(tape, 8, "frontend").value;
    EntryOpsDrawn(tape, 8, "frontend");
    assert ops[0] in ops && ops[1] in ops && ops[2] in ops;
    FirstRoute(ops[0]);
    FirstRoute(ops[1]);
    OnlyConsumer(ops[2]);
  }

  lemma {:induction false} FirstRoute(op: Operation)
    ensures EntryOp(op, "frontend") && op.typ == HttpServer && RouteDrawn(op, 0) ==> op.name == "GET /api/products"
  {
  }

  lemma {:induction false} OnlyConsumer(op: Operation)
    ensures EntryOp(op, "frontend") && op.typ == MsgConsumer ==> op.name == "frontend.events process"
  {
  }

  lemma {:induction false} SimplestChildren(tape: Oracle.Tape, pos: nat)
    requires tape == Zeros()
    ensures var ops := ChildOpsAt(tape, pos, 0, 1).value;
            |ops| == 2 && ops[0].name == "SELECT orders" && ops[1].name == "compute.frontend"
  {
    hide ChildOpsAt, CallOpsAt, DbOpsAt, DbDrawn, DbOp, ServiceName;
    var calls := CallOpsAt(tape, pos, 0, 1);
    var dbs := DbOpsAt(tape, calls.pos).value;
    CallsDrawn(tape, pos, 0, 1);
    DbOpsDrawn(tape, calls.pos);
    ChildOpsDrawn(tape, pos, 0, 1);
    FirstDb(dbs[0]);
    Frontend();
    assert ChildOpsAt(tape, pos, 0, 1).value[0] == dbs[0];
  }

  lemma {:induction false} FirstDb(op: Operation)
    ensures DbOp(op) && DbDrawn(op, 0) ==> op.name == "SELECT orders"
  {
  }

  lemma {:induction false} Frontend()
    ensures ServiceName(0) == "frontend"
  {
  }

  // ---- nothing else is described ----

  predicate NoHttp(op: Operation) { op.httpMethod == "" && op.route == "" }

  predicate NoDb(op: Operation) { op.dbSystem == "" && op.dbName == "" && op.dbOp == "" && op.collection == "" }

  predicate NoRpc(op: Operation) { op.rpcService == "" && op.rpcMethod == "" }

  predicate NoTopic(op: Operation) { op.destination == "" }

  /** Each kind of operation describes what belongs to it and leaves the rest empty. */
  lemma {:induction false} OtherFields(r: Route, owner: string, i: nat, peer: nat, n: nat, db: Db)
    requires r in HTTP_ROUTES && db in DB_SYSTEMS && i < peer < n
    ensures var op := HttpEntry(r); NoDb(op) && NoRpc(op) && NoTopic(op)
    ensures var op := ConsumerEntry(owner); NoHttp(op) && NoDb(op) && NoRpc(op)
    ensures var op := HttpCall(r, i, peer, n); NoDb(op) && NoRpc(op) && NoTopic(op)
    ensures var op := RpcCall(ServiceName(peer), i, peer, n); NoHttp(op) && NoDb(op) && NoTopic(op)
    ensures var op := DbCall(db); NoHttp(op) && NoRpc(op) && NoTopic(op)
    ensures var op := Compute(owner); NoHttp(op) && NoDb(op) && NoRpc(op) && NoTopic(op)
  {
    hide HTTP_ROUTES, DB_SYSTEMS, ServiceName, EntryOp, CallOp, DbOp, ComputeOp;
  }
}
