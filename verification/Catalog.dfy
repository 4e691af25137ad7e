/** The synthetic service topology and its builder. */
module Catalog {
  import Decimal
  import Oracle
  import opened Random

  datatype OpType =
    | HttpServer | HttpClient | DbClient | RpcServer | RpcClient | Internal | MsgProducer | MsgConsumer

  datatype SpanKind = KindInternal | KindServer | KindClient | KindProducer | KindConsumer

  /** One kind of work a service performs. Latency parameters are not kept: samples are arbitrary. */
  datatype Operation = Operation(
    name: string, typ: OpType, kind: SpanKind,
    httpMethod: string := "", route: string := "",
    dbSystem: string := "", dbName: string := "", dbOp: string := "", collection: string := "",
    rpcService: string := "", rpcMethod: string := "", destination: string := "",
    peer: int := -1)

  datatype Service = Service(
    idx: nat, name: string, resourceAttrs: map<string, string>,
    entryOps: seq<Operation>, childOps: seq<Operation>)

  datatype Catalog = Catalog(services: seq<Service>, scopeName: string, scopeVer: string)

  const SERVICE_NAMES: seq<string> := [
    "frontend", "api-gateway", "checkout", "cart", "catalog", "payment",
    "shipping", "inventory", "user", "auth", "recommendation", "search",
    "pricing", "promotion", "order", "notification", "email", "fraud",
    "analytics", "loyalty", "wishlist", "review", "media", "session"]

  datatype Route = Route(httpMethod: string, path: string)

  const HTTP_ROUTES: seq<Route> := [
    Route("GET", "/api/products"), Route("GET", "/api/products/{id}"), Route("POST", "/api/cart"),
    Route("GET", "/api/cart"), Route("POST", "/api/checkout"), Route("POST", "/api/orders"),
    Route("GET", "/api/orders/{id}"), Route("POST", "/api/payments"), Route("GET", "/api/users/{id}"),
    Route("POST", "/api/login"), Route("GET", "/api/search"), Route("POST", "/api/recommendations")]

  datatype Db = Db(system: string, op: string, coll: string)

  const DB_SYSTEMS: seq<Db> := [
    Db("postgresql", "SELECT", "orders"), Db("postgresql", "INSERT", "orders"),
    Db("postgresql", "SELECT", "products"), Db("mysql", "SELECT", "users"),
    Db("redis", "GET", "session"), Db("redis", "SETEX", "cart"),
    Db("mongodb", "find", "catalog"), Db("cassandra", "SELECT", "events")]

  const ENVIRONMENTS: seq<string> := ["production", "staging"]
  const REGIONS: seq<string> := ["us-east-1", "us-west-2", "eu-central-1"]

  const NAMESPACE := "shop"

  function BaseName(i: nat): string {
    SERVICE_NAMES[i % 24]
  }

  function ServiceName(i: nat): string {
    if i < 24 then BaseName(i) else BaseName(i) + "-" + Decimal.Render(i / 24)
  }

  // ---- what a valid topology is ----

  predicate HttpDescribed(op: Operation) {
    && Route(op.httpMethod, op.route) in HTTP_ROUTES
    && op.name == op.httpMethod + " " + op.route
  }

  predicate EntryOp(op: Operation, owner: string) {
    && op.peer == -1
    && match op.typ
       case HttpServer => op.kind == KindServer && HttpDescribed(op)
       case MsgConsumer =>
         op.kind == KindConsumer && op.destination == owner + ".events" && op.name == op.destination + " process"
       case _ => false
  }

  /** A remote call of service `i`: strictly forward, and describing the peer it goes to. */
  predicate CallOp(op: Operation, i: nat, n: nat) {
    && i < op.peer < n
    && op.kind == KindClient
    && match op.typ
       case HttpClient => HttpDescribed(op) && op.rpcService == "" && op.rpcMethod == ""
       case RpcClient =>
         && op.httpMethod == "" && op.route == ""
         && op.rpcService == ServiceName(op.peer) + ".v1.Service"
         && op.rpcMethod == "Get"
         && op.name == "grpc." + ServiceName(op.peer) + "/Get"
       case _ => false
  }

  predicate DbOp(op: Operation) {
    && op.peer == -1 && op.typ == DbClient && op.kind == KindClient
    && Db(op.dbSystem, op.dbOp, op.collection) in DB_SYSTEMS
    && op.name == op.dbOp + " " + op.collection && op.dbName == NAMESPACE
  }

  predicate ComputeOp(op: Operation, owner: string) {
    op.peer == -1 && op.typ == Internal && op.kind == KindInternal && op.name == "compute." + owner
  }

  predicate ChildOp(op: Operation, i: nat, n: nat) {
    CallOp(op, i, n) || DbOp(op) || ComputeOp(op, ServiceName(i))
  }

  /** At most two remote calls come first, then one or two database calls, then one compute step. */
  predicate ChildOpsOk(ops: seq<Operation>, i: nat, n: nat) {
    && 2 <= |ops| <= 5
    && (forall k :: 0 <= k < |ops| - 3 ==> CallOp(ops[k], i, n))
    && (forall k :: 0 <= k < |ops| - 1 ==> CallOp(ops[k], i, n) || DbOp(ops[k]))
    && (forall k :: 2 <= k < |ops| - 1 ==> DbOp(ops[k]))
    && DbOp(ops[|ops| - 2])
    && ComputeOp(ops[|ops| - 1], ServiceName(i))
  }

  predicate EntryOpsOk(ops: seq<Operation>, owner: string) {
    2 <= |ops| <= 5 && forall op :: op in ops ==> EntryOp(op, owner)
  }

  predicate Described(s: Service, i: nat) {
    && s.idx == i
    && s.name == ServiceName(i)
    && "service.name" in s.resourceAttrs && s.resourceAttrs["service.name"] == s.name
    && EntryOpsOk(s.entryOps, s.name)
  }

  predicate Valid(cat: Catalog) {
    && |cat.services| >= 1
    && forall i :: 0 <= i < |cat.services| ==>
         Described(cat.services[i], i) && ChildOpsOk(cat.services[i].childOps, i, |cat.services|)
  }

  // ---- the builder ----

  /** Resource attributes of one service; the drawn numbers are the version, pod and node suffixes. */
  function ResourceAttrs(name: string, version: string, env: string, region: string,
                         instance: nat, host: nat, pod: string, node: nat): (attrs: map<string, string>)
    ensures "service.name" in attrs && attrs["service.name"] == name
  {
    map[
      "service.namespace" := NAMESPACE, "service.version" := version,
      "service.instance.id" := name + "-" + Decimal.Render(instance),
      "deployment.environment" := env,
      "telemetry.sdk.name" := "opentelemetry", "telemetry.sdk.language" := "go", "telemetry.sdk.version" := "1.31.0",
      "host.name" := "node-" + Decimal.Render(host), "host.arch" := "amd64", "os.type" := "linux",
      "cloud.provider" := "onprem", "cloud.region" := region,
      "k8s.namespace.name" := NAMESPACE, "k8s.deployment.name" := name,
      "k8s.pod.name" := name + "-" + pod, "k8s.node.name" := "worker-" + Decimal.Render(node)
    ]["service.name" := name]
  }

  function HttpEntry(r: Route): (op: Operation)
    requires r in HTTP_ROUTES
    ensures forall owner :: EntryOp(op, owner)
  {
    var op := Operation(r.httpMethod + " " + r.path, HttpServer, KindServer,
                        httpMethod := r.httpMethod, route := r.path);
    assert r == Route(op.httpMethod, op.route);
    op
  }

  function ConsumerEntry(owner: string): (op: Operation)
    ensures EntryOp(op, owner)
  {
    var dst := owner + ".events";
    Operation(dst + " process", MsgConsumer, KindConsumer, destination := dst)
  }

  function HttpCall(r: Route, i: nat, peer: nat, n: nat): (op: Operation)
    requires r in HTTP_ROUTES && i < peer < n
    ensures CallOp(op, i, n) && op.peer == peer
  {
    var op := Operation(r.httpMethod + " " + r.path, HttpClient, KindClient,
                        httpMethod := r.httpMethod, route := r.path, peer := peer);
    assert r == Route(op.httpMethod, op.route);
    op
  }

  function RpcCall(peerName: string, i: nat, peer: nat, n: nat): (op: Operation)
    requires peerName == ServiceName(peer) && i < peer < n
    ensures CallOp(op, i, n) && op.peer == peer
  {
    Operation("grpc." + peerName + "/Get", RpcClient, KindClient,
              rpcService := peerName + ".v1.Service", rpcMethod := "Get", peer := peer)
  }

  function DbCall(db: Db): (op: Operation)
    requires db in DB_SYSTEMS
    ensures DbOp(op)
  {
    var op := Operation(db.op + " " + db.coll, DbClient, KindClient,
                        dbSystem := db.system, dbOp := db.op, collection := db.coll, dbName := NAMESPACE);
    assert db == Db(op.dbSystem, op.dbOp, op.collection);
    op
  }

  function Compute(owner: string): (op: Operation)
    ensures ComputeOp(op, owner)
  {
    Operation("compute." + owner, Internal, KindInternal)
  }

  // ---- the topology as a function of the tape ----

  function RouteOf(draw: nat): (r: Route)
    ensures r in HTTP_ROUTES
  {
    HTTP_ROUTES[Oracle.IntN(draw, |HTTP_ROUTES|)]
  }

  function DbOf(draw: nat): (db: Db)
    ensures db in DB_SYSTEMS
  {
    DB_SYSTEMS[Oracle.IntN(draw, |DB_SYSTEMS|)]
  }

  /** Something built from the tape, and the position behind the draws it took. */
  datatype Drawn<T> = Drawn(value: T, pos: nat)

  function HttpEntries(tape: Oracle.Tape, pos: nat, k: nat): (ops: seq<Operation>)
    ensures |ops| == k && forall op, owner :: op in ops ==> EntryOp(op, owner)
  {
    if k == 0 then [] else HttpEntries(tape, pos, k - 1) + [HttpEntry(RouteOf(tape(pos + k - 1)))]
  }

  function EntryOpsAt(tape: Oracle.Tape, pos: nat, name: string): (r: Drawn<seq<Operation>>)
    ensures EntryOpsOk(r.value, name)
  {
    var k := 2 + Oracle.IntN(tape(pos), 3);
    var consumer := if Oracle.Float64(tape(pos + 1 + k)) < 0.4 then [ConsumerEntry(name)] else [];
    Drawn(HttpEntries(tape, pos + 1, k) + consumer, pos + 2 + k)
  }

  function CallAt(tape: Oracle.Tape, pos: nat, i: nat, n: nat): (r: Drawn<Operation>)
    requires i + 1 < n
    ensures CallOp(r.value, i, n)
  {
    var peer := i + 1 + Oracle.IntN(tape(pos), n - i - 1);
    if Oracle.Float64(tape(pos + 1)) < 0.5 then Drawn(HttpCall(RouteOf(tape(pos + 2)), i, peer, n), pos + 3)
    else Drawn(RpcCall(ServiceName(peer), i, peer, n), pos + 2)
  }

  /** The first `p` remote calls of service `i`, drawn from position `pos` on. */
  function CallsFrom(tape: Oracle.Tape, pos: nat, i: nat, n: nat, p: nat): (r: Drawn<seq<Operation>>)
    requires p == 0 || i + 1 < n
    ensures |r.value| == p && forall k :: 0 <= k < p ==> CallOp(r.value[k], i, n)
  {
    if p == 0 then Drawn([], pos) else
      var before := CallsFrom(tape, pos, i, n, p - 1);
      var call := CallAt(tape, before.pos, i, n);
      Drawn(before.value + [call.value], call.pos)
  }

  /** The last service has no one to call. */
  function CallOpsAt(tape: Oracle.Tape, pos: nat, i: nat, n: nat): (r: Drawn<seq<Operation>>)
    ensures |r.value| <= 2 && forall k :: 0 <= k < |r.value| ==> CallOp(r.value[k], i, n)
  {
    CallsFrom(tape, pos + 1, i, n, if i + 1 < n then Oracle.IntN(tape(pos), 3) else 0)
  }

  function DbCalls(tape: Oracle.Tape, pos: nat, k: nat): (ops: seq<Operation>)
    ensures |ops| == k && forall j :: 0 <= j < k ==> DbOp(ops[j])
  {
    if k == 0 then [] else DbCalls(tape, pos, k - 1) + [DbCall(DbOf(tape(pos + k - 1)))]
  }

  function DbOpsAt(tape: Oracle.Tape, pos: nat): (r: Drawn<seq<Operation>>)
    ensures 1 <= |r.value| <= 2 && forall k :: 0 <= k < |r.value| ==> DbOp(r.value[k])
  {
    var k := 1 + Oracle.IntN(tape(pos), 2);
    Drawn(DbCalls(tape, pos + 1, k), pos + 1 + k)
  }

  function ChildOpsAt(tape: Oracle.Tape, pos: nat, i: nat, n: nat): (r: Drawn<seq<Operation>>)
    ensures ChildOpsOk(r.value, i, n)
  {
    var calls := CallOpsAt(tape, pos, i, n);
    var dbs := DbOpsAt(tape, calls.pos);
    Drawn(calls.value + dbs.value + [Compute(ServiceName(i))], dbs.pos)
  }

  function AttrsAt(tape: Oracle.Tape, pos: nat, name: string): (attrs: map<string, string>)
    ensures "service.name" in attrs && attrs["service.name"] == name
  {
    var major, minor := Oracle.IntN(tape(pos), 8), Oracle.IntN(tape(pos + 1), 20);
    ResourceAttrs(name, "1." + Decimal.Render(major) + "." + Decimal.Render(minor),
                  ENVIRONMENTS[Oracle.IntN(tape(pos + 2), |ENVIRONMENTS|)],
                  REGIONS[Oracle.IntN(tape(pos + 3), |REGIONS|)],
                  Oracle.IntN(tape(pos + 4), 3), Oracle.IntN(tape(pos + 5), 12),
                  Decimal.Hex(tape(pos + 6) % 0x1_0000), Oracle.IntN(tape(pos + 7), 12))
  }

  function ServiceAt(tape: Oracle.Tape, pos: nat, i: nat): (r: Drawn<Service>)
    ensures Described(r.value, i)
  {
    var name := ServiceName(i);
    var entries := EntryOpsAt(tape, pos + 8, name);
    Drawn(Service(i, name, AttrsAt(tape, pos, name), entries.value, []), entries.pos)
  }

  /** The first pass over `n` services. */
  function ServicesAt(tape: Oracle.Tape, n: nat): (r: Drawn<seq<Service>>)
    ensures |r.value| == n && forall i :: 0 <= i < n ==> Described(r.value[i], i)
  {
    if n == 0 then Drawn([], 0) else
      var before := ServicesAt(tape, n - 1);
      var s := ServiceAt(tape, before.pos, n - 1);
      Drawn(before.value + [s.value], s.pos)
  }

  /** The second pass, of which `i` services are done. */
  function LinkedAt(tape: Oracle.Tape, n: nat, i: nat): (r: Drawn<seq<Service>>)
    requires i <= n
    ensures |r.value| == n
  {
    if i == 0 then ServicesAt(tape, n) else
      var before := LinkedAt(tape, n, i - 1);
      var ops := ChildOpsAt(tape, before.pos, i - 1, n);
      Drawn(before.value[i - 1 := before.value[i - 1].(childOps := ops.value)], ops.pos)
  }

  /** The topology that a seed stands for: the same for everyone who builds it from that seed. */
  function Topology(n: nat, scopeName: string, scopeVer: string, tape: Oracle.Tape): (cat: Catalog)
    requires n >= 1
    ensures Valid(cat) && |cat.services| == n
  {
    var cat := Catalog(LinkedAt(tape, n, n).value, scopeName, scopeVer);
    TopologyOk(cat, tape);
    cat
  }

  lemma {:induction false} TopologyOk(cat: Catalog, tape: Oracle.Tape)
    requires |cat.services| >= 1
    requires cat.services == LinkedAt(tape, |cat.services|, |cat.services|).value
    ensures Valid(cat)
  {
    hide Described, ChildOpsOk, LinkedAt;
    LinkedOk(tape, |cat.services|, |cat.services|);
  }

  /** All services are described, and the first `i` have their child operations. */
  ghost predicate LinkedTo(services: seq<Service>, i: nat) {
    && (forall k :: 0 <= k < |services| ==> Described(services[k], k))
    && (forall k :: 0 <= k < |services| && k < i ==> ChildOpsOk(services[k].childOps, k, |services|))
  }

  lemma {:induction false} LinkedOk(tape: Oracle.Tape, n: nat, i: nat)
    requires i <= n
    ensures LinkedTo(LinkedAt(tape, n, i).value, i)
  {
    hide LinkedTo, ChildOpsOk, ChildOpsAt, Described;
    if i == 0 {
      FirstPass(ServicesAt(tape, n).value);
    } else {
      LinkedOk(tape, n, i - 1);
      var before := LinkedAt(tape, n, i - 1);
      LinkNext(before.value, i - 1, ChildOpsAt(tape, before.pos, i - 1, n).value);
    }
  }

  lemma {:induction false} FirstPass(services: seq<Service>)
    requires forall k :: 0 <= k < |services| ==> Described(services[k], k)
    ensures LinkedTo(services, 0)
  {
  }

  lemma {:induction false} LinkNext(services: seq<Service>, i: nat, ops: seq<Operation>)
    requires i < |services| && LinkedTo(services, i) && ChildOpsOk(ops, i, |services|)
    ensures LinkedTo(services[i := services[i].(childOps := ops)], i + 1)
  {
    hide ChildOpsOk, EntryOpsOk, ServiceName;
  }

  // ---- the builder ----

  method DrawRoute(rng: Rng) returns (r: Route)
    modifies rng
    ensures r == RouteOf(rng.tape(old(rng.pos))) && r in HTTP_ROUTES
    ensures rng.pos == old(rng.pos) + 1
  {
    var k := rng.IntN(|HTTP_ROUTES|);
    r := HTTP_ROUTES[k];
  }

  method DrawDb(rng: Rng) returns (db: Db)
    modifies rng
    ensures db == DbOf(rng.tape(old(rng.pos))) && db in DB_SYSTEMS
    ensures rng.pos == old(rng.pos) + 1
  {
    var k := rng.IntN(|DB_SYSTEMS|);
    db := DB_SYSTEMS[k];
  }

  method BuildEntryOps(rng: Rng, name: string) returns (ops: seq<Operation>)
    modifies rng
    ensures Drawn(ops, rng.pos) == EntryOpsAt(rng.tape, old(rng.pos), name)
  {
    hide HTTP_ROUTES, RouteOf, HttpEntry, EntryOp, EntryOpsOk, ConsumerEntry, Oracle.Float64, Oracle.IntN;
    ghost var pos := rng.pos;
    ops := [];
    var extra := rng.IntN(3);
    for e := 0 to 2 + extra
      invariant rng.pos == pos + 1 + e && ops == HttpEntries(rng.tape, pos + 1, e)
    {
      var route := DrawRoute(rng);
      ops := ops + [HttpEntry(route)];
    }
    var f := rng.Float64();
    if f < 0.4 {
      ops := ops + [ConsumerEntry(name)];
    } else {
      assert ops + [] == ops;
    }
  }

  /** Draws the peer and the protocol of one remote call. */
  method DrawCall(rng: Rng, i: nat, names: seq<string>) returns (op: Operation)
    requires i + 1 < |names|
    requires forall k :: 0 <= k < |names| ==> names[k] == ServiceName(k)
    modifies rng
    ensures Drawn(op, rng.pos) == CallAt(rng.tape, old(rng.pos), i, |names|)
  {
    hide HTTP_ROUTES, RouteOf, HttpCall, RpcCall, ServiceName, CallOp, Oracle.Float64;
    var n := |names|;
    var d := rng.IntN(n - i - 1);
    var peer := i + 1 + d;
    var f := rng.Float64();
    if f < 0.5 {
      var route := DrawRoute(rng);
      op := HttpCall(route, i, peer, n);
    } else {
      op := RpcCall(names[peer], i, peer, n);
    }
  }

  method BuildCallOps(rng: Rng, i: nat, names: seq<string>) returns (ops: seq<Operation>)
    requires i < |names|
    requires forall k :: 0 <= k < |names| ==> names[k] == ServiceName(k)
    modifies rng
    ensures Drawn(ops, rng.pos) == CallOpsAt(rng.tape, old(rng.pos), i, |names|)
  {
    hide CallAt, CallOp, ServiceName;
    ghost var pos := rng.pos;
    var n := |names|;
    ops := [];
    var nPeers := rng.IntN(3);
    var p := 0;
    while p < nPeers && i + 1 < n
      invariant 0 <= p <= nPeers && (p == 0 || i + 1 < n)
      invariant Drawn(ops, rng.pos) == CallsFrom(rng.tape, pos + 1, i, n, p)
    {
      var op := DrawCall(rng, i, names);
      ops := ops + [op];
      p := p + 1;
    }
  }

  method BuildDbOps(rng: Rng) returns (ops: seq<Operation>)
    modifies rng
    ensures Drawn(ops, rng.pos) == DbOpsAt(rng.tape, old(rng.pos))
  {
    hide DB_SYSTEMS, DbOf, DbCall, DbOp, Oracle.IntN;
    ghost var pos := rng.pos;
    ops := [];
    var extra := rng.IntN(2);
    for d := 0 to 1 + extra
      invariant rng.pos == pos + 1 + d && ops == DbCalls(rng.tape, pos + 1, d)
    {
      var db := DrawDb(rng);
      ops := ops + [DbCall(db)];
    }
  }

  method BuildChildOps(rng: Rng, i: nat, names: seq<string>) returns (ops: seq<Operation>)
    requires i < |names|
    requires forall k :: 0 <= k < |names| ==> names[k] == ServiceName(k)
    modifies rng
    ensures Drawn(ops, rng.pos) == ChildOpsAt(rng.tape, old(rng.pos), i, |names|)
  {
    hide CallOpsAt, DbOpsAt, ServiceName;
    var calls := BuildCallOps(rng, i, names);
    var dbs := BuildDbOps(rng);
    ops := calls + dbs + [Compute(names[i])];
  }

  method DrawAttrs(rng: Rng, name: string) returns (attrs: map<string, string>)
    modifies rng
    ensures attrs == AttrsAt(rng.tape, old(rng.pos), name)
    ensures rng.pos == old(rng.pos) + 8
  {
    hide ResourceAttrs, Decimal.Render, Decimal.Hex, Oracle.IntN;
    var major := rng.IntN(8);
    var minor := rng.IntN(20);
    var env := rng.IntN(|ENVIRONMENTS|);
    var region := rng.IntN(|REGIONS|);
    var instance := rng.IntN(3);
    var host := rng.IntN(12);
    var pod := rng.Next();
    var node := rng.IntN(12);
    attrs := ResourceAttrs(name, "1." + Decimal.Render(major) + "." + Decimal.Render(minor),
                           ENVIRONMENTS[env], REGIONS[region], instance, host, Decimal.Hex(pod % 0x1_0000), node);
  }

  method BuildService(rng: Rng, i: nat) returns (s: Service)
    modifies rng
    ensures Drawn(s, rng.pos) == ServiceAt(rng.tape, old(rng.pos), i)
  {
    hide EntryOpsAt, EntryOpsOk, AttrsAt, Decimal.Render;
    var name := SERVICE_NAMES[i % |SERVICE_NAMES|];
    if i >= |SERVICE_NAMES| {
      name := name + "-" + Decimal.Render(i / |SERVICE_NAMES|);
    }
    var attrs := DrawAttrs(rng, name);
    var entryOps := BuildEntryOps(rng, name);
    s := Service(i, name, attrs, entryOps, []);
  }

  /** Two passes: the services with their entry points, then the child operations, whose peers
      must already exist. The result is valid, and depends on the seed's tape alone. */
  method BuildCatalog(n: nat, scopeName: string, scopeVer: string, tape: Oracle.Tape) returns (cat: Catalog)
    requires n >= 1
    ensures cat == Topology(n, scopeName, scopeVer, tape)
    ensures Valid(cat) && |cat.services| == n
  {
    hide Described, ServiceAt, ChildOpsAt, Valid, ServiceName;
    var rng := new Rng(tape);
    var services: seq<Service> := [];
    var names: seq<string> := [];
    for i := 0 to n
      invariant rng.tape == tape && Drawn(services, rng.pos) == ServicesAt(tape, i)
      invariant |names| == i && forall k :: 0 <= k < i ==> names[k] == ServiceName(k)
    {
      var s := BuildService(rng, i);
      services := services + [s];
      names := names + [s.name];
      ServiceNamed(tape, ServicesAt(tape, i).pos, i);
    }
    for i := 0 to n
      invariant rng.tape == tape && Drawn(services, rng.pos) == LinkedAt(tape, n, i)
    {
      var childOps := BuildChildOps(rng, i, names);
      services := services[i := services[i].(childOps := childOps)];
    }
    cat := Catalog(services, scopeName, scopeVer);
  }

  lemma {:induction false} ServiceNamed(tape: Oracle.Tape, pos: nat, i: nat)
    ensures ServiceAt(tape, pos, i).value.name == ServiceName(i)
  {
  }
}
