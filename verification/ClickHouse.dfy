/** The ClickHouse sink: shard rotation, and one insert batch per Send. */
module ClickHouse {
  import opened Oracle
  import opened Telemetry
  import opened Rows
  import Rotation

  datatype Schema = MapSchema | JsonSchema(printer: Printer)

  function RowOf(schema: Schema, sp: Span, x: Context): Row
    requires Timed(sp)
  {
    match schema
    case MapSchema => MapRow(sp, x)
    case JsonSchema(printer) => JsonRow(printer, sp, x)
  }

  function ContextOf(rs: ResourceSpans, sc: ScopeSpans): Context {
    Context(rs.attrs, if "service.name" in rs.attrs then rs.attrs["service.name"] else "",
            sc.name, sc.version, sc.attrs)
  }

  ghost predicate TimedSpans(spans: seq<Span>) {
    forall sp :: sp in spans ==> Timed(sp)
  }

  ghost predicate TimedScopes(scopes: seq<ScopeSpans>) {
    forall sc :: sc in scopes ==> TimedSpans(sc.spans)
  }

  ghost predicate TimedBatch(td: seq<ResourceSpans>) {
    forall rs :: rs in td ==> TimedScopes(rs.scopes)
  }

  // ---- the rows of a batch ----

  function SpanRows(schema: Schema, x: Context, spans: seq<Span>): (rows: seq<Row>)
    requires TimedSpans(spans)
    ensures |rows| == |spans|
  {
    if spans == [] then [] else
      var n := |spans| - 1;
      SpanRows(schema, x, spans[..n]) + [RowOf(schema, spans[n], x)]
  }

  function ScopeRows(schema: Schema, rs: ResourceSpans, scopes: seq<ScopeSpans>): seq<Row>
    requires TimedScopes(scopes)
  {
    if scopes == [] then [] else
      var n := |scopes| - 1;
      ScopeRows(schema, rs, scopes[..n]) + SpanRows(schema, ContextOf(rs, scopes[n]), scopes[n].spans)
  }

  function BatchRows(schema: Schema, td: seq<ResourceSpans>): seq<Row>
    requires TimedBatch(td)
  {
    if td == [] then [] else
      var n := |td| - 1;
      BatchRows(schema, td[..n]) + ScopeRows(schema, td[n], td[n].scopes)
  }

  // ---- the sink ----

  /** What the driver and the server make of one Send: the batch cannot be prepared, a row is refused,
      the commit reports an error (and may have landed all the same), or everything succeeds. */
  datatype Outcome = PrepareFails | AppendFails(at: nat) | CommitFails(landed: bool) | Commits

  /** Whether a Send of `n` rows succeeds. */
  predicate Succeeds(outcome: Outcome, n: nat) {
    outcome.Commits? || (outcome.AppendFails? && outcome.at >= n)
  }

  /** Whether the table has the rows afterwards. */
  predicate Lands(outcome: Outcome, n: nat) {
    Succeeds(outcome, n) || outcome == CommitFails(true)
  }

  /** A send that succeeds has landed; one that fails has landed only if its commit went through unnoticed. */
  lemma {:induction false} OutcomeCases(outcome: Outcome, n: nat)
    ensures Succeeds(outcome, n) ==> Lands(outcome, n)
    ensures Lands(outcome, n) && !Succeeds(outcome, n) <==> outcome == CommitFails(true)
    ensures outcome == PrepareFails || (outcome.AppendFails? && outcome.at < n) ==> !Lands(outcome, n)
  {
  }

  /** An insert in progress. */
  class Batch {
    var rows: seq<Row>

    constructor ()
      ensures rows == []
    {
      rows := [];
    }

    method Append(row: Row, outcome: Outcome) returns (ok: bool)
      modifies this
      ensures ok <==> outcome != AppendFails(|old(rows)|)
      ensures rows == if ok then old(rows) + [row] else old(rows)
    {
      ok := outcome != AppendFails(|rows|);
      if ok {
        rows := rows + [row];
      }
    }
  }

  class ChSink {
    const conns: nat
    const schema: Schema
    const start: nat
    var next: nat
    var tables: seq<seq<Row>>
    ghost var picked: seq<nat>
    ghost var landed: seq<bool>

    /** The counter has counted the picks, and they went round with it; of each it is known whether its
        batch landed. */
    ghost predicate Valid()
      reads this
    {
      && 0 < conns < TWO_63 && |tables| == conns
      && start < TWO_64 && next < TWO_64
      && (conns > 1 ==>
            next == (start + |picked|) % TWO_64 && picked == Rotation.WrappedPicks(start, conns, |picked|))
      && |landed| == |picked|
    }

    /** The shards that received a batch, in order. */
    ghost function Received(): seq<nat>
      requires Valid()
      reads this
    {
      Rotation.Kept(picked, landed)
    }

    /** One connection per shard endpoint, starting at an offset that depends on the replica. */
    constructor RoundRobin(endpoints: nat, replica: int, schema: Schema)
      requires 0 < endpoints < TWO_63
      ensures Valid() && conns == endpoints && this.schema == schema && picked == [] && landed == []
      ensures start == Rotation.InitialOffset(replica, endpoints)
      ensures forall k :: 0 <= k < conns ==> tables[k] == []
    {
      conns := endpoints;
      this.schema := schema;
      start := Rotation.InitialOffset(replica, endpoints);
      next := Rotation.InitialOffset(replica, endpoints);
      tables := seq(endpoints, k => []);
      picked, landed := [], [];
    }

    /** A single pooled connection. */
    constructor Pooled(schema: Schema)
      ensures Valid() && conns == 1 && this.schema == schema && picked == [] && landed == [] && tables == [[]]
    {
      conns := 1;
      this.schema := schema;
      start, next := 0, 0;
      tables := [[]];
      picked, landed := [], [];
    }

    /** Chooses the connection of the next batch with one fetch-and-add. */
    method Pick() returns (shard: nat)
      requires Valid()
      modifies this`next, this`picked, this`landed
      ensures shard < conns && Valid()
      ensures picked == old(picked) + [shard] && landed == old(landed) + [false]
      ensures next == if conns == 1 then old(next) else (old(next) + 1) % TWO_64
      ensures shard == if conns == 1 then 0 else next % conns
    {
      hide Rotation.WrappedPicks;
      if conns == 1 {
        shard := 0;
      } else {
        Rotation.NextPick(start, conns, |picked|);
        next := (next + 1) % TWO_64;
        shard := next % conns;
      }
      picked := picked + [shard];
      landed := landed + [false];
    }

    /** Encodes one span into the batch. */
    method AppendSpan(batch: Batch, sp: Span, x: Context, outcome: Outcome) returns (ok: bool)
      requires Timed(sp)
      modifies batch
      ensures ok <==> outcome != AppendFails(|old(batch.rows)|)
      ensures batch.rows == if ok then old(batch.rows) + [RowOf(schema, sp, x)] else old(batch.rows)
    {
      hide MapRow, JsonRow;
      var row;
      match schema {
        case MapSchema => row := EncodeMap(sp, x);
        case JsonSchema(printer) => row := EncodeJson(printer, sp, x);
      }
      ok := batch.Append(row, outcome);
    }

    /** Appends the rows of all spans, group by group; stops at the first row that is refused. */
    method AppendAll(batch: Batch, td: seq<ResourceSpans>, outcome: Outcome) returns (ok: bool)
      requires TimedBatch(td) && batch.rows == []
      modifies batch
      ensures ok ==> batch.rows == BatchRows(schema, td)
      ensures ok <==> !(outcome.AppendFails? && outcome.at < |BatchRows(schema, td)|)
    {
      hide RowOf, Timed, ContextOf;
      for i := 0 to |td|
        invariant TimedBatch(td[..i]) && batch.rows == BatchRows(schema, td[..i])
        invariant outcome.AppendFails? ==> |batch.rows| <= outcome.at
      {
        ok := AppendResource(batch, td[i], outcome);
        assert td[..i + 1][..i] == td[..i];
        if !ok {
          RowsOfPrefix(schema, td, i + 1);
          return;
        }
      }
      assert td[..|td|] == td;
      return true;
    }

    method AppendResource(batch: Batch, rs: ResourceSpans, outcome: Outcome) returns (ok: bool)
      requires TimedScopes(rs.scopes)
      requires outcome.AppendFails? ==> |batch.rows| <= outcome.at
      modifies batch
      ensures var more := ScopeRows(schema, rs, rs.scopes);
              && (ok ==> batch.rows == old(batch.rows) + more)
              && (ok <==> !(outcome.AppendFails? && outcome.at < |old(batch.rows)| + |more|))
    {
      hide RowOf, Timed, ContextOf;
      var scopes := rs.scopes;
      for j := 0 to |scopes|
        invariant TimedScopes(scopes[..j])
        invariant batch.rows == old(batch.rows) + ScopeRows(schema, rs, scopes[..j])
        invariant outcome.AppendFails? ==> |batch.rows| <= outcome.at
      {
        ok := AppendScope(batch, ContextOf(rs, scopes[j]), scopes[j].spans, outcome);
        assert scopes[..j + 1][..j] == scopes[..j];
        if !ok {
          ScopeRowsOfPrefix(schema, rs, scopes, j + 1);
          return;
        }
      }
      assert scopes[..|scopes|] == scopes;
      return true;
    }

    method AppendScope(batch: Batch, x: Context, spans: seq<Span>, outcome: Outcome) returns (ok: bool)
      requires TimedSpans(spans)
      requires outcome.AppendFails? ==> |batch.rows| <= outcome.at
      modifies batch
      ensures ok ==> batch.rows == old(batch.rows) + SpanRows(schema, x, spans)
      ensures ok <==> !(outcome.AppendFails? && outcome.at < |old(batch.rows)| + |spans|)
    {
      hide RowOf, Timed;
      for k := 0 to |spans|
        invariant TimedSpans(spans[..k])
        invariant batch.rows == old(batch.rows) + SpanRows(schema, x, spans[..k])
        invariant outcome.AppendFails? ==> |batch.rows| <= outcome.at
      {
        ok := AppendSpan(batch, spans[k], x, outcome);
        if !ok {
          return;
        }
        assert spans[..k + 1][..k] == spans[..k];
      }
      assert spans[..|spans|] == spans;
      return true;
    }

    /** Sends one batch. On success exactly its rows have been added to one shard's table; on an
        error either all of them landed or none. */
    method Send(td: seq<ResourceSpans>, outcome: Outcome) returns (ok: bool)
      requires Valid() && TimedBatch(td)
      modifies this
      ensures Valid()
      ensures |picked| == |old(picked)| + 1 && picked[..|old(picked)|] == old(picked)
      ensures var shard := picked[|old(picked)|]; var rows := BatchRows(schema, td);
              && shard < |old(tables)|
              && next == (if conns == 1 then old(next) else (old(next) + 1) % TWO_64)
              && shard == (if conns == 1 then 0 else next % conns)
              && landed == old(landed) + [Lands(outcome, |rows|)]
              && (ok <==> Succeeds(outcome, |rows|))
              && tables == if Lands(outcome, |rows|) then old(tables)[shard := old(tables)[shard] + rows]
                           else old(tables)
    {
      hide BatchRows, TimedBatch;
      var shard := Pick();
      if outcome.PrepareFails? {
        return false;
      }
      var batch := new Batch();
      var appended := AppendAll(batch, td, outcome);
      if !appended {
        return false;
      }
      if outcome.CommitFails? {
        if outcome.landed {
          tables := tables[shard := tables[shard] + batch.rows];
          landed := landed[..|landed| - 1] + [true];
        }
        return false;
      }
      tables := tables[shard := tables[shard] + batch.rows];
      landed := landed[..|landed| - 1] + [true];
      return true;
    }
  }

  lemma {:induction false} RowsOfPrefix(schema: Schema, td: seq<ResourceSpans>, i: nat)
    requires TimedBatch(td) && i <= |td|
    ensures TimedBatch(td[..i]) && |BatchRows(schema, td[..i])| <= |BatchRows(schema, td)|
    decreases |td|
  {
    hide ScopeRows, TimedScopes;
    if i < |td| {
      var n := |td| - 1;
      RowsOfPrefix(schema, td[..n], i);
      assert td[..n][..i] == td[..i];
    } else {
      assert td[..i] == td;
    }
  }

  lemma {:induction false} ScopeRowsOfPrefix(schema: Schema, rs: ResourceSpans, scopes: seq<ScopeSpans>, i: nat)
    requires TimedScopes(scopes) && i <= |scopes|
    ensures TimedScopes(scopes[..i]) && |ScopeRows(schema, rs, scopes[..i])| <= |ScopeRows(schema, rs, scopes)|
    decreases |scopes|
  {
    hide SpanRows, ContextOf, TimedSpans;
    if i < |scopes| {
      var n := |scopes| - 1;
      ScopeRowsOfPrefix(schema, rs, scopes[..n], i);
      assert scopes[..n][..i] == scopes[..i];
    } else {
      assert scopes[..i] == scopes;
    }
  }

  /** Whichever workers and retries made them, the picks are spread evenly: by one until the counter
      wraps around, and further on under the exact conditions of the rotation; by two in any case
      until a second wrap. */
  lemma {:induction false} PickedEvenly(sink: ChSink, a: nat, b: nat)
    requires sink.Valid() && sink.conns > 1
    requires a < sink.conns && b < sink.conns
    ensures var n := sink.start + |sink.picked|;
            && (n < 2 * TWO_64 ==> Rotation.Count(sink.picked, a) <= Rotation.Count(sink.picked, b) + 2)
            && (n < TWO_64 || TWO_64 % sink.conns == 0
                || (n < 2 * TWO_64 && Rotation.BeforeWrap(sink.start) % sink.conns == 0) ==>
                 Rotation.Count(sink.picked, a) <= Rotation.Count(sink.picked, b) + 1)
  {
    hide Rotation.Count, Rotation.WrappedPicks;
    var k, m := sink.conns, |sink.picked|;
    if sink.start + m < 2 * TWO_64 {
      Rotation.WrapSpread(sink.start, k, m, a, b);
    }
    if TWO_64 % k == 0 {
      Rotation.DividedPicks(sink.start, k, m);
      Rotation.Fair(sink.start, k, m, a, b);
    } else if sink.start + m < 2 * TWO_64 && (sink.start + m < TWO_64 || Rotation.BeforeWrap(sink.start) % k == 0) {
      Rotation.WholeRoundsFair(sink.start, k, m, a, b);
    }
  }

  /** The tables have received as evenly as the picks went, but for one batch of difference for each send
      that failed. No smaller allowance would do, by the equivalence of the rotation. */
  lemma {:induction false} ReceivedEvenly(sink: ChSink, a: nat, b: nat)
    requires sink.Valid() && sink.conns > 1
    requires a < sink.conns && b < sink.conns
    ensures var n := sink.start + |sink.picked|;
            var most := Rotation.Count(sink.Received(), b) + Rotation.Failed(sink.landed);
            && (n < 2 * TWO_64 ==> Rotation.Count(sink.Received(), a) <= most + 2)
            && (n < TWO_64 || TWO_64 % sink.conns == 0
                || (n < 2 * TWO_64 && Rotation.BeforeWrap(sink.start) % sink.conns == 0) ==>
                 Rotation.Count(sink.Received(), a) <= most + 1)
  {
    hide Rotation.Count, Rotation.WrappedPicks, Rotation.Kept, Rotation.Failed;
    PickedEvenly(sink, a, b);
    Rotation.KeptCount(sink.picked, sink.landed, a);
    Rotation.KeptCount(sink.picked, sink.landed, b);
  }

  /** Sends a batch that fails if, and only if, it is the turn of shard `victim`. */
  method SendAvoiding(sink: ChSink, td: seq<ResourceSpans>, victim: nat)
    requires TimedBatch(td) && sink.Valid() && sink.conns > 1
    modifies sink
    ensures sink.Valid() && |sink.picked| == |old(sink.picked)| + 1
    ensures var shard := sink.picked[|old(sink.picked)|];
            && sink.picked == old(sink.picked) + [shard]
            && shard < |old(sink.tables)|
            && sink.landed == old(sink.landed) + [shard != victim]
            && sink.tables == if shard == victim then old(sink.tables) else
                 old(sink.tables)[shard := old(sink.tables)[shard] + BatchRows(sink.schema, td)]
  {
    hide TimedBatch, BatchRows, Rotation.WrappedPicks;
    var shard := (sink.next + 1) % TWO_64 % sink.conns;
    var ok := sink.Send(td, if shard == victim then PrepareFails else Commits);
  }

  /** One shard may get nothing however many batches are sent: any of them, if the sends fail that pick it,
      while each other one gets a batch whenever it is picked. */
  method StarvedShard(endpoints: nat, replica: int, schema: Schema, td: seq<ResourceSpans>, victim: nat, sends: nat)
    returns (sink: ChSink)
    requires TimedBatch(td) && 1 < endpoints < TWO_63 && victim < endpoints
    ensures sink.Valid() && sink.conns == endpoints && |sink.picked| == sends
    ensures sink.start == Rotation.InitialOffset(replica, endpoints)
    ensures Rotation.Failed(sink.landed) == Rotation.Count(sink.picked, victim)
    ensures sink.tables[victim] == []
    ensures forall c :: 0 <= c < endpoints && c != victim ==>
              |sink.tables[c]| == Rotation.Count(sink.picked, c) * |BatchRows(schema, td)|
  {
    hide TimedBatch, BatchRows, Rotation.WrappedPicks, Rotation.Count, Rotation.Failed;
    sink := new ChSink.RoundRobin(endpoints, replica, schema);
    ghost var n := |BatchRows(schema, td)|;
    NothingCounted();
    for i := 0 to sends
      invariant fresh(sink) && sink.Valid() && sink.conns == endpoints && sink.schema == schema
      invariant sink.start == Rotation.InitialOffset(replica, endpoints)
      invariant |sink.picked| == i
      invariant Rotation.Failed(sink.landed) == Rotation.Count(sink.picked, victim)
      invariant sink.tables[victim] == []
      invariant forall c :: 0 <= c < endpoints && c != victim ==> |sink.tables[c]| == Rotation.Count(sink.picked, c) * n
    {
      ghost var before, landed, tables := sink.picked, sink.landed, sink.tables;
      SendAvoiding(sink, td, victim);
      ghost var shard := sink.picked[i];
      Rotation.KeptNext(before, landed, shard, shard != victim);
      Rotation.CountNext(before, shard, victim);
      forall c | 0 <= c < endpoints && c != victim ensures |sink.tables[c]| == Rotation.Count(sink.picked, c) * n {
        Rotation.CountNext(before, shard, c);
        OneMoreBatch(Rotation.Count(before, c), n);
      }
    }
  }

  lemma {:induction false} NothingCounted()
    ensures Rotation.Failed([]) == 0 && forall a :: Rotation.Count([], a) == 0
  {
  }

  lemma {:induction false} OneMoreBatch(m: nat, n: nat)
    ensures (m + 1) * n == m * n + n
  {
  }
}
