# spangen: what its spans, rows and counters are proved to be

`spangen` writes synthetic OpenTelemetry traces to ClickHouse. Workers generate batches of trace trees from a
shared service topology, pace themselves, and insert the batches as rows. This project models that pipeline from
the topology to the tables and proves what holds of it, for every random stream, every configuration and every
interleaving of the workers.

The chain of results, each part using the one before:

1. **Topology** (`Catalog`, `Blueprint`, `Names`, `Decimal`). The two-pass builder as imperative code, equal to
   a function of its random stream whose result is valid: forward-only calls, matching descriptions, unique
   names, and every piece as its own draws say.
2. **Traces** (`Oracle`, `Traces`, `Budget`, `Minimum`, `Shape`, `Fanout`, `Forest`, `Leaves`, `Floors`,
   `Extremes`, `Ids`, `Draws`). The generator as a function of the stream. Each span nests in its parent because
   the depth cap of 6 and the 1000 ns floor are just enough; batches are forests of whole traces of exactly the
   requested size; call edges follow the topology.
3. **The generator in place** (`Random`, `Telemetry`, `Grouping`, `Generator`). The object with its cache of
   aliased slices, its overwritten `lastSpanID` and its shared budget computes exactly that function, grouped by
   service as a stable partition.
4. **Rows** (`Hex`, `Rows`, `Schemas`, `Rotation`, `ClickHouse`, `Pipeline`, `Contents`). Both table schemas
   encode a span column by column; how evenly shards are picked is known exactly, also where the counter wraps;
   one send stores one row for each span, and the rows rebuild the forest.
5. **The engine** (`Engine`, `Conservation`, `Lifecycle`, `Pool`, `Seeds`). The workers as a step system over
   shared counters: the span cap, conservation, agreement of metrics, bounded shutdown, seed separation.
6. **End to end** (`Deliveries`, `Stored`, `Alone`, `Crossing`, `Tables`, `Work`, `System`). What a whole run
   leaves in the tables: no batch more than twice, a second copy only after an insert that landed was reported
   as an error, and otherwise exactly the rows of the spans counted as sent. The worker's loop and retries,
   written as the source writes them, are shown to be runs of the step system; generators, pool and sink are run
   together under every interleaving.

Idealisations. The random stream is an arbitrary tape of draws; `IntN` takes one draw, and a latency sample is
any 64-bit duration from 1000 ns up. Floating-point factors (0.7, 0.1, 0.85 and the rates) are exact reals,
truncated where the source truncates. The clock reading is a position of the tape as well: any time from 2 s
after the epoch that fits in 63 bits. Ids are any 64-bit draws, so they may collide or be zero: facts about
trees are stated by emission order, and facts about stored ids as equivalences or for batches whose ids are
distinct and not zero, which they are exactly when the draws they are made of are (`Ids.FreshIdsIff`).

Where the code differs from its comments or documentation, the model follows the code:

- internal/generate/engine.go:117 says that the last batch is still sent. The second context check stops the
  worker first: the batch never lands (`Deliveries.AbandonedNeverLands`), in a run that exists for every cap
  (`Crossing.CapIsReached`), and fewer spans than the cap are ever sent.
- internal/generate/engine.go:252-254 calls seeds unique per pod and worker. They can collide across both at
  once (`Seeds.SeedsCollideIff` gives the exact condition, `Seeds.SeedsCanCollide` the hosts).
- internal/sink/clickhouse.go:67-68 and 130-131 promise even rotation for every replica. It is uneven right away
  for most negative replica indices, which internal/config/config.go:94 lets through
  (`Rotation.NegativeReplicaFairIff`), and by one pick more at the wrap of the counter
  (`Rotation.FairThroughWrapIff`). It is the picks that are even: what the tables receive is even within `d` for
  all patterns of at most `f` failed sends exactly when `d >= f + 1` (`Rotation.EvenWithinIff`,
  `ClickHouse.ReceivedEvenly`), and `ClickHouse.StarvedShard` leaves a table empty.
- README.md:165 and internal/sink/clickhouse.go:37 speak of 22 columns. The JSON schema has 23
  (`Schemas.ColumnLists`).
- internal/model/catalog.go:194 calls the compute step a leaf. The generator descends below it
  (`Leaves.ComputeLeafIff` says exactly when, `Leaves.AllComputeLeavesIff` for which configurations never).
- internal/config/config.go:106 offers a minimum of spans per trace. It only feeds the budget, and is kept on
  every stream exactly when it is at most 2 (`Minimum.MinimumKeptIff`; `Minimum.TwoSpanTrace` is the stream that
  fails).

## Model

| member | source | states |
|---|---|---|
| `Catalog.BuildCatalog` | internal/model/catalog.go:99-201 | The two passes return, for every `n >= 1` and every tape, a valid catalog of `n` services, and it is the topology that the tape stands for: equal seeds give equal topologies. |
| `Catalog.Topology` | internal/model/catalog.go:102-201 | Validity of the topology: every service has 2 to 5 entry and 2 to 5 child operations, each remote call goes to a strictly later service and describes it, database and compute operations have no peer, and the resource attributes name the service. |
| `Catalog.BuildService` | internal/model/catalog.go:107-158 | First pass for one service, draw by draw: name, resource attributes and entry points. |
| `Catalog.BuildEntryOps` | internal/model/catalog.go:141-157 | Two to four HTTP routes and, for a draw below 0.4, one consumer. |
| `Catalog.BuildCallOps` | internal/model/catalog.go:166-183 | At most two remote calls, none when no later service exists. |
| `Catalog.BuildDbOps` | internal/model/catalog.go:184-193 | One or two database calls from the table of eight. |
| `Catalog.BuildChildOps` | internal/model/catalog.go:164-199 | Second pass for one service: remote calls, then database calls, then one compute step. |
| `Catalog.ChildOpsAt` | internal/model/catalog.go:164-199 | The child operations meet what the generator relies on: 2 to 5 of them in that order, peers strictly in `(i, n)`, RPC names made from the peer's own name. |
| `Catalog.EntryOpsAt` | internal/model/catalog.go:141-157 | The entry points are 2 to 5 SERVER or CONSUMER operations without a peer. |
| `Catalog.CallsFrom` | internal/model/catalog.go:167-183 | However many calls are drawn, each is a CLIENT call to a later service that describes its peer. |
| `Catalog.LinkedOk` | internal/model/catalog.go:164-199 | Invariant of the second pass: finished services keep valid child operations, and no service loses its entry points or its name. |
| `Blueprint.EntryOpsDrawn` | internal/model/catalog.go:141-157 | Over the tape: `2 + draw % 3` routes, each the one that its own draw stands for, and a consumer, as the last entry point, exactly when the draw after them is below two fifths. |
| `Blueprint.CallDrawn` | internal/model/catalog.go:169-182 | Over the tape: the peer is `1 + draw % (n - i - 1)` services further; the call is an HTTP one exactly for the lower half of the next draw, with the route of a third one, and otherwise an RPC. |
| `Blueprint.CallsDrawn` | internal/model/catalog.go:166-168 | A service has `draw % 3` remote calls, or none when there is no later service. |
| `Blueprint.CallsInOrder` | internal/model/catalog.go:168-183 | Each call is drawn where the one before it ended. |
| `Blueprint.EveryPeerDrawn` | internal/model/catalog.go:169 | Every later service can be drawn as a peer. |
| `Blueprint.DbOpsDrawn` | internal/model/catalog.go:184-193 | Over the tape: `1 + draw % 2` database calls, each the one that its own draw stands for. |
| `Blueprint.ChildOpsDrawn` | internal/model/catalog.go:164-199 | Calls, database calls and one compute step follow one another, and so do their draws. |
| `Blueprint.AttrsDrawn` | internal/model/catalog.go:116-139 | Exactly 17 resource attributes; version, environment, region, instance, host, pod and node are those of eight draws, in this order. |
| `Blueprint.FixedAttrs` | internal/model/catalog.go:127-134 | The attributes that are the same for all services. |
| `Blueprint.TopologyDrawn` | internal/model/catalog.go:102-201 | Every service of the result is as its first-pass draws say, with the child operations of the second pass, which begins where the first ended. |
| `Blueprint.OtherFields` | internal/model/catalog.go:145-198 | No operation describes anything but its own protocol. |
| `Blueprint.SimplestTopology` | internal/model/catalog.go:102-201 | By example: the stream of zeros and one service. |
| `Decimal.RenderInjective` | internal/model/catalog.go:110 | Decimal suffixes of different numbers differ. |
| `Decimal.ParseHexRead` | internal/model/catalog.go:137 | The pod suffix, read as a hex number, gives back what was drawn. |
| `Names.NamesInjective` | internal/model/catalog.go:107-111 | Different indices have different service names, for any number of services. |
| `Names.NameExamples` | internal/model/catalog.go:107-111 | By example: the 24th name is plain, the next is `frontend-1`. |
| `Names.ServiceNamesDistinct` | internal/model/catalog.go:121-122 | In a valid catalog `service.name` identifies the service. |
| `Names.CallPathClimbs` | internal/model/catalog.go:161-169 | Along a path of calls the index grows with every edge. |
| `Names.CallPathsAreShort` | internal/model/catalog.go:161-169 | The call graph has no cycle, and a path visits at most `n` services. |
| `Oracle.Offset` | internal/model/generator.go:124-126 | A child starts within the first 70% of its parent, strictly when the parent's duration is not zero. |
| `Oracle.OffsetOverDraws` | internal/model/generator.go:124-125 | The offset is the whole part of 7/10 of the duration times draw / 2^53, over integers. |
| `Oracle.ChildFitsIff` | internal/model/generator.go:124-130 | The clamp keeps a child inside its parent if and only if the parent's duration is positive. |
| `Oracle.ClampShortens` | internal/model/generator.go:127-130 | A child lasts as long as it was sampled unless that is beyond its parent's end: then it ends with it. |
| `Oracle.ServerBounds` | internal/model/generator.go:141-142 | A server starts at a tenth and lasts 85% of its client span, both rounded down, and ends inside it. |
| `Oracle.FloorStep` | internal/model/generator.go:111-150 | One level of recursion keeps durations at or above 1000, 255, 65, 17, 5, 1 at depths 1 to 6, through client and server spans alike. |
| `Oracle.FloorAttained` | internal/model/generator.go:114 | Each floor is attained by the largest draw and the one after depth 6 is zero, a duration at which nesting fails: the cap leaves no slack. |
| `Budget.AddChildrenBudget` | internal/model/generator.go:111-151 | A call emits exactly what the shared budget loses, never overdraws it, and emits at most `Cap(depth)` spans. |
| `Budget.CapClosedForm` | internal/model/generator.go:114-150 | `Cap(depth)` is `3^(8-depth) - 3`. |
| `Budget.TraceBudget` | internal/model/generator.go:83-109 | A trace has between 1 span and its budget, no more than the configured maximum, and never more than 2185; the returned count is what was emitted. |
| `Budget.FillBatchExact` | internal/model/generator.go:49-59 | A batch has exactly the requested number of spans. |
| `Extremes.LargestTrace` | internal/model/generator.go:111-151 | The bounds are reached, in the topology of the same stream: a trace of 2185 spans, 12 levels deep. |
| `Extremes.LinkedOps` | internal/model/catalog.go:164-199 | What the builder leaves as the child operations of a service is what its second pass drew for it. |
| `Minimum.SecondSpan` | internal/model/generator.go:101-123 | A trace with a budget for two spans has a second one, below its root. |
| `Minimum.MinimumKeptIff` | internal/model/generator.go:87-121 | For every topology: traces have the configured minimum of spans, on every stream and whenever it fits into the batch, if and only if the minimum is at most 2. |
| `Minimum.TwoSpanTrace` | internal/model/generator.go:121-149 | The stream on which larger minimums fail: in every topology it makes a trace of no more than two spans. |
| `Traces.TraceSize` | internal/model/generator.go:87-93 | The drawn trace size is cut to the budget and to at least 1. |
| `Draws.SizeDrawn` | internal/model/generator.go:87-93 | The size is `min + draw % (max - min + 1)` when the budget allows it, otherwise the budget, and at least 1. |
| `Draws.EverySizeDrawn` | internal/model/generator.go:87 | Every size of the configured range is reached by some draw. |
| `Draws.EveryTraceSized` | internal/model/generator.go:87-109 | In every batch a trace has no more spans than its size draw and the room left in the batch allow. |
| `Shape.MakeSpanOk` | internal/model/generator.go:169-200 | A span carries its ids, operation and interval, and its events lie inside that interval, half-way or a third of the way in. |
| `Shape.ChildOk` | internal/model/generator.go:122-134 | A child emitted below a span that meets its depth's floor hangs correctly below it, is long enough to be recursed into, and so is its server counterpart. |
| `Shape.ServerOk` | internal/model/generator.go:136-146 | A SERVER span hangs below the CLIENT span that calls it, in the peer service and inside the CLIENT span's time. |
| `Shape.RootSpanOk` | internal/model/generator.go:95-103 | A root has no parent, is an entry operation of its service, and lasts at least 1000 ns. |
| `Shape.AddChildrenShape` | internal/model/generator.go:111-151 | Whatever is added below a span that meets the floor of its depth is correctly linked, nested and of the same trace. |
| `Shape.TraceShape` | internal/model/generator.go:83-109 | A trace is one root followed, without interruption, by spans that all belong to it. |
| `Shape.BatchShape` | internal/model/generator.go:49-59 | For every catalog, tape and target a batch is a forest of whole traces: each other span's parent was emitted earlier in the same trace, contains it in time, and is linked by the saved id. |
| `Draws.SpanOutcome` | internal/model/generator.go:187-199 | A span is `Error`, with the message "operation failed" and an exception half-way in, exactly when its error draw is below the rate; otherwise it is `Unset`, without a message, and has a progress event a third of the way in exactly when its event draw is below the event rate. The attributes are rendered with that same flag. |
| `Draws.DrawCounts` | internal/model/generator.go:173-199 | A span takes four draws, and a fifth for a progress event. |
| `Draws.EverySpanEnds` | internal/model/generator.go:169-200 | So does every span of every batch, at the tape position of its id. |
| `Draws.EverySpanPlaced` | internal/model/generator.go:95-145 | Every span of every batch: a root has the service, entry operation, start and duration of the five draws before its id; a child the operation, offset and clamped sample of the three before; a server starts a tenth into its CLIENT span and lasts 85% of it. |
| `Floors.EverySpanLasts` | internal/model/generator.go:111-151 | In every batch a span emitted at depth d of the recursion lasts at least the floor of depth d + 1: 1000 ns for a root, then 255, 65, 17, 5 and 1. |
| `Floors.ParentsLast` | internal/model/generator.go:111-151 | So every parent lasts at least the floor of the depth at which its children are emitted. |
| `Extremes.EmptySpan` | internal/model/generator.go:114-151 | A span of no duration does occur, in the topology of one constant stream: at the depth below which nothing is emitted. |
| `Fanout.AddChildrenFanout` | internal/model/generator.go:121-150 | A call gives its parent at most three children and leaves the children of all older spans alone. |
| `Fanout.BatchFanout` | internal/model/generator.go:113-151 | In a batch a CLIENT span has at most one child and any other span at most three. |
| `Forest.InsideRoot` | internal/model/generator.go:83-151 | Every span lies in the time of its trace's root, at most 12 levels below it, and as many remote calls away as its service index has grown, or fewer. |
| `Forest.SameTraceIff` | internal/model/generator.go:52-59 | Two spans of a batch belong to one trace exactly when no root stands between them in emission order. |
| `Forest.CallConforms` | internal/model/generator.go:136-167 | Along a parent edge the service index grows exactly on CLIENT to SERVER edges and otherwise stays; the SERVER span repeats method, route, RPC service and RPC method of its CLIENT, and an RPC server runs in the service that it names. |
| `Forest.ServerNamed` | internal/model/generator.go:153-167 | A SERVER span of an HTTP call is named like its CLIENT span, that of an RPC after service and method. |
| `Forest.DbSpansAreLeaves` | internal/model/generator.go:136-149 | Database spans have no children. |
| `Leaves.ComputeLeafIff` | internal/model/generator.go:147-149 | In every batch a compute span has children if and only if it was emitted at depth 1 or 2 of the recursion and is not the last span of its trace. |
| `Leaves.WorkDepthCounts` | internal/model/generator.go:146-148 | The depth of the recursion that emitted a child is the number of edges above it that are not remote calls. |
| `Leaves.GoesOnIff` | internal/model/generator.go:111-150 | In every batch a span has children if and only if its trace goes on after it and it is a remote call, a compute step at depths 1 or 2, or a server or consumer above the depth cap; the next span is then its child. |
| `Leaves.CallAnsweredIff` | internal/model/generator.go:136-146 | The CLIENT span of a remote call is followed by its SERVER span if and only if it is not the last span of its trace. |
| `Leaves.AllComputeLeavesIff` | internal/model/catalog.go:194-198 | Compute spans are leaves in all batches, as the catalog says of them, if and only if no trace may have more than two spans. |
| `Leaves.ComputeParent` | internal/model/generator.go:147-149 | A stream on which, in every topology with larger traces, the third span is a child of a compute span. |
| `Forest.LinksResolveIff` | internal/model/generator.go:169-181 | The stored trace and parent ids lead from every span to its parent and to nothing else if and only if no span with children shares its ids with another span. |
| `Forest.RootsVisibleIff` | internal/model/generator.go:179-181 | An empty parent id marks exactly the roots if and only if no span with children drew the id 0. |
| `Forest.OneRootPerTraceIdIff` | internal/model/generator.go:83-85 | Trace ids separate traces if and only if the roots drew different ones. |
| `Forest.LinksRebuildForest` | internal/model/generator.go:49-59 | A batch with distinct non-zero ids can be rebuilt from its stored links alone. |
| `Ids.BatchOrder` | internal/model/generator.go:296-303 | Every span id is a draw of its own, and so are both halves of every root's trace id, eight and seven tape positions before (one of the positions between is the clock reading): the positions increase from span to span. |
| `Ids.FreshIdsIff` | internal/model/generator.go:296-303 | The ids of a batch are distinct and not zero if and only if the draws at exactly those positions are. |
| `Ids.ZeroIdHidesParent` | internal/model/generator.go:172-181 | One draw is enough to break the links: a root with the id 0 leaves its child looking like a root. |
| `Ids.EqualIdsMislead` | internal/model/generator.go:301-303 | Two spans that draw the same id: the link of the second leads to itself as well as to its parent. |
| `Ids.EqualTraceIds` | internal/model/generator.go:296-299 | Roots that draw the same trace id: it stands for several traces. |
| `Grouping.StablePartition` | internal/model/generator.go:61-80 | Groups are a stable partition of the emission log: one per emitting service, in the order of first emission, each the log filtered by that service in order, nothing lost or doubled. |
| `Generator.Generator.constructor` | internal/model/generator.go:37-47 | A generator starts with an empty cache and its own stream. |
| `Generator.Generator.ScopeFor` | internal/model/generator.go:61-80 | Returns the slice that belongs to the service, creating its group only when it is missing; cache and batch keep agreeing. |
| `Generator.Generator.AddSpan` | internal/model/generator.go:169-171 | Exactly one group, that of the service, gains exactly one span at its end. |
| `Generator.Generator.DrawSpan` | internal/model/generator.go:173-199 | Draws one span and leaves its id in `lastSpanID`. |
| `Generator.Generator.EmitSpan` | internal/model/generator.go:169-200 | Appends the span to log and batch, and `lastSpanID` names it. |
| `Generator.Generator.Descend` | internal/model/generator.go:136-149 | Recursion below a child; the saved ids still name the right parents although the recursion overwrites `lastSpanID`. |
| `Generator.Generator.AddChildren` | internal/model/generator.go:111-151 | In-place, with shared budget and overwritten field, it emits what the specification emits. |
| `Generator.Generator.GenTrace` | internal/model/generator.go:82-109 | Builds one trace and returns the number of spans it emitted. |
| `Generator.Generator.FillBatch` | internal/model/generator.go:49-59 | The batch object holds the groups of the specified log, with exactly the requested number of spans. |
| `Generator.FillTwo` | internal/model/generator.go:52-59 | A later batch leaves an earlier one unchanged, although both were reached through the same cache. |
| `Hex.SpanHexInjective` | internal/sink/clickhouse.go:457-462 | Span ids of 64 bits and their hex texts correspond one to one; only the id 0 is empty. |
| `Hex.TraceHexInjective` | internal/sink/clickhouse.go:450-455 | The same for 128-bit trace ids. |
| `Hex.SpanHexRead` | internal/sink/clickhouse.go:457-462 | A span id is shown in 16 lower-case hex digits that read back as the drawn number, least byte first. |
| `Hex.TraceHexRead` | internal/sink/clickhouse.go:450-455 | A trace id in 32: the first half reads back as the first word drawn, the second half as the second. |
| `Hex.TraceHexExample` | internal/model/generator.go:296-299 | By example. |
| `Hex.SpanHexExample` | internal/model/generator.go:301-303 | By example. |
| `Rows.Events` | internal/sink/clickhouse.go:362-378 | The three arrays have equal lengths and zip back to the events in order. |
| `Rows.Links` | internal/sink/clickhouse.go:380-398 | The four link arrays, element by element. |
| `Rows.EventsJson` | internal/sink/clickhouse.go:400-418 | The same arrays with attributes printed as JSON. |
| `Rows.LinksJson` | internal/sink/clickhouse.go:420-439 | The same for links. |
| `Rows.EncodeMap` | internal/sink/clickhouse.go:291-316 | Every positional argument is the value of the column that stands at its place in the map column list. |
| `Rows.EncodeJson` | internal/sink/clickhouse.go:318-347 | The same for the JSON column list. |
| `Schemas.ColumnLists` | internal/sink/clickhouse.go:464-483 | The map list has 22 columns and the JSON list 23; both name all columns, but scope attributes are in the JSON list only. |
| `Schemas.CellOfMapRow` | internal/sink/clickhouse.go:476-482 | Reading a map row through its column list gives each column its own value. |
| `Schemas.CellOfJsonRow` | internal/sink/clickhouse.go:465-474 | The same for JSON rows. |
| `Schemas.SchemasAgreeIff` | internal/sink/clickhouse.go:293-347 | Both rows of any span agree on every shared column if and only if its 64-bit duration is below 2^63. |
| `Schemas.DurationKept` | internal/sink/clickhouse.go:310 | The stored duration is the true one exactly when the span does not end before it starts; the signed column then shows the same number. |
| `Schemas.EventsRecovered` | internal/sink/clickhouse.go:362-378 | The event arrays determine the events. |
| `Schemas.LinksRecovered` | internal/sink/clickhouse.go:380-398 | The link arrays determine the links, through the hex texts. |
| `Rotation.Fair` | internal/sink/clickhouse.go:170-176 | Over any number of picks two shards differ by at most one. |
| `Rotation.ReplicasFair` | internal/sink/clickhouse.go:130-134 | With `n` replicas of `m` picks each, the totals of two of `k` shards differ by at most `n % k` and by at most `m % k`. |
| `Rotation.GridTransposed` | internal/sink/clickhouse.go:130-134 | Counting picks by replica and by round gives the same total per shard. |
| `Rotation.InitialOffset` | internal/sink/clickhouse.go:130-134 | The initial counter is the replica index modulo the shards; a negative index, whose remainder Go keeps negative, wraps to just below 2^64. |
| `Rotation.WrapSpread` | internal/sink/clickhouse.go:170-176 | From any start, until the 64-bit counter wraps a second time, two shards differ by at most two picks. |
| `Rotation.FairThroughWrapIff` | internal/sink/clickhouse.go:170-176 | They differ by at most one throughout if and only if the picks before the wrap make whole rounds or the number of shards divides 2^64. |
| `Rotation.AlwaysFairIff` | internal/sink/clickhouse.go:170-176 | They do so from every start and over any number of picks if and only if the number of shards divides 2^64. |
| `Rotation.Unfair` | internal/sink/clickhouse.go:174-175 | Otherwise, soon after the wrap, one shard is ahead of another by exactly two. |
| `Rotation.NegativeReplicaFairIff` | internal/sink/clickhouse.go:132-134 | A negative replica index starts the counter just before its wrap: unless it is a multiple of the number of shards, the rotation is fair if and only if it is one less than such a multiple or that number divides 2^64. |
| `Rotation.NegativeReplicaUnfair` | internal/sink/clickhouse.go:132-134 | With three shards and the index -2 the first two picks are the same shard. |
| `ClickHouse.ChSink.RoundRobin` | internal/sink/clickhouse.go:121-134 | One connection for each endpoint, starting at the replica's offset. |
| `ClickHouse.ChSink.Pooled` | internal/sink/clickhouse.go:135-140 | One connection. |
| `ClickHouse.ChSink.Pick` | internal/sink/clickhouse.go:170-176 | One fetch-and-add with 64-bit wrap-around; the picks so far are the rotation from the start of the counter. |
| `ClickHouse.ChSink.AppendSpan` | internal/sink/clickhouse.go:280-289 | The row of the configured schema. |
| `ClickHouse.ChSink.AppendAll` | internal/sink/clickhouse.go:188-207 | All rows of a batch in group order; it fails exactly when the row that would be refused is among them. |
| `ClickHouse.ChSink.Send` | internal/sink/clickhouse.go:178-213 | One pick per call; the picked table gains exactly the rows of the batch or nothing, and success is reported exactly when nothing failed. |
| `ClickHouse.PickedEvenly` | internal/sink/clickhouse.go:170-176 | Whichever workers and retries made them, the picks of two shards differ by at most one until the counter wraps and under the exact conditions of the rotation after that, and by at most two in any case until a second wrap. |
| `ClickHouse.ReceivedEvenly` | internal/sink/clickhouse.go:128-134 | The shards have received batches as evenly as they were picked, but for one batch of difference for each send that failed. |
| `Rotation.EvenWithinIff` | internal/sink/clickhouse.go:170-185 | For two shards or more, until the counter wraps: whichever sends fail, but at most `f` of them, two shards receive within `d` batches of each other if and only if `d >= f + 1`; within one exactly when none fails. |
| `Rotation.StarvedBy` | internal/sink/clickhouse.go:170-185 | The pattern that needs all of it: `f` failures leave a shard without any batch where another has `f + 1`. |
| `Rotation.KeptCount` | internal/sink/clickhouse.go:178-185 | Failed sends take from a shard no more than there are of them. |
| `ClickHouse.StarvedShard` | internal/sink/clickhouse.go:170-185 | Any shard of any rotation stays empty if the sends fail that pick it, while each other one receives a batch whenever it is picked. |
| `Pipeline.StoredExactly` | internal/sink/clickhouse.go:188-207 | The rows of a generated batch are one for each emitted span, in group order: nothing lost, doubled or invented. |
| `Pipeline.RowsFollowGroups` | internal/sink/clickhouse.go:188-207 | The nested loops give the rows group by group, each with the context of its own service. |
| `Pipeline.RowCells` | internal/sink/clickhouse.go:297-347 | A row shows the hex ids, the name of the emitting service, and the duration without underflow, in both schemas. |
| `Contents.RowContents` | internal/sink/clickhouse.go:297-347 | It also shows the start, the name of the operation, the attributes of service and span, and name and version of the scope, each in its own column. |
| `Contents.KindShown` | internal/sink/clickhouse.go:304 | The stored kind is that of the work done: server, client, internal or consumer. |
| `Contents.StoredEnd` | internal/sink/clickhouse.go:297-347 | Stored status, message and event of every span of a batch, from its error and event draws. |
| `Contents.StoredIdsRead` | internal/sink/clickhouse.go:297-302 | The stored ids read back as the words of the span. |
| `Pipeline.RowLinksIff` | internal/sink/clickhouse.go:297-302 | One row points to another by its parent columns exactly when the span's stored link does. |
| `Pipeline.ServiceNameIdentifies` | internal/sink/clickhouse.go:190-192 | Two rows carry the same `ServiceName` exactly when one service emitted both spans. |
| `Pipeline.RowsRebuildForest` | internal/sink/clickhouse.go:297-302 | If the ids are distinct and not zero, the row of a span points by its parent columns to the row of the span it was emitted below and to no other span's row, and exactly the roots show no parent id. |
| `Pipeline.StoredRowsRebuildForest` | internal/sink/clickhouse.go:188-207 | The same of the rows that are stored: each one that shows a parent id has exactly one parent row among them, stored once, and the rows are those of the emitted spans. |
| `Conservation.MoveKeepsInv` | internal/generate/engine.go:102-177 | Every atomic step of every worker keeps conservation of spans, the cap, and the agreement of counters and metrics. |
| `Lifecycle.Always` | internal/generate/engine.go:102-177 | So they hold in every state of every run, for any number of workers and every interleaving. |
| `Lifecycle.SpanCap` | internal/generate/engine.go:115-134 | With a cap of L: sent + errors < L and generated < L + workers x batch in every reachable state. |
| `Lifecycle.CrossingBatchIsNotSent` | internal/generate/engine.go:115-134 | A worker whose `Add` reached the cap never enters a send again, and has stopped or is about to. |
| `Lifecycle.SmallCapSendsNothing` | internal/generate/engine.go:115-134 | With a cap no larger than a batch no batch is ever counted as sent or dropped. |
| `Deliveries.SmallCapStoresNothing` | internal/generate/engine.go:115-134 | Nor does any batch reach the store, or any attempt fail. |
| `Lifecycle.Conserved` | internal/generate/engine.go:102-177 | generated = sent + errors + what workers hold or abandoned; a worker abandons one batch or none, and only after cancellation. |
| `Lifecycle.InflightCounts` | internal/generate/engine.go:139-141 | The in-flight gauge is the number of workers inside `send`. |
| `Lifecycle.BooksBalance` | internal/generate/engine.go:139-177 | When no worker is inside `send`: every batch counted once with all its spans, observations = successes + errors, and BatchesErr <= SendErrors <= 2 BatchesErr + BatchesOK. |
| `Lifecycle.AtRest` | internal/generate/engine.go:102-177 | When all workers have stopped, 0 <= generated - sent - errors <= workers x batch. |
| `Lifecycle.AtMostTwoAttempts` | internal/generate/engine.go:152-170 | No send begins a third attempt. |
| `Lifecycle.WaitsAreAccepted` | internal/generate/engine.go:53-61 | No wait exceeds the limiter's burst; one that fails was cancelled. |
| `Conservation.WaitLimit` | internal/generate/engine.go:53-61 | On a live context a wait is granted exactly up to the batch size, the largest trace and 64 more. |
| `Lifecycle.ShutdownStep` | internal/generate/engine.go:107-137 | After cancellation every step brings its worker closer to its end, and none enters a new send. |
| `Lifecycle.ShutdownIsBounded` | internal/generate/engine.go:107-170 | After cancellation at most ten steps per worker remain, under every schedule. |
| `Lifecycle.ShutdownProgresses` | internal/generate/engine.go:107-137 | Until it has stopped, a worker of a cancelled run can always take a step. |
| `Pool.Pool.Advance` | internal/generate/engine.go:102-177 | One atomic step in place is one step of the system. |
| `Pool.Pool.Drive` | internal/generate/engine.go:67-100 | A pool under any schedule goes through the states of a run. |
| `Deliveries.MoveKeepsStore` | internal/generate/engine.go:150-170 | Every step keeps the account of which batches landed, how often, and which of these inserts were reported as errors. |
| `Deliveries.AtMostTwice` | internal/generate/engine.go:150-170 | A batch lands at most twice, and a second time only after an insert that landed was reported as an error; only generated batches land. |
| `Crossing.TwiceIff` | internal/generate/engine.go:150-170 | A batch lands twice in some run if and only if there is no cap or one beyond a batch. |
| `Crossing.FirstBatchTwice` | internal/generate/engine.go:143-173 | In that run the first batch lands twice and all its spans are counted as dropped. |
| `Deliveries.AbandonedNeverLands` | internal/generate/engine.go:115-134 | The batch that reached the cap, and any batch that a worker holds when it stops, never lands. |
| `Crossing.CapIsReached` | internal/generate/engine.go:115-134 | For every cap and configuration there is a run that reaches the cap; the batch that reached it, which the comment says is still sent, is lost. |
| `Deliveries.SentIsStored` | internal/generate/engine.go:143-160 | No span is counted as sent before it is stored, in any reachable state. |
| `Deliveries.StoreAtRest` | internal/generate/engine.go:143-176 | When all workers have stopped, the spans in the store are those counted as sent and one more batch for each insert that landed unconfirmed, of which there are at most as many as send errors. |
| `Stored.RowsOfBatch` | internal/generate/engine.go:112-135 | What lands for the nth batch of a worker is one row for each span it generated, whatever the schedule. |
| `Stored.RowsAtRest` | internal/generate/engine.go:143-176 | After any run the number of rows equals the sent counter if and only if no insert landed unconfirmed, and then no batch is stored twice. |
| `Tables.TablesRebuildForests` | internal/generate/engine.go:143-176 | After any run without unconfirmed inserts, if the ids of all landed batches are fresh and no span id is in two of them: every row with a parent id has exactly one parent row in all tables, stored once. |
| `Tables.RowsApart` | internal/sink/clickhouse.go:297-302 | No parent link leads from one batch to another, and no row is in two of them. |
| `Alone.SendSteps` | internal/generate/engine.go:139-177 | The retry loop as one function of the two replies is a sequence of steps of the system. |
| `Alone.TurnSteps` | internal/generate/engine.go:107-136 | So is a whole pass of the worker's loop, with its two context checks, the cap and the wait. |
| `Work.Send` | internal/generate/engine.go:139-177 | The retry loop: the new counters, metrics and table contents as functions of the replies and of cancellation. |
| `Work.Turn` | internal/generate/engine.go:107-136 | One pass of the loop has the effect of its steps in the system, and adds the batch's rows once for each attempt that landed. |
| `Work.PassKeeps` | internal/generate/engine.go:107-136 | A pass keeps everything that is proved of every run. |
| `System.System.constructor` | internal/generate/engine.go:67-89 | A pool at its start, a generator for each worker, and a sink that stored nothing fit together. |
| `System.System.Advance` | internal/generate/engine.go:102-177 | One atomic step of any worker with the real objects: its generator fills, the sink inserts the batch it holds, and everything keeps fitting together. |
| `System.System.Drive` | internal/generate/engine.go:67-177 | Generators, counters and tables under every interleaving of any number of workers: the tables always hold exactly the rows of the batches that landed, as many as the sent counter, the unconfirmed inserts and the acknowledged sends say. |
| `Seeds.WorkerTermInjective` | internal/generate/engine.go:258 | Different workers have different worker terms: the product wraps around but its factor is odd. |
| `Seeds.SeedsCollideIff` | internal/generate/engine.go:257-259 | Two seeds are equal if and only if the exclusive or of the hosts equals that of the worker terms. |
| `Seeds.SeedRead` | internal/generate/engine.go:257-259 | Taking the worker term and the host out of a seed again gives the base seed. |
| `Seeds.BasesSeparate` | internal/generate/engine.go:257-259 | For one host and worker different base seeds give different seeds. |
| `Seeds.SeedExamples` | internal/generate/engine.go:257-259 | By example. |
| `Seeds.StreamComplement` | internal/model/generator.go:40 | The second word of a stream's state is the bitwise complement of the seed. |
| `Seeds.SeedsSeparate` | internal/generate/engine.go:252-259 | Seeds and stream states differ between the workers of one pod, and between equally numbered workers of different pods. |
| `Seeds.SeedsCanCollide` | internal/generate/engine.go:252-259 | For any two different workers there are 64-bit hosts on which their seeds are equal. |
| `Seeds.SeedIsWord` | internal/generate/engine.go:257-259 | Seeds are 64-bit words. |

## Left out

- Work.Loop: the loop of one worker in the source's form, the others resting while it runs; all workers interleaved step by step are `System.System.Drive`.
- Shape.BatchShape: times and durations use exact real factors, so double rounding of values above 2^53 is not modelled.
- Attribute values of spans (status codes, addresses, user agents, ports) are an arbitrary function of the operation, the error flag and a draw: table lookups. Attributes are already strings, so the conversion loop of `attrMap` is left out.
- JSON text of attributes: an arbitrary printer.
- Statistics of any kind, and the rejection sampling inside `IntN`.
- The source opens a service's group just before it draws the span's id, the model just after it has drawn the span; nothing can observe the difference.
- Wrap-around of the counters `generated`, `sent`, `errors` and of the metrics at 2^64. That of the shard counter is modelled.
- A batch size below 1, which the configuration check does not exclude and for which a worker would spin forever: `batch >= 1` is a precondition of the engine.
- A single insert is atomic: it lands with all its rows or with none, and an insert that is reported as an error may have landed.
- The limiter's timing, `ramp`, `sampleRate`, `logStatus`, sleeps and log lines: clocks and gauges that feed nothing back. `WaitN` is modelled by its contract.
- The OTLP sink, connections, TLS, compression, settings, pings, SQL text apart from the column order, flags and environment, host hashing, the metrics server, deployment files: plumbing.
